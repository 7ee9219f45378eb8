/** Sequence operations of JavaScript arrays the catalog code relies on:
    `filter`, and `Array.from(new Set(xs))`. */
module Sequences {
  import opened Wrappers


  /** `xs.filter(p)`: the elements satisfying p, in order. */
  function Filter<T>(xs: seq<T>, p: T -> bool): (r: seq<T>)
    ensures |r| <= |xs|
    ensures forall k :: 0 <= k < |r| ==> p(r[k])
  {
    if xs == [] then []
    else if p(xs[0]) then [xs[0]] + Filter(xs[1..], p)
    else Filter(xs[1..], p)
  }

  /** `a` is `b` with some elements left out, the rest in their order. */
  predicate IsSubsequence<T(==)>(a: seq<T>, b: seq<T>)
    decreases |b|
  {
    if a == [] then true
    else if b == [] then false
    else if a[0] == b[0] then IsSubsequence(a[1..], b[1..])
    else IsSubsequence(a, b[1..])
  }

  lemma {:induction false} SubsequenceOfTail<T>(a: seq<T>, b: seq<T>)
    requires b != [] && IsSubsequence(a, b[1..])
    ensures IsSubsequence(a, b)
    decreases |b|, |a|
  {
    if a != [] && a[0] == b[0] {
      // a[1..] is also a subsequence of the tail, since a is
      SubsequenceDropHead(a, b[1..]);
    }
  }

  lemma {:induction false} SubsequenceDropHead<T>(a: seq<T>, b: seq<T>)
    requires a != [] && IsSubsequence(a, b)
    ensures IsSubsequence(a[1..], b)
    decreases |b|, |a|
  {
    if a[0] == b[0] {
      SubsequenceOfTail(a[1..], b);
    } else {
      SubsequenceDropHead(a, b[1..]);
      SubsequenceOfTail(a[1..], b);
    }
  }

  lemma {:induction false} FilterMember<T>(xs: seq<T>, p: T -> bool, x: T)
    ensures x in Filter(xs, p) <==> x in xs && p(x)
  {
    if xs != [] {
      FilterMember(xs[1..], p, x);
      assert xs == [xs[0]] + xs[1..];
    }
  }

  lemma {:induction false} FilterSubsequence<T>(xs: seq<T>, p: T -> bool)
    ensures IsSubsequence(Filter(xs, p), xs)
  {
    if xs != [] {
      FilterSubsequence(xs[1..], p);
      if !p(xs[0]) {
        SubsequenceOfTail(Filter(xs, p), xs);
      }
    }
  }

  /** A filter whose predicate holds everywhere changes nothing. */
  lemma {:induction false} FilterAll<T>(xs: seq<T>, p: T -> bool)
    requires forall k :: 0 <= k < |xs| ==> p(xs[k])
    ensures Filter(xs, p) == xs
  {
    if xs != [] {
      FilterAll(xs[1..], p);
    }
  }

  /** Filtering by p and then by q is filtering by both. */
  lemma {:induction false} FilterFilter<T>(xs: seq<T>, p: T -> bool, q: T -> bool, pq: T -> bool)
    requires forall x :: pq(x) == (p(x) && q(x))
    ensures Filter(Filter(xs, p), q) == Filter(xs, pq)
  {
    if xs != [] {
      FilterFilter(xs[1..], p, q, pq);
    }
  }

  /** `Array.from(new Set(xs))`: the first occurrence of each element, in the
      order of first occurrence. */
  function Dedup<T(==)>(xs: seq<T>): (r: seq<T>)
    ensures |r| <= |xs|
    ensures forall k :: 0 <= k < |xs| ==> xs[k] in r
    ensures forall k :: 0 <= k < |r| ==> r[k] in xs
    ensures NoDuplicates(r)
  {
    if xs == [] then []
    else
      var init := xs[..|xs| - 1];
      var x := xs[|xs| - 1];
      if x in init then Dedup(init) else Dedup(init) + [x]
  }

  predicate NoDuplicates<T(==)>(xs: seq<T>) {
    forall i, j :: 0 <= i < j < |xs| ==> xs[i] != xs[j]
  }

  /** The first element survives de-duplication in front. */
  lemma {:induction false} DedupHead<T>(xs: seq<T>)
    requires xs != []
    ensures Dedup(xs) != [] && Dedup(xs)[0] == xs[0]
  {
    if |xs| > 1 {
      var init := xs[..|xs| - 1];
      DedupHead(init);
      assert init[0] == xs[0];
    }
  }

  /** Pushing an element unless it is already there: `if (!xs.includes(x))
      xs.push(x)` keeps the list equal to the de-duplication of all pushes. */
  lemma DedupSnoc<T>(xs: seq<T>, x: T)
    ensures Dedup(xs + [x]) == if x in Dedup(xs) then Dedup(xs) else Dedup(xs) + [x]
  {
    assert (xs + [x])[..|xs|] == xs;
  }

  /** A sequence without duplicates is its own de-duplication. */
  lemma {:induction false} DedupNoDuplicates<T>(xs: seq<T>)
    requires NoDuplicates(xs)
    ensures Dedup(xs) == xs
  {
    if xs != [] {
      var init := xs[..|xs| - 1];
      assert NoDuplicates(init);
      DedupNoDuplicates(init);
      assert xs[|xs| - 1] !in init;
      assert xs == init + [xs[|xs| - 1]];
    }
  }

  /** The position of the first x in xs. */
  function FirstIndex<T(==)>(xs: seq<T>, x: T): (k: nat)
    requires x in xs
    ensures k < |xs| && xs[k] == x
    ensures forall i :: 0 <= i < k ==> xs[i] != x
  {
    if xs[0] == x then 0
    else
      var k := FirstIndex(xs[1..], x);
      assert forall i :: 1 <= i <= k ==> xs[i] == xs[1..][i - 1];
      1 + k
  }

  /** A position holding x after no earlier x is the first index of x. */
  lemma FirstIndexUnique<T>(xs: seq<T>, x: T, k: nat)
    requires k < |xs| && xs[k] == x
    requires forall i :: 0 <= i < k ==> xs[i] != x
    ensures FirstIndex(xs, x) == k
  {
  }

  /** Every element of r occurs in xs, and along r the first index in xs
      of each element strictly increases. */
  predicate InFirstOrder<T(==)>(r: seq<T>, xs: seq<T>) {
    && (forall k :: 0 <= k < |r| ==> r[k] in xs)
    && forall i, j :: 0 <= i < j < |r| ==> FirstIndex(xs, r[i]) < FirstIndex(xs, r[j])
  }

  /** De-duplication keeps the order of first occurrence. With
      `NoDuplicates` and the membership clauses of `Dedup` this pins the
      result down. */
  lemma {:induction false} DedupFirstOrder<T>(xs: seq<T>)
    ensures InFirstOrder(Dedup(xs), xs)
  {
    if xs != [] {
      var init := xs[..|xs| - 1];
      var x := xs[|xs| - 1];
      DedupFirstOrder(init);
      var d := Dedup(init);
      assert xs == init + [x];
      if x in init {
        assert Dedup(xs) == d;
        OrderSnoc(init, x, d, false);
      } else {
        assert Dedup(xs) == d + [x];
        OrderSnoc(init, x, d, true);
      }
    }
  }

  /** One more element of xs keeps the order, and a new element may go at
      the end. */
  lemma OrderSnoc<T>(init: seq<T>, x: T, d: seq<T>, extend: bool)
    requires InFirstOrder(d, init)
    requires extend ==> x !in init
    ensures InFirstOrder(if extend then d + [x] else d, init + [x])
  {
    var xs := init + [x];
    var r := if extend then d + [x] else d;
    forall i, j | 0 <= i < j < |r|
      ensures FirstIndex(xs, r[i]) < FirstIndex(xs, r[j])
    {
      FirstIndexSnoc(init, x, d[i]);
      if j < |d| {
        FirstIndexSnoc(init, x, d[j]);
      } else {
        FirstIndexUnique(xs, x, |init|);
      }
    }
  }

  /** Appending to a sequence does not move the first index of an element
      already in it. */
  lemma FirstIndexSnoc<T>(init: seq<T>, x: T, y: T)
    requires y in init
    ensures FirstIndex(init + [x], y) == FirstIndex(init, y)
  {
    FirstIndexUnique(init + [x], y, FirstIndex(init, y));
  }

  /** De-duplication leaves elements out but never reorders them: it is a
      subsequence of its input. */
  lemma {:induction false} DedupSubsequence<T>(xs: seq<T>)
    ensures IsSubsequence(Dedup(xs), xs)
  {
    if xs != [] {
      var init := xs[..|xs| - 1];
      var x := xs[|xs| - 1];
      DedupSubsequence(init);
      assert xs == init + [x];
      if x in init {
        SubsequenceAppend(Dedup(init), init, [], [x]);
        assert Dedup(init) + [] == Dedup(init);
      } else {
        assert IsSubsequence([x], [x]) by { assert [x][1..] == []; }
        SubsequenceAppend(Dedup(init), init, [x], [x]);
      }
    }
  }

  lemma {:induction false} SubsequenceAppend<T>(a: seq<T>, b: seq<T>, c: seq<T>, d: seq<T>)
    requires IsSubsequence(a, b) && IsSubsequence(c, d)
    ensures IsSubsequence(a + c, b + d)
    decreases |b|
  {
    if a == [] {
      assert a + c == c;
      SubsequencePrefix(c, b, d);
    } else {
      assert (a + c)[1..] == a[1..] + c;
      assert (b + d)[1..] == b[1..] + d;
      if a[0] == b[0] {
        SubsequenceAppend(a[1..], b[1..], c, d);
      } else {
        SubsequenceAppend(a, b[1..], c, d);
      }
    }
  }

  /** Anything before the sequence can be skipped over. */
  lemma {:induction false} SubsequencePrefix<T>(c: seq<T>, b: seq<T>, d: seq<T>)
    requires IsSubsequence(c, d)
    ensures IsSubsequence(c, b + d)
    decreases |b|
  {
    if b == [] {
      assert b + d == d;
    } else {
      SubsequencePrefix(c, b[1..], d);
      assert (b + d)[1..] == b[1..] + d;
      SubsequenceOfTail(c, b + d);
    }
  }

  /** The items that f picks out of xs, in order. */
  function Pick<A, T>(xs: seq<A>, f: A -> Option<T>): (r: seq<T>)
    ensures |r| <= |xs|
  {
    if xs == [] then []
    else
      var acc := Pick(xs[..|xs| - 1], f);
      match f(xs[|xs| - 1])
      case None => acc
      case Some(y) => acc + [y]
  }

  /** The picked items are exactly what f picks from some element. */
  lemma {:induction false} PickItems<A, T>(xs: seq<A>, f: A -> Option<T>)
    ensures forall y :: y in Pick(xs, f) <==> exists k :: 0 <= k < |xs| && f(xs[k]) == Some(y)
  {
    if xs != [] {
      var init := xs[..|xs| - 1];
      PickItems(init, f);
      assert forall k :: 0 <= k < |init| ==> init[k] == xs[k];
    }
  }

  lemma PickSnoc<A, T>(xs: seq<A>, x: A, f: A -> Option<T>)
    ensures Pick(xs + [x], f) == if f(x).Some? then Pick(xs, f) + [f(x).value] else Pick(xs, f)
  {
    assert (xs + [x])[..|xs|] == xs;
  }
}
