/** The traversal every script shares: categories in file order, and within
    each category its products in order. A catalog file is its sequence of
    categories. */
module Traversal {
  import opened Wrappers
  import opened Equipment

  /** Number of products in the categories. */
  function Count(cats: seq<Category>): nat {
    if cats == [] then 0 else Count(cats[..|cats| - 1]) + |cats[|cats| - 1].subcategories|
  }

  /** All products, category by category: the order the scripts visit them. */
  function Products(cats: seq<Category>): (ps: seq<Product>)
    ensures |ps| == Count(cats)
  {
    if cats == [] then [] else Products(cats[..|cats| - 1]) + cats[|cats| - 1].subcategories
  }

  lemma CountStep(cats: seq<Category>, i: nat)
    requires i < |cats|
    ensures Count(cats[..i + 1]) == Count(cats[..i]) + |cats[i].subcategories|
    ensures Products(cats[..i + 1]) == Products(cats[..i]) + cats[i].subcategories
  {
    assert cats[..i + 1][..i] == cats[..i];
  }

  /** Same categories, same number of products in each. */
  predicate SameShape(a: seq<Category>, b: seq<Category>) {
    |a| == |b| && forall i :: 0 <= i < |a| ==> |a[i].subcategories| == |b[i].subcategories|
  }

  lemma {:induction false} SameShapeCount(a: seq<Category>, b: seq<Category>)
    requires SameShape(a, b)
    ensures Count(a) == Count(b)
  {
    if a != [] {
      SameShapeCount(a[..|a| - 1], b[..|b| - 1]);
    }
  }

  /** The products with the k-th one p replaced by f(start + k, p). */
  function MapSeq(ps: seq<Product>, start: nat, f: (nat, Product) -> Product): seq<Product> {
    seq(|ps|, k requires 0 <= k < |ps| => f(start + k, ps[k]))
  }

  lemma MapSeqConcat(a: seq<Product>, b: seq<Product>, start: nat, f: (nat, Product) -> Product)
    ensures MapSeq(a + b, start, f) == MapSeq(a, start, f) + MapSeq(b, start + |a|, f)
  {
  }

  /** Two mapped runs side by side are the map of the joined run. */
  lemma MapSeqJoin(x: seq<Product>, y: seq<Product>, a: seq<Product>, b: seq<Product>, start: nat, f: (nat, Product) -> Product)
    requires x == MapSeq(a, start, f) && y == MapSeq(b, start + |a|, f)
    ensures x + y == MapSeq(a + b, start, f)
  {
    MapSeqConcat(a, b, start, f);
  }

  /** The category with its products mapped from position `start`. */
  function MapCategory(c: Category, start: nat, f: (nat, Product) -> Product): Category {
    c.(subcategories := MapSeq(c.subcategories, start, f))
  }

  /** Every product replaced by f(position, product), where the position
      counts products in traversal order from `start`. */
  function MapIndexed(cats: seq<Category>, start: nat, f: (nat, Product) -> Product): (m: seq<Category>)
    ensures |m| == |cats|
  {
    if cats == [] then []
    else
      var init := cats[..|cats| - 1];
      MapIndexed(init, start, f) + [MapCategory(cats[|cats| - 1], start + Count(init), f)]
  }

  lemma MapIndexedStep(cats: seq<Category>, i: nat, start: nat, f: (nat, Product) -> Product)
    requires i < |cats|
    ensures MapIndexed(cats[..i + 1], start, f) == MapIndexed(cats[..i], start, f) + [MapCategory(cats[i], start + Count(cats[..i]), f)]
  {
    assert cats[..i + 1][..i] == cats[..i];
  }

  lemma ProductsSnoc(cats: seq<Category>, c: Category)
    ensures Products(cats + [c]) == Products(cats) + c.subcategories
    ensures Count(cats + [c]) == Count(cats) + |c.subcategories|
  {
    assert (cats + [c])[..|cats|] == cats;
  }

  lemma {:induction false} ProductsAppend(a: seq<Category>, b: seq<Category>)
    ensures Products(a + b) == Products(a) + Products(b)
    decreases |b|
  {
    if b == [] {
      assert a + b == a;
    } else {
      var init := b[..|b| - 1];
      var last := b[|b| - 1];
      assert a + b == (a + init) + [last];
      assert b == init + [last];
      ProductsAppend(a, init);
      ProductsSnoc(a + init, last);
      ProductsSnoc(init, last);
    }
  }

  /** The products from category i on: those of category i, then the rest. */
  lemma ProductsFrom(cats: seq<Category>, i: nat)
    requires i < |cats|
    ensures Products(cats[i..]) == cats[i].subcategories + Products(cats[i + 1..])
  {
    assert cats[i..] == [cats[i]] + cats[i + 1..];
    ProductsAppend([cats[i]], cats[i + 1..]);
    assert [cats[i]] == [] + [cats[i]];
    ProductsSnoc([], cats[i]);
  }

  /** Category i of the result is category i mapped from the number of
      products before it. */
  lemma {:induction false} MapIndexedAt(cats: seq<Category>, i: nat, start: nat, f: (nat, Product) -> Product)
    requires i < |cats|
    ensures MapIndexed(cats, start, f)[i] == MapCategory(cats[i], start + Count(cats[..i]), f)
  {
    var n := |cats|;
    if i < n - 1 {
      MapIndexedAt(cats[..n - 1], i, start, f);
      assert cats[..n - 1][..i] == cats[..i];
    }
  }

  /** MapIndexed keeps every category and the number of products in each. */
  lemma MapIndexedShape(cats: seq<Category>, start: nat, f: (nat, Product) -> Product)
    ensures SameShape(MapIndexed(cats, start, f), cats)
  {
    forall i | 0 <= i < |cats|
      ensures |MapIndexed(cats, start, f)[i].subcategories| == |cats[i].subcategories|
    {
      MapIndexedAt(cats, i, start, f);
    }
  }

  /** MapIndexed read in traversal order: the k-th product of the result is
      f applied to position start + k and the k-th product of the input. */
  lemma {:induction false} MapIndexedProducts(cats: seq<Category>, start: nat, f: (nat, Product) -> Product)
    ensures Count(MapIndexed(cats, start, f)) == Count(cats)
    ensures Products(MapIndexed(cats, start, f)) == MapSeq(Products(cats), start, f)
  {
    if cats != [] {
      var n := |cats|;
      var init := cats[..n - 1];
      var last := cats[n - 1];
      var mInit := MapIndexed(init, start, f);
      var c := MapCategory(last, start + Count(init), f);
      assert MapIndexed(cats, start, f) == mInit + [c];
      assert cats == init + [last];
      MapIndexedProducts(init, start, f);
      ProductsSnoc(mInit, c);
      ProductsSnoc(init, last);
      MapSeqJoin(Products(mInit), c.subcategories, Products(init), last.subcategories, start, f);
      assert Products(MapIndexed(cats, start, f)) == Products(mInit) + c.subcategories;
    }
  }

  /** The k-th product in traversal order, after MapIndexed. */
  lemma MapIndexedProductAt(cats: seq<Category>, start: nat, f: (nat, Product) -> Product, k: nat)
    requires k < Count(cats)
    ensures k < Count(MapIndexed(cats, start, f))
    ensures Products(MapIndexed(cats, start, f))[k] == f(start + k, Products(cats)[k])
  {
    MapIndexedProducts(cats, start, f);
  }

  /** Every product replaced by f(product). */
  function MapAll(cats: seq<Category>, f: Product -> Product): seq<Category> {
    seq(|cats|, i requires 0 <= i < |cats| =>
      cats[i].(subcategories := seq(|cats[i].subcategories|, j requires 0 <= j < |cats[i].subcategories| => f(cats[i].subcategories[j]))))
  }

  lemma {:induction false} MapAllProducts(cats: seq<Category>, f: Product -> Product)
    ensures SameShape(MapAll(cats, f), cats)
    ensures Count(MapAll(cats, f)) == Count(cats)
    ensures forall k :: 0 <= k < Count(cats) ==> Products(MapAll(cats, f))[k] == f(Products(cats)[k])
  {
    var m := MapAll(cats, f);
    assert SameShape(m, cats);
    SameShapeCount(m, cats);
    if cats != [] {
      var n := |cats|;
      assert m[..n - 1] == MapAll(cats[..n - 1], f);
      MapAllProducts(cats[..n - 1], f);
      assert Products(m) == Products(m[..n - 1]) + m[n - 1].subcategories;
      assert Products(cats) == Products(cats[..n - 1]) + cats[n - 1].subcategories;
    }
  }

  /** A transform that leaves every product alone leaves the catalog alone. */
  lemma MapAllIdentity(cats: seq<Category>, f: Product -> Product)
    requires forall k :: 0 <= k < Count(cats) ==> f(Products(cats)[k]) == Products(cats)[k]
    ensures MapAll(cats, f) == cats
  {
    forall i, j | 0 <= i < |cats| && 0 <= j < |cats[i].subcategories|
      ensures f(cats[i].subcategories[j]) == cats[i].subcategories[j]
    {
      ProductAt(cats, i, j);
    }
    assert forall i :: 0 <= i < |cats| ==> MapAll(cats, f)[i].subcategories == cats[i].subcategories;
  }

  /** Mapping twice with a transform that is idempotent is mapping once. */
  lemma MapAllTwice(cats: seq<Category>, f: Product -> Product)
    requires forall p :: f(f(p)) == f(p)
    ensures MapAll(MapAll(cats, f), f) == MapAll(cats, f)
  {
    var out := MapAll(cats, f);
    forall i | 0 <= i < |out|
      ensures MapAll(out, f)[i] == out[i]
    {
      assert MapAll(out, f)[i].subcategories == out[i].subcategories;
    }
  }

  /** The j-th product of category i sits at position Count(cats[..i]) + j
      of the traversal. */
  lemma ProductAt(cats: seq<Category>, i: nat, j: nat)
    requires i < |cats| && j < |cats[i].subcategories|
    ensures Count(cats[..i]) + j < Count(cats)
    ensures Products(cats)[Count(cats[..i]) + j] == cats[i].subcategories[j]
  {
    assert cats == cats[..i + 1] + cats[i + 1..];
    ProductsAppend(cats[..i + 1], cats[i + 1..]);
    CountStep(cats, i);
  }

  /** The inner loop over one category's products: the j-th is replaced by
      f(start + j, product). */
  method ReplaceIndexedProducts(ps: seq<Product>, start: nat, f: (nat, Product) -> Product) returns (out: seq<Product>)
    ensures out == MapSeq(ps, start, f)
  {
    out := ps;
    var j := 0;
    while j < |ps|
      invariant 0 <= j <= |ps| == |out|
      invariant forall j' :: 0 <= j' < j ==> out[j'] == f(start + j', ps[j'])
      invariant forall j' :: j <= j' < |ps| ==> out[j'] == ps[j']
    {
      out := out[j := f(start + j, out[j])];
      j := j + 1;
    }
  }

  /** The loop shared by the scripts that number the products: each product
      in turn is replaced by f(counter, product) and the counter advances by
      one. */
  method ReplaceIndexed(cats: seq<Category>, start: nat, f: (nat, Product) -> Product) returns (out: seq<Category>, next: nat)
    ensures out == MapIndexed(cats, start, f)
    ensures next == start + Count(cats)
  {
    out := cats;
    next := start;
    var i := 0;
    while i < |cats|
      invariant 0 <= i <= |cats| && |out| == |cats|
      invariant next == start + Count(cats[..i])
      invariant forall i' :: 0 <= i' < i ==> out[i'] == MapIndexed(cats, start, f)[i']
      invariant forall i' :: i <= i' < |cats| ==> out[i'] == cats[i']
    {
      var ps := ReplaceIndexedProducts(out[i].subcategories, next, f);
      MapIndexedAt(cats, i, start, f);
      out := out[i := out[i].(subcategories := ps)];
      CountStep(cats, i);
      next := next + |ps|;
      i := i + 1;
    }
    assert cats[..|cats|] == cats;
  }

  // ---- replacing only some of the products, and counting them ----

  /** Number of the products that satisfy q. */
  function CountIn(ps: seq<Product>, q: Product -> bool): (n: nat)
    ensures n <= |ps|
  {
    if ps == [] then 0
    else CountIn(ps[..|ps| - 1], q) + (if q(ps[|ps| - 1]) then 1 else 0)
  }

  function CountWhere(cats: seq<Category>, q: Product -> bool): (n: nat)
    ensures n <= Count(cats)
  {
    if cats == [] then 0 else CountWhere(cats[..|cats| - 1], q) + CountIn(cats[|cats| - 1].subcategories, q)
  }

  /** The products that f changes, compared structurally: the scripts'
      `JSON.stringify(before) !== JSON.stringify(after)`. */
  function Differs(f: Product -> Product): Product -> bool {
    p => f(p) != p
  }

  lemma CountInStep(ps: seq<Product>, j: nat, q: Product -> bool)
    requires j < |ps|
    ensures CountIn(ps[..j + 1], q) == CountIn(ps[..j], q) + (if q(ps[j]) then 1 else 0)
  {
    assert ps[..j + 1][..j] == ps[..j];
  }

  lemma CountWhereStep(cats: seq<Category>, i: nat, q: Product -> bool)
    requires i < |cats|
    ensures CountWhere(cats[..i + 1], q) == CountWhere(cats[..i], q) + CountIn(cats[i].subcategories, q)
  {
    assert cats[..i + 1][..i] == cats[..i];
  }

  /** The count is 0 exactly when no product satisfies q. */
  lemma {:induction false} CountInZero(ps: seq<Product>, q: Product -> bool)
    ensures CountIn(ps, q) == 0 <==> forall j :: 0 <= j < |ps| ==> !q(ps[j])
  {
    if ps != [] {
      CountInZero(ps[..|ps| - 1], q);
    }
  }

  /** The count is the number of products exactly when every product
      satisfies q. */
  lemma {:induction false} CountInAll(ps: seq<Product>, q: Product -> bool)
    ensures CountIn(ps, q) == |ps| <==> forall j :: 0 <= j < |ps| ==> q(ps[j])
  {
    if ps != [] {
      CountInAll(ps[..|ps| - 1], q);
    }
  }

  /** Two tests that agree on every product give the same count. */
  lemma {:induction false} CountWhereSame(cats: seq<Category>, q: Product -> bool, r: Product -> bool)
    requires forall p :: q(p) == r(p)
    ensures CountWhere(cats, q) == CountWhere(cats, r)
  {
    if cats != [] {
      CountWhereSame(cats[..|cats| - 1], q, r);
      CountInSame(cats[|cats| - 1].subcategories, q, r);
    }
  }

  lemma {:induction false} CountInSame(ps: seq<Product>, q: Product -> bool, r: Product -> bool)
    requires forall p :: q(p) == r(p)
    ensures CountIn(ps, q) == CountIn(ps, r)
  {
    if ps != [] {
      CountInSame(ps[..|ps| - 1], q, r);
    }
  }

  /** When every product satisfies exactly one of q and r, the two counts
      add up to the number of products. */
  lemma {:induction false} CountInSplit(ps: seq<Product>, q: Product -> bool, r: Product -> bool)
    requires forall p :: r(p) == !q(p)
    ensures CountIn(ps, q) + CountIn(ps, r) == |ps|
  {
    if ps != [] {
      CountInSplit(ps[..|ps| - 1], q, r);
    }
  }

  lemma {:induction false} CountWhereSplit(cats: seq<Category>, q: Product -> bool, r: Product -> bool)
    requires forall p :: r(p) == !q(p)
    ensures CountWhere(cats, q) + CountWhere(cats, r) == Count(cats)
  {
    if cats != [] {
      CountWhereSplit(cats[..|cats| - 1], q, r);
      CountInSplit(cats[|cats| - 1].subcategories, q, r);
    }
  }

  /** The count is 0 exactly when no product of any category satisfies q. */
  lemma {:induction false} CountWhereZero(cats: seq<Category>, q: Product -> bool)
    ensures CountWhere(cats, q) == 0 <==>
      forall i, j :: 0 <= i < |cats| && 0 <= j < |cats[i].subcategories| ==> !q(cats[i].subcategories[j])
  {
    if cats != [] {
      var n := |cats|;
      CountWhereZero(cats[..n - 1], q);
      CountInZero(cats[n - 1].subcategories, q);
      assert forall i :: 0 <= i < n - 1 ==> cats[..n - 1][i] == cats[i];
    }
  }

  /** f changes none of the products exactly when it changes nothing. */
  lemma ChangedZero(cats: seq<Category>, f: Product -> Product)
    ensures CountWhere(cats, Differs(f)) == 0 <==> MapAll(cats, f) == cats
  {
    CountWhereZero(cats, Differs(f));
    if CountWhere(cats, Differs(f)) == 0 {
      forall i | 0 <= i < |cats|
        ensures MapAll(cats, f)[i] == cats[i]
      {
        forall j | 0 <= j < |cats[i].subcategories|
          ensures MapAll(cats, f)[i].subcategories[j] == cats[i].subcategories[j]
        {
          assert !Differs(f)(cats[i].subcategories[j]);
        }
      }
    }
    if MapAll(cats, f) == cats {
      forall i, j | 0 <= i < |cats| && 0 <= j < |cats[i].subcategories|
        ensures !Differs(f)(cats[i].subcategories[j])
      {
        assert MapAll(cats, f)[i].subcategories[j] == f(cats[i].subcategories[j]);
      }
    }
  }

  /** The inner loop over one category's products: a slot is written, and
      counted, only when q holds of its product; where q fails f leaves the
      product as it is. */
  method ReplaceWhereProducts(ps: seq<Product>, f: Product -> Product, q: Product -> bool)
    returns (out: seq<Product>, count: nat)
    requires forall p :: !q(p) ==> f(p) == p
    ensures |out| == |ps| && forall j :: 0 <= j < |ps| ==> out[j] == f(ps[j])
    ensures count == CountIn(ps, q)
  {
    out := ps;
    count := 0;
    var j := 0;
    while j < |ps|
      invariant 0 <= j <= |ps| == |out|
      invariant count == CountIn(ps[..j], q)
      invariant forall j' :: 0 <= j' < j ==> out[j'] == f(ps[j'])
      invariant forall j' :: j <= j' < |ps| ==> out[j'] == ps[j']
    {
      CountInStep(ps, j, q);
      if q(out[j]) {
        out := out[j := f(out[j])];
        count := count + 1;
      }
      j := j + 1;
    }
    assert ps[..j] == ps;
  }

  /** The loop shared by the scripts that replace a product only when a
      test on it holds, and count the replacements. Every slot ends up equal
      to f of the old product whether or not it was written. */
  method ReplaceWhere(cats: seq<Category>, f: Product -> Product, q: Product -> bool)
    returns (out: seq<Category>, count: nat)
    requires forall p :: !q(p) ==> f(p) == p
    ensures out == MapAll(cats, f)
    ensures count == CountWhere(cats, q)
  {
    out := cats;
    count := 0;
    var i := 0;
    while i < |cats|
      invariant 0 <= i <= |cats| && |out| == |cats|
      invariant count == CountWhere(cats[..i], q)
      invariant forall i' :: 0 <= i' < i ==> out[i'] == MapAll(cats, f)[i']
      invariant forall i' :: i <= i' < |cats| ==> out[i'] == cats[i']
    {
      var ps, n := ReplaceWhereProducts(out[i].subcategories, f, q);
      out := out[i := out[i].(subcategories := ps)];
      CountWhereStep(cats, i, q);
      count := count + n;
      i := i + 1;
    }
    assert cats[..|cats|] == cats;
  }

  /** Loop state of an in-place update of a category's products: the first
      j are f of the originals, the rest are untouched. */
  predicate MappedProducts(qs: seq<Product>, ps: seq<Product>, f: Product -> Product, j: nat) {
    |qs| == |ps| && j <= |ps|
    && (forall j' :: 0 <= j' < j ==> qs[j'] == f(ps[j']))
    && (forall j' :: j <= j' < |ps| ==> qs[j'] == ps[j'])
  }

  /** Writing f of the next product advances the loop state. */
  lemma MappedProductsNext(qs: seq<Product>, ps: seq<Product>, f: Product -> Product, j: nat, q: Product)
    requires MappedProducts(qs, ps, f, j) && j < |ps| && q == f(qs[j])
    ensures MappedProducts(qs[j := q], ps, f, j + 1)
  {
  }

  /** Loop state of an in-place update of a file's categories: the first i
      are mapped by f, the rest are untouched. */
  predicate MappedCategories(out: seq<Category>, cats: seq<Category>, f: Product -> Product, i: nat) {
    |out| == |cats| && i <= |cats|
    && (forall i' :: 0 <= i' < i ==> out[i'] == MapAll(cats, f)[i'])
    && (forall i' :: i <= i' < |cats| ==> out[i'] == cats[i'])
  }

  /** Writing the next category's products, each f of the original,
      advances the loop state; at the end the file is MapAll. */
  lemma MappedCategoriesNext(out: seq<Category>, cats: seq<Category>, f: Product -> Product, i: nat, qs: seq<Product>)
    requires MappedCategories(out, cats, f, i) && i < |cats|
    requires MappedProducts(qs, cats[i].subcategories, f, |qs|)
    ensures MappedCategories(out[i := out[i].(subcategories := qs)], cats, f, i + 1)
  {
  }

  lemma MappedCategoriesDone(out: seq<Category>, cats: seq<Category>, f: Product -> Product)
    requires MappedCategories(out, cats, f, |cats|)
    ensures out == MapAll(cats, f)
  {
  }

  // ---- several files in order, with a counter shared across them ----

  /** Number of products in all the files. */
  function FileCount(files: seq<seq<Category>>): nat {
    if files == [] then 0 else FileCount(files[..|files| - 1]) + Count(files[|files| - 1])
  }

  /** All products of all the files, file by file. */
  function FileProducts(files: seq<seq<Category>>): (ps: seq<Product>)
    ensures |ps| == FileCount(files)
  {
    if files == [] then [] else FileProducts(files[..|files| - 1]) + Products(files[|files| - 1])
  }

  lemma FileStep(files: seq<seq<Category>>, f: nat)
    requires f < |files|
    ensures FileCount(files[..f + 1]) == FileCount(files[..f]) + Count(files[f])
    ensures FileProducts(files[..f + 1]) == FileProducts(files[..f]) + Products(files[f])
  {
    assert files[..f + 1][..f] == files[..f];
  }

  /** Each file mapped with the counter that runs on from the products of
      the files before it. */
  function MapFiles(files: seq<seq<Category>>, g: (nat, Product) -> Product): (outs: seq<seq<Category>>)
    ensures |outs| == |files|
  {
    seq(|files|, f requires 0 <= f < |files| => MapIndexed(files[f], FileCount(files[..f]), g))
  }

  /** File f of the result is file f mapped from the number of products in
      the files before it: the counter runs on across files. */
  lemma {:induction false} MapFilesAt(files: seq<seq<Category>>, f: nat, g: (nat, Product) -> Product)
    requires f < |files|
    ensures MapFiles(files, g)[f] == MapIndexed(files[f], FileCount(files[..f]), g)
    ensures FileCount(files[..f]) + Count(files[f]) <= FileCount(files)
  {
    var n := |files|;
    var init := files[..n - 1];
    if f < n - 1 {
      MapFilesAt(init, f, g);
      assert init[..f] == files[..f];
    }
  }

  /** The k-th product of file fi, after MapFiles, was given position
      (products of the files before fi) + k. */
  lemma MapFilesProductAt(files: seq<seq<Category>>, fi: nat, k: nat, g: (nat, Product) -> Product)
    requires fi < |files| && k < Count(files[fi])
    ensures k < Count(MapFiles(files, g)[fi])
    ensures Products(MapFiles(files, g)[fi])[k] == g(FileCount(files[..fi]) + k, Products(files[fi])[k])
  {
    MapFilesAt(files, fi, g);
    MappedProductAt(MapFiles(files, g)[fi], files[fi], FileCount(files[..fi]), g, k);
  }

  /** MapIndexedProductAt for a result given by name. */
  lemma MappedProductAt(m: seq<Category>, cats: seq<Category>, start: nat, g: (nat, Product) -> Product, k: nat)
    requires m == MapIndexed(cats, start, g) && k < Count(cats)
    ensures k < Count(m) && Products(m)[k] == g(start + k, Products(cats)[k])
  {
    MapIndexedProductAt(cats, start, g, k);
  }

  // ---- files that may fail to read ----

  /** The contents of the files read before the first that fails (None). */
  function ReadPrefix(files: seq<Option<seq<Category>>>): (r: seq<seq<Category>>)
    ensures |r| <= |files|
    ensures forall f :: 0 <= f < |r| ==> files[f] == Some(r[f])
    ensures |r| < |files| ==> files[|r|].None?
  {
    if files == [] || files[0].None? then []
    else [files[0].value] + ReadPrefix(files[1..])
  }

  lemma ReadPrefixAt(files: seq<Option<seq<Category>>>, read: seq<seq<Category>>)
    requires |read| <= |files|
    requires forall f :: 0 <= f < |read| ==> files[f] == Some(read[f])
    requires |read| < |files| ==> files[|read|].None?
    ensures ReadPrefix(files) == read
  {
  }

  lemma MapFilesSnoc(files: seq<seq<Category>>, x: seq<Category>, g: (nat, Product) -> Product)
    ensures FileCount(files + [x]) == FileCount(files) + Count(x)
    ensures MapFiles(files + [x], g) == MapFiles(files, g) + [MapIndexed(x, FileCount(files), g)]
  {
    var a := files + [x];
    assert a[..|files|] == files;
    assert forall f' :: 0 <= f' <= |files| ==> a[..f'] == files[..f'];
  }

  /** The loop over the catalog files of the scripts whose counter runs on
      across files. Reading stops at the first file that cannot be read,
      since nothing catches the error; `outs` holds what was written. */
  method ReplaceAcrossFiles(files: seq<Option<seq<Category>>>, g: (nat, Product) -> Product)
    returns (outs: seq<seq<Category>>, counts: seq<nat>, total: nat)
    ensures outs == MapFiles(ReadPrefix(files), g)
    ensures |counts| == |outs| && forall f :: 0 <= f < |counts| ==> counts[f] == Count(ReadPrefix(files)[f])
    ensures total == FileCount(ReadPrefix(files))
  {
    outs := [];
    counts := [];
    total := 0;
    ghost var read: seq<seq<Category>> := [];
    var f := 0;
    while f < |files| && files[f].Some?
      invariant 0 <= f <= |files| && |read| == f && |counts| == f
      invariant forall f' :: 0 <= f' < f ==> files[f'] == Some(read[f'])
      invariant forall f' :: 0 <= f' < f ==> counts[f'] == Count(read[f'])
      invariant outs == MapFiles(read, g)
      invariant total == FileCount(read)
    {
      var cats := files[f].value;
      var out, next := ReplaceIndexed(cats, total, g);
      MapFilesSnoc(read, cats, g);
      outs := outs + [out];
      counts := counts + [next - total];
      total := next;
      read := read + [cats];
      f := f + 1;
    }
    ReadPrefixAt(files, read);
  }
}
