/** Image assignment by rotation through a pool of local images: the product
    numbered k gets the image at k modulo the pool size, and, in the scripts
    that build a gallery, the two images after it. */
module ImageRotation {
  import opened Wrappers
  import opened Equipment
  import opened Sequences
  import opened Traversal

  /** `k % n` for a pool of n images, written as repeated subtraction so
      that the solver needs no nonlinear arithmetic; `WrapIsMod` shows it
      is the remainder. */
  function Wrap(k: nat, n: nat): (r: nat)
    requires n > 0
    ensures r < n
  {
    if k < n then k else Wrap(k - n, n)
  }

  lemma {:induction false} WrapIsMod(k: nat, n: nat)
    requires n > 0
    ensures Wrap(k, n) == k % n
  {
    if k < n {
      ModUnique(k, 0, k, n);
    } else {
      WrapIsMod(k - n, n);
      ModUnique(k, (k - n) / n + 1, (k - n) % n, n);
    }
  }

  /** The position after k in a pool of n images: one on, or back to 0. */
  lemma {:induction false} WrapNext(k: nat, n: nat)
    requires n > 0
    ensures Wrap(k + 1, n) == if Wrap(k, n) + 1 == n then 0 else Wrap(k, n) + 1
  {
    if k + 1 >= n && k >= n {
      WrapNext(k - n, n);
      assert k + 1 - n == k - n + 1;
    }
  }

  lemma ModUnique(x: nat, q: int, r: int, n: nat)
    requires n > 0 && 0 <= r < n && x == q * n + r
    ensures x % n == r
  {
    var q', r' := x / n, x % n;
    assert x == q' * n + r';
    assert (q - q') * n == q * n - q' * n;
    assert (q - q') * n == r' - r;
    if q - q' >= 1 {
      MulAtLeast(q - q', n);
    } else if q' - q >= 1 {
      MulAtLeast(q' - q, n);
    }
  }

  lemma MulAtLeast(a: int, n: nat)
    requires a >= 1
    ensures a * n >= n
  {
    assert a * n == (a - 1) * n + n;
    if a > 1 {
      MulAtLeast(a - 1, n);
    }
  }

  /** `IMAGES[k % IMAGES.length]` */
  function ImageFor(pool: seq<string>, k: nat): (img: string)
    requires |pool| > 0
    ensures img in pool
  {
    pool[Wrap(k, |pool|)]
  }

  /** The choice is the image at k modulo the pool size, and it repeats
      after a full round of the pool. */
  lemma ImageForPeriodic(pool: seq<string>, k: nat)
    requires |pool| > 0
    ensures ImageFor(pool, k) == pool[k % |pool|]
    ensures ImageFor(pool, k + |pool|) == ImageFor(pool, k)
  {
    WrapIsMod(k, |pool|);
  }

  /** Consecutive products get consecutive images, wrapping round. */
  lemma ImageForNext(pool: seq<string>, k: nat)
    requires |pool| > 0
    ensures ImageFor(pool, k + 1) == pool[if Wrap(k, |pool|) + 1 == |pool| then 0 else Wrap(k, |pool|) + 1]
  {
    WrapNext(k, |pool|);
  }

  /** The main image and the two that follow it in the pool, wrapping round. */
  function ThreeImages(pool: seq<string>, k: nat): (imgs: seq<string>)
    requires |pool| > 0
    ensures |imgs| == 3 && imgs[0] == ImageFor(pool, k)
    ensures forall i :: 0 <= i < 3 ==> imgs[i] in pool
  {
    [ImageFor(pool, k), ImageFor(pool, k + 1), ImageFor(pool, k + 2)]
  }

  /** With at least three distinct images in the pool the gallery never
      repeats an image. */
  lemma ThreeImagesDistinct(pool: seq<string>, k: nat)
    requires |pool| >= 3 && NoDuplicates(pool)
    ensures NoDuplicates(ThreeImages(pool, k))
  {
    var n := |pool|;
    WrapNext(k, n);
    WrapNext(k + 1, n);
  }

  /** One image per product: `image` and a one-image gallery. An empty pool
      leaves the product alone. */
  function Single(pool: seq<string>): (nat, Product) -> Product {
    (k: nat, p: Product) =>
      if |pool| == 0 then p else WithImages(p, Some(ImageFor(pool, k)), [ImageFor(pool, k)])
  }

  /** A main image and a three-image gallery per product. */
  function Rotation(pool: seq<string>): (nat, Product) -> Product {
    (k: nat, p: Product) =>
      if |pool| == 0 then p else WithImages(p, Some(ImageFor(pool, k)), ThreeImages(pool, k))
  }

  /** The single-image update of the product numbered n. */
  lemma SingleAssigns(pool: seq<string>, n: nat, p: Product)
    requires |pool| > 0
    ensures Single(pool)(n, p).image == Some(ImageFor(pool, n))
    ensures Single(pool)(n, p).images == Some([ImageFor(pool, n)])
    ensures SameExceptImages(p, Single(pool)(n, p))
  {
  }

  /** The gallery update of the product numbered n; with three or more
      distinct images in the pool the gallery has no repeats. */
  lemma RotationAssigns(pool: seq<string>, n: nat, p: Product)
    requires |pool| > 0
    ensures Rotation(pool)(n, p).image == Some(ImageFor(pool, n))
    ensures Rotation(pool)(n, p).images == Some(ThreeImages(pool, n))
    ensures SameExceptImages(p, Rotation(pool)(n, p))
    ensures |pool| >= 3 && NoDuplicates(pool) ==> NoDuplicates(Rotation(pool)(n, p).images.value)
  {
    if |pool| >= 3 && NoDuplicates(pool) {
      ThreeImagesDistinct(pool, n);
    }
  }

  /** Within one file whose numbering starts at `start`, the k-th product
      gets the single image numbered start + k and keeps everything else;
      the categories and their product counts are unchanged. */
  lemma SingleInFile(pool: seq<string>, cats: seq<Category>, start: nat, k: nat)
    requires |pool| > 0 && k < Count(cats)
    ensures SameShape(MapIndexed(cats, start, Single(pool)), cats)
    ensures k < Count(MapIndexed(cats, start, Single(pool)))
    ensures Products(MapIndexed(cats, start, Single(pool)))[k].image == Some(ImageFor(pool, start + k))
    ensures Products(MapIndexed(cats, start, Single(pool)))[k].images == Some([ImageFor(pool, start + k)])
    ensures SameExceptImages(Products(cats)[k], Products(MapIndexed(cats, start, Single(pool)))[k])
  {
    SingleInFileBy(pool, cats, start, k, Single(pool));
  }

  /** SingleInFile for any update that acts as Single does. */
  lemma SingleInFileBy(pool: seq<string>, cats: seq<Category>, start: nat, k: nat, g: (nat, Product) -> Product)
    requires |pool| > 0 && k < Count(cats)
    requires forall n: nat, p: Product :: g(n, p) == WithImages(p, Some(ImageFor(pool, n)), [ImageFor(pool, n)])
    ensures SameShape(MapIndexed(cats, start, g), cats)
    ensures k < Count(MapIndexed(cats, start, g))
    ensures Products(MapIndexed(cats, start, g))[k].image == Some(ImageFor(pool, start + k))
    ensures Products(MapIndexed(cats, start, g))[k].images == Some([ImageFor(pool, start + k)])
    ensures SameExceptImages(Products(cats)[k], Products(MapIndexed(cats, start, g))[k])
  {
    MapIndexedShape(cats, start, g);
    MapIndexedProductAt(cats, start, g, k);
  }

  /** Numbered across files: the k-th product of file fi gets the image
      numbered by all products of the earlier files plus k. */
  lemma SingleAcrossFiles(pool: seq<string>, files: seq<seq<Category>>, fi: nat, k: nat)
    requires |pool| > 0 && fi < |files| && k < Count(files[fi])
    ensures k < Count(MapFiles(files, Single(pool))[fi])
    ensures Products(MapFiles(files, Single(pool))[fi])[k].image == Some(ImageFor(pool, FileCount(files[..fi]) + k))
    ensures Products(MapFiles(files, Single(pool))[fi])[k].images == Some([ImageFor(pool, FileCount(files[..fi]) + k)])
    ensures SameExceptImages(Products(files[fi])[k], Products(MapFiles(files, Single(pool))[fi])[k])
  {
    SingleAcrossFilesBy(pool, files, fi, k, Single(pool));
  }

  /** SingleAcrossFiles for any update that acts as Single does. */
  lemma SingleAcrossFilesBy(pool: seq<string>, files: seq<seq<Category>>, fi: nat, k: nat, g: (nat, Product) -> Product)
    requires |pool| > 0 && fi < |files| && k < Count(files[fi])
    requires forall n: nat, p: Product :: g(n, p) == WithImages(p, Some(ImageFor(pool, n)), [ImageFor(pool, n)])
    ensures k < Count(MapFiles(files, g)[fi])
    ensures Products(MapFiles(files, g)[fi])[k].image == Some(ImageFor(pool, FileCount(files[..fi]) + k))
    ensures Products(MapFiles(files, g)[fi])[k].images == Some([ImageFor(pool, FileCount(files[..fi]) + k)])
    ensures SameExceptImages(Products(files[fi])[k], Products(MapFiles(files, g)[fi])[k])
  {
    MapFilesProductAt(files, fi, k, g);
  }

  /** The gallery version: the k-th product of file fi gets image K and the
      gallery of images K, K + 1 and K + 2 round the pool, where K counts the
      products before it in all files (ThreeImagesDistinct then says the
      gallery has no repeats). */
  lemma RotationAcrossFiles(pool: seq<string>, files: seq<seq<Category>>, fi: nat, k: nat)
    requires |pool| > 0 && fi < |files| && k < Count(files[fi])
    ensures k < Count(MapFiles(files, Rotation(pool))[fi])
    ensures Products(MapFiles(files, Rotation(pool))[fi])[k].image == Some(ImageFor(pool, FileCount(files[..fi]) + k))
    ensures Products(MapFiles(files, Rotation(pool))[fi])[k].images == Some(ThreeImages(pool, FileCount(files[..fi]) + k))
    ensures SameExceptImages(Products(files[fi])[k], Products(MapFiles(files, Rotation(pool))[fi])[k])
  {
    RotationAcrossFilesBy(pool, files, fi, k, Rotation(pool));
  }

  /** RotationAcrossFiles for any update that acts as Rotation does. */
  lemma RotationAcrossFilesBy(pool: seq<string>, files: seq<seq<Category>>, fi: nat, k: nat, g: (nat, Product) -> Product)
    requires |pool| > 0 && fi < |files| && k < Count(files[fi])
    requires forall n: nat, p: Product :: g(n, p) == WithImages(p, Some(ImageFor(pool, n)), ThreeImages(pool, n))
    ensures k < Count(MapFiles(files, g)[fi])
    ensures Products(MapFiles(files, g)[fi])[k].image == Some(ImageFor(pool, FileCount(files[..fi]) + k))
    ensures Products(MapFiles(files, g)[fi])[k].images == Some(ThreeImages(pool, FileCount(files[..fi]) + k))
    ensures SameExceptImages(Products(files[fi])[k], Products(MapFiles(files, g)[fi])[k])
  {
    MapFilesProductAt(files, fi, k, g);
  }
}
