/** Cycling seven local images through the products of each catalog file,
    the product counter starting again at 0 in every file. */
module CycleMedicalImages {
  import opened Wrappers
  import opened Equipment
  import opened Traversal
  import opened ImageRotation

  const MedicalImages: seq<string> := [
    "/images/xray-machine.jpg",
    "/images/radiology-equipment.jpg",
    "/images/portable-equipment.jpg",
    "/images/mobile-xray.jpg",
    "/images/lab-equipment.jpg",
    "/images/medical-cart.jpg",
    "/images/exam-equipment.jpg"
  ]

  /** `getImageForProduct`: image number productIndex mod 7. */
  function ImageForProduct(productIndex: nat): (img: string)
    ensures img in MedicalImages
  {
    ImageFor(MedicalImages, productIndex)
  }

  lemma ImageForProductMod(productIndex: nat)
    ensures ImageForProduct(productIndex) == MedicalImages[productIndex % 7]
    ensures ImageForProduct(productIndex + 7) == ImageForProduct(productIndex)
  {
    ImageForPeriodic(MedicalImages, productIndex);
  }

  /** `updateProductImage`: the product with image and one-image gallery
      set, all else kept. */
  function UpdateProductImage(product: Product, productIndex: nat): (r: Product)
    ensures SameExceptImages(product, r)
    ensures r.image == Some(ImageForProduct(productIndex))
    ensures r.images == Some([ImageForProduct(productIndex)])
  {
    Single(MedicalImages)(productIndex, product)
  }

  /** `processFile`: every product, numbered from 0 in this file, is
      replaced by its update and counted; the file is always written. */
  method ProcessFile(cats: seq<Category>) returns (out: seq<Category>, updatedCount: nat, written: bool)
    ensures out == MapIndexed(cats, 0, Single(MedicalImages))
    ensures updatedCount == Count(cats)
    ensures written
  {
    var productIndex;
    out, productIndex := ReplaceIndexed(cats, 0, Single(MedicalImages));
    updatedCount := productIndex;
    written := true;
  }

  /** What `processFile` writes: the k-th product of the file, in category
      then product order, is `updateProductImage` of the k-th product read. */
  lemma ProcessFileProducts(cats: seq<Category>, k: nat)
    requires k < Count(cats)
    ensures k < Count(MapIndexed(cats, 0, Single(MedicalImages)))
    ensures Products(MapIndexed(cats, 0, Single(MedicalImages)))[k] == UpdateProductImage(Products(cats)[k], k)
  {
    MapIndexedProductAt(cats, 0, Single(MedicalImages), k);
  }

  /** `main`: the files in order, each with its own counter. A file that
      cannot be read ends the run, since nothing catches the error; `outs`
      holds what was written. */
  method UpdateAll(files: seq<Option<seq<Category>>>) returns (outs: seq<seq<Category>>)
    ensures |outs| == |ReadPrefix(files)|
    ensures forall f :: 0 <= f < |outs| ==> outs[f] == MapIndexed(ReadPrefix(files)[f], 0, Single(MedicalImages))
  {
    outs := [];
    ghost var read: seq<seq<Category>> := [];
    var f := 0;
    while f < |files| && files[f].Some?
      invariant 0 <= f <= |files| && |read| == f && |outs| == f
      invariant forall f' :: 0 <= f' < f ==> files[f'] == Some(read[f'])
      invariant forall f' :: 0 <= f' < f ==> outs[f'] == MapIndexed(read[f'], 0, Single(MedicalImages))
    {
      var out, _, _ := ProcessFile(files[f].value);
      outs := outs + [out];
      read := read + [files[f].value];
      f := f + 1;
    }
    ReadPrefixAt(files, read);
  }
}
