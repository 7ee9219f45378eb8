/** Cycling eight downloaded product photos through the products of all
    four catalog files, the counter running on across files. */
module UsePnwxImages {
  import opened Wrappers
  import opened Equipment
  import opened Traversal
  import opened ImageRotation

  const PnwxImages: seq<string> := [
    "/images/pnwx-product-1.jpg",
    "/images/pnwx-product-2.jpg",
    "/images/pnwx-product-3.jpg",
    "/images/pnwx-product-4.jpg",
    "/images/pnwx-product-5.jpg",
    "/images/pnwx-product-6.jpg",
    "/images/pnwx-product-7.jpg",
    "/images/pnwx-product-8.jpg"
  ]

  /** `Math.ceil(totalUpdated / 8)`, the number of rounds through the
      photos that the summary reports. */
  function CyclesReported(total: nat): (c: nat) {
    (total + 7) / 8
  }

  /** The reported number of rounds is the least that covers every product. */
  lemma CyclesReportedCovers(total: nat)
    ensures CyclesReported(total) * 8 >= total
    ensures CyclesReported(total) > 0 ==> (CyclesReported(total) - 1) * 8 < total
  {
  }

  /** `updateProductsWithPNWXImages`: `outs` holds what was written, up to
      the first file that cannot be read; `fileUpdated` and `totalUpdated`
      are the counts it reports. */
  method UpdateProductsWithPnwxImages(files: seq<Option<seq<Category>>>)
    returns (outs: seq<seq<Category>>, fileUpdated: seq<nat>, totalUpdated: nat, cycles: nat)
    ensures outs == MapFiles(ReadPrefix(files), Single(PnwxImages))
    ensures |fileUpdated| == |outs| && forall f :: 0 <= f < |fileUpdated| ==> fileUpdated[f] == Count(ReadPrefix(files)[f])
    ensures totalUpdated == FileCount(ReadPrefix(files))
    ensures cycles * 8 >= totalUpdated && (cycles > 0 ==> (cycles - 1) * 8 < totalUpdated)
  {
    outs, fileUpdated, totalUpdated := ReplaceAcrossFiles(files, Single(PnwxImages));
    cycles := CyclesReported(totalUpdated);
    CyclesReportedCovers(totalUpdated);
  }
}
