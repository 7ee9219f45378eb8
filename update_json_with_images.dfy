/** Giving every product a main image and a three-image gallery from the ten
    downloaded medical images, the counter running on across all files. */
module UpdateJsonWithImages {
  import opened Wrappers
  import opened Equipment
  import opened Sequences
  import opened Traversal
  import opened ImageRotation

  const MedicalImages: seq<string> := [
    "/images/medical-1.jpg",
    "/images/medical-2.jpg",
    "/images/medical-3.jpg",
    "/images/medical-4.jpg",
    "/images/medical-5.jpg",
    "/images/medical-6.jpg",
    "/images/medical-7.jpg",
    "/images/medical-8.jpg",
    "/images/medical-9.jpg",
    "/images/medical-10.jpg"
  ]

  /** The ten paths are distinct, so no gallery repeats an image. */
  lemma MedicalImagesDistinct(k: nat)
    ensures NoDuplicates(MedicalImages)
    ensures NoDuplicates(ThreeImages(MedicalImages, k))
  {
    forall i, j | 0 <= i < j < |MedicalImages|
      ensures MedicalImages[i] != MedicalImages[j]
    {
      if j < 9 {
        assert MedicalImages[i][16] != MedicalImages[j][16];
      } else {
        assert |MedicalImages[i]| != |MedicalImages[j]|;
      }
    }
    ThreeImagesDistinct(MedicalImages, k);
  }

  /** `updateJSONFiles`: `outs` holds what was written, up to the first file
      that cannot be read; `fileCounts` and `totalUpdated` are the counts it
      reports, and `imageIndex` ends equal to `totalUpdated`. */
  method UpdateJsonFiles(files: seq<Option<seq<Category>>>)
    returns (outs: seq<seq<Category>>, fileCounts: seq<nat>, imageIndex: nat, totalUpdated: nat)
    ensures outs == MapFiles(ReadPrefix(files), Rotation(MedicalImages))
    ensures |fileCounts| == |outs| && forall f :: 0 <= f < |fileCounts| ==> fileCounts[f] == Count(ReadPrefix(files)[f])
    ensures totalUpdated == FileCount(ReadPrefix(files)) && imageIndex == totalUpdated
  {
    outs, fileCounts, totalUpdated := ReplaceAcrossFiles(files, Rotation(MedicalImages));
    imageIndex := totalUpdated;
  }
}
