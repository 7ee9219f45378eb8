/** Downloading ten medical images and cycling the ones that arrived
    through all products, three to a gallery. The outcome of each download
    is an input: `ok[i]` says whether image i arrived. */
module DownloadMedicalImages {
  import opened Wrappers
  import opened Equipment
  import opened Sequences
  import opened Traversal
  import opened ImageRotation

  /** The `filename` of each entry of `MEDICAL_IMAGES`, in order. */
  const MedicalImageFiles: seq<string> := [
    "medical-1.jpg", "medical-2.jpg", "medical-3.jpg", "medical-4.jpg", "medical-5.jpg",
    "medical-6.jpg", "medical-7.jpg", "medical-8.jpg", "medical-9.jpg", "medical-10.jpg"
  ]

  /** `/images/${image.filename}` */
  function LocalPath(filename: string): string {
    "/images/" + filename
  }

  lemma LocalPathInjective(a: string, b: string)
    ensures LocalPath(a) == LocalPath(b) ==> a == b
  {
    if LocalPath(a) == LocalPath(b) {
      assert a == LocalPath(a)[8..] && b == LocalPath(b)[8..];
    }
  }

  /** The local paths of the downloads that succeeded, in download order. */
  function Downloaded(filenames: seq<string>, ok: seq<bool>): (pool: seq<string>)
    requires |ok| == |filenames|
    ensures |pool| <= |filenames|
  {
    if filenames == [] then []
    else
      var n := |filenames| - 1;
      Downloaded(filenames[..n], ok[..n]) + (if ok[n] then [LocalPath(filenames[n])] else [])
  }

  /** An image is in the pool iff its download succeeded. */
  lemma {:induction false} DownloadedMember(filenames: seq<string>, ok: seq<bool>, x: string)
    requires |ok| == |filenames|
    ensures x in Downloaded(filenames, ok) <==> exists i :: 0 <= i < |filenames| && ok[i] && x == LocalPath(filenames[i])
  {
    if filenames != [] {
      var n := |filenames| - 1;
      DownloadedMember(filenames[..n], ok[..n], x);
      if x in Downloaded(filenames, ok) && x !in Downloaded(filenames[..n], ok[..n]) {
        assert ok[n] && x == LocalPath(filenames[n]);
      }
      if exists i :: 0 <= i < |filenames| && ok[i] && x == LocalPath(filenames[i]) {
        var i :| 0 <= i < |filenames| && ok[i] && x == LocalPath(filenames[i]);
        if i < n {
          assert filenames[..n][i] == filenames[i] && ok[..n][i] == ok[i];
        }
      }
    }
  }

  /** When every download succeeds the pool is the local path of every
      file, in order. */
  lemma {:induction false} AllDownloadedPaths(filenames: seq<string>, ok: seq<bool>)
    requires |ok| == |filenames| && forall i :: 0 <= i < |ok| ==> ok[i]
    ensures |Downloaded(filenames, ok)| == |filenames|
    ensures forall i :: 0 <= i < |filenames| ==> Downloaded(filenames, ok)[i] == LocalPath(filenames[i])
  {
    if filenames != [] {
      var n := |filenames| - 1;
      AllDownloadedPaths(filenames[..n], ok[..n]);
    }
  }

  /** The ten file names are distinct. */
  lemma FileNamesDistinct()
    ensures NoDuplicates(MedicalImageFiles)
  {
    forall i, j | 0 <= i < j < |MedicalImageFiles|
      ensures MedicalImageFiles[i] != MedicalImageFiles[j]
    {
      if j < 9 {
        assert MedicalImageFiles[i][8] != MedicalImageFiles[j][8];
      } else {
        assert |MedicalImageFiles[i]| != |MedicalImageFiles[j]|;
      }
    }
  }

  /** Whatever arrives, the pool has no repeats, so once three or more
      images arrived no gallery repeats an image. */
  lemma PoolDistinct(ok: seq<bool>, k: nat)
    requires |ok| == |MedicalImageFiles|
    ensures NoDuplicates(Downloaded(MedicalImageFiles, ok))
    ensures |Downloaded(MedicalImageFiles, ok)| >= 3 ==>
      NoDuplicates(ThreeImages(Downloaded(MedicalImageFiles, ok), k))
  {
    FileNamesDistinct();
    DownloadedDistinct(MedicalImageFiles, ok);
    if |Downloaded(MedicalImageFiles, ok)| >= 3 {
      ThreeImagesDistinct(Downloaded(MedicalImageFiles, ok), k);
    }
  }

  /** Distinct file names give a pool without repeats. */
  lemma {:induction false} DownloadedDistinct(filenames: seq<string>, ok: seq<bool>)
    requires |ok| == |filenames| && NoDuplicates(filenames)
    ensures NoDuplicates(Downloaded(filenames, ok))
  {
    if filenames != [] {
      var n := |filenames| - 1;
      assert NoDuplicates(filenames[..n]);
      DownloadedDistinct(filenames[..n], ok[..n]);
      if ok[n] && LocalPath(filenames[n]) in Downloaded(filenames[..n], ok[..n]) {
        DownloadedMember(filenames[..n], ok[..n], LocalPath(filenames[n]));
        var i :| 0 <= i < n && ok[..n][i] && LocalPath(filenames[n]) == LocalPath(filenames[..n][i]);
        LocalPathInjective(filenames[n], filenames[..n][i]);
        assert false;
      }
    }
  }

  /** `downloadAllImages` */
  method DownloadAllImages(ok: seq<bool>) returns (downloadedImages: seq<string>)
    requires |ok| == |MedicalImageFiles|
    ensures downloadedImages == Downloaded(MedicalImageFiles, ok)
  {
    downloadedImages := [];
    for i := 0 to |MedicalImageFiles|
      invariant downloadedImages == Downloaded(MedicalImageFiles[..i], ok[..i])
    {
      if ok[i] {
        downloadedImages := downloadedImages + [LocalPath(MedicalImageFiles[i])];
      }
      assert MedicalImageFiles[..i + 1][..i] == MedicalImageFiles[..i];
      assert ok[..i + 1][..i] == ok[..i];
    }
    assert MedicalImageFiles[..|MedicalImageFiles|] == MedicalImageFiles;
    assert ok[..|ok|] == ok;
  }

  /** How `updateProducts` ends: normally with the total, by the error it
      throws for an empty pool, or by the error of the first file that
      cannot be read. */
  datatype Outcome = Completed(totalUpdated: nat) | NoImagesDownloaded | ReadError(file: nat)

  /** `updateProducts`: `outs` holds what was written. */
  method UpdateProducts(imagePool: seq<string>, files: seq<Option<seq<Category>>>)
    returns (outs: seq<seq<Category>>, outcome: Outcome)
    ensures |imagePool| == 0 ==> outs == [] && outcome == NoImagesDownloaded
    ensures |imagePool| > 0 ==> outs == MapFiles(ReadPrefix(files), Rotation(imagePool))
    ensures |imagePool| > 0 && |ReadPrefix(files)| == |files| ==> outcome == Completed(FileCount(ReadPrefix(files)))
    ensures |imagePool| > 0 && |ReadPrefix(files)| < |files| ==> outcome == ReadError(|ReadPrefix(files)|)
  {
    if |imagePool| == 0 {
      return [], NoImagesDownloaded;
    }
    var counts, totalUpdated;
    outs, counts, totalUpdated := ReplaceAcrossFiles(files, Rotation(imagePool));
    if |outs| == |files| {
      outcome := Completed(totalUpdated);
    } else {
      outcome := ReadError(|outs|);
    }
  }

  /** `main`: with no image downloaded it stops before `updateProducts`, so
      the error that function throws for an empty pool is never raised. */
  method DownloadAndUpdate(ok: seq<bool>, files: seq<Option<seq<Category>>>)
    returns (images: seq<string>, outs: seq<seq<Category>>, outcome: Option<Outcome>)
    requires |ok| == |MedicalImageFiles|
    ensures images == Downloaded(MedicalImageFiles, ok)
    ensures |images| == 0 ==> outs == [] && outcome == None
    ensures |images| > 0 ==> outs == MapFiles(ReadPrefix(files), Rotation(images))
    ensures outcome != Some(NoImagesDownloaded)
  {
    images := DownloadAllImages(ok);
    if |images| == 0 {
      return images, [], None;
    }
    var o;
    outs, o := UpdateProducts(images, files);
    outcome := Some(o);
  }
}
