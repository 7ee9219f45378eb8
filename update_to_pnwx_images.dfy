/** Image URLs guessed from a product's page URL: a fixed list of candidate
    file names under the page's directory, de-duplicated, of which the first
    becomes the main image and the first five the gallery. */
module UpdateToPnwxImages {
  import opened Wrappers
  import opened Strings
  import opened Equipment
  import opened Sequences
  import opened Traversal

  /** `url.replace(/\/$/, '')`: one trailing slash removed. */
  function StripTrailingSlash(url: string): (base: string)
    ensures EndsWith(url, "/") ==> base + "/" == url
    ensures !EndsWith(url, "/") ==> base == url
  {
    if |url| > 0 && url[|url| - 1] == '/' then url[..|url| - 1] else url
  }

  const Site := "https://www.pnwx.com"

  /** `url.replace('https://www.pnwx.com', '')`: the first occurrence of the
      site prefix removed. */
  function UrlPath(url: string): string {
    ReplaceFirst(url, Site, "")
  }

  /** The non-empty segments of the path between slashes. */
  function PathParts(url: string): seq<string> {
    NonEmpty(Split(UrlPath(url), '/'))
  }

  /** The seven candidates in the page's own directory. */
  function DirectCandidates(base: string, id: string): (c: seq<string>)
    ensures |c| == 7
  {
    [base + "/" + id + ".jpg", base + "/" + id + ".gif", base + "/" + id + ".png",
     base + "/image.jpg", base + "/image.gif", base + "/product.jpg", base + "/main.jpg"]
  }

  /** The three candidates pushed for one sub-directory. */
  function SubdirTriple(base: string, id: string, subdir: string): seq<string> {
    [base + "/" + subdir + "/" + id + ".jpg", base + "/" + subdir + "/image.jpg", base + "/" + subdir + "/product.jpg"]
  }

  /** The candidates pushed for each sub-directory in turn. */
  function SubdirCandidates(base: string, id: string, subdirs: seq<string>): (c: seq<string>)
  {
    if subdirs == [] then []
    else SubdirCandidates(base, id, subdirs[..|subdirs| - 1]) + SubdirTriple(base, id, subdirs[|subdirs| - 1])
  }

  lemma {:induction false} SubdirCandidatesLength(base: string, id: string, subdirs: seq<string>)
    ensures |SubdirCandidates(base, id, subdirs)| == 3 * |subdirs|
  {
    if subdirs != [] {
      SubdirCandidatesLength(base, id, subdirs[..|subdirs| - 1]);
    }
  }

  function Subdirs(): seq<string> {
    ["images", "img", "photos", "pics"]
  }

  /** The three candidates built from the last path segment, when the path
      has one. */
  function PathCandidates(url: string): seq<string> {
    var parts := PathParts(url);
    if |parts| > 0 then
      var last := parts[|parts| - 1];
      [Site + UrlPath(url) + last + ".jpg", Site + UrlPath(url) + last + ".gif", Site + UrlPath(url) + "image.jpg"]
    else []
  }

  /** `possibleImages` before de-duplication, for a product with a url. */
  function Candidates(url: string, id: string): seq<string> {
    var base := StripTrailingSlash(url);
    DirectCandidates(base, id) + SubdirCandidates(base, id, Subdirs()) + PathCandidates(url)
  }

  /** `generateImageUrls` as a value: nothing without a url, otherwise the
      candidates without repeats. */
  function ImageUrls(p: Product): seq<string> {
    if Truthy(p.url) then Dedup(Candidates(p.url.value, p.id)) else []
  }

  /** 19 candidates, and 3 more when the path has a non-empty segment. */
  lemma CandidatesCount(url: string, id: string)
    ensures |Candidates(url, id)| == 19 + (if |PathParts(url)| > 0 then 3 else 0)
  {
    SubdirCandidatesLength(StripTrailingSlash(url), id, Subdirs());
  }

  /** The first candidate is the id as a .jpg next to the page, and it is the
      first URL after de-duplication; a product without a url gets none. */
  lemma ImageUrlsHead(p: Product)
    ensures ImageUrls(p) == [] <==> !Truthy(p.url)
    ensures Truthy(p.url) ==> ImageUrls(p)[0] == StripTrailingSlash(p.url.value) + "/" + p.id + ".jpg"
  {
    if Truthy(p.url) {
      DedupHead(Candidates(p.url.value, p.id));
    }
  }

  /** The URLs are exactly the candidates, without repeats, in the order in
      which they first occur. */
  lemma ImageUrlsDistinct(p: Product)
    requires Truthy(p.url)
    ensures NoDuplicates(ImageUrls(p))
    ensures IsSubsequence(ImageUrls(p), Candidates(p.url.value, p.id))
    ensures forall u :: u in ImageUrls(p) <==> u in Candidates(p.url.value, p.id)
    ensures InFirstOrder(ImageUrls(p), Candidates(p.url.value, p.id))
  {
    DedupSubsequence(Candidates(p.url.value, p.id));
    DedupFirstOrder(Candidates(p.url.value, p.id));
  }

  /** `generateImageUrls`: the candidate list built with pushes, one
      sub-directory at a time, then de-duplicated. */
  method GenerateImageUrls(p: Product) returns (urls: seq<string>)
    ensures urls == ImageUrls(p)
  {
    if !Truthy(p.url) {
      return [];
    }
    var url := p.url.value;
    var base := StripTrailingSlash(url);
    var possible := DirectCandidates(base, p.id);
    var subdirs := Subdirs();
    for i := 0 to |subdirs|
      invariant possible == DirectCandidates(base, p.id) + SubdirCandidates(base, p.id, subdirs[..i])
    {
      assert subdirs[..i + 1][..i] == subdirs[..i];
      possible := possible + SubdirTriple(base, p.id, subdirs[i]);
    }
    assert subdirs[..|subdirs|] == subdirs;
    var urlPath := UrlPath(url);
    var pathParts := PathParts(url);
    if |pathParts| > 0 {
      var lastPart := pathParts[|pathParts| - 1];
      possible := possible + [Site + urlPath + lastPart + ".jpg", Site + urlPath + lastPart + ".gif", Site + urlPath + "image.jpg"];
    } else {
      assert possible == possible + PathCandidates(url);
    }
    assert possible == Candidates(url, p.id);
    urls := Dedup(possible);
  }

  /** The image is already a real one on the site. */
  predicate HasSiteImage(p: Product) {
    Truthy(p.image) && Contains(p.image.value, "pnwx.com") && !Contains(p.image.value, "placeholder")
  }

  /** `imageUrls.slice(0, 5)` */
  function FirstFive(urls: seq<string>): (r: seq<string>)
    ensures |r| <= 5 && IsPrefix(r, urls)
    ensures |urls| >= 5 ==> |r| == 5
    ensures |urls| < 5 ==> r == urls
  {
    if |urls| < 5 then urls else urls[..5]
  }

  predicate IsPrefix(a: seq<string>, b: seq<string>) {
    |a| <= |b| && b[..|a|] == a
  }

  /** `updateProductImages` */
  function UpdateProductImages(p: Product): (r: Product)
    ensures HasSiteImage(p) || !Truthy(p.url) ==> r == p
    ensures !HasSiteImage(p) && Truthy(p.url) ==>
      r == WithImages(p, Some(ImageUrls(p)[0]), FirstFive(ImageUrls(p)))
  {
    if HasSiteImage(p) then p
    else
      var urls := ImageUrls(p);
      if |urls| == 0 then p
      else WithImages(p, Some(urls[0]), FirstFive(urls))
  }

  /** An updated product's main image is the first candidate and the head of
      its gallery of at most five, and nothing but the two image fields
      changes. */
  lemma UpdateAssigns(p: Product)
    requires !HasSiteImage(p) && Truthy(p.url)
    ensures UpdateProductImages(p).image == Some(StripTrailingSlash(p.url.value) + "/" + p.id + ".jpg")
    ensures var imgs := UpdateProductImages(p).images.value;
      1 <= |imgs| <= 5 && imgs[0] == UpdateProductImages(p).image.value && NoDuplicates(imgs)
    ensures SameExceptImages(p, UpdateProductImages(p))
  {
    ImageUrlsHead(p);
    ImageUrlsDistinct(p);
    var urls := ImageUrls(p);
    var imgs := FirstFive(urls);
    assert forall i :: 0 <= i < |imgs| ==> imgs[i] == urls[i];
  }

  /** Updating again gives the same product: the url and id it reads are
      among the fields it keeps. */
  lemma UpdateTwice(p: Product)
    ensures UpdateProductImages(UpdateProductImages(p)) == UpdateProductImages(p)
  {
    var r := UpdateProductImages(p);
    if !HasSiteImage(p) && Truthy(p.url) {
      assert r.url == p.url && r.id == p.id;
      assert ImageUrls(r) == ImageUrls(p);
    }
  }

  /** `processFile` on one parsed file: a slot is replaced and counted when
      the update differs from it; the file is always written. */
  method ProcessFile(cats: seq<Category>) returns (out: seq<Category>, updatedCount: nat, written: bool)
    ensures out == MapAll(cats, UpdateProductImages)
    ensures updatedCount == CountWhere(cats, Differs(UpdateProductImages))
    ensures written
  {
    out, updatedCount := ReplaceWhere(cats, UpdateProductImages, Differs(UpdateProductImages));
    written := true;
  }

  /** A second run over the written file changes and counts nothing. */
  lemma SecondRunChangesNothing(cats: seq<Category>)
    ensures MapAll(MapAll(cats, UpdateProductImages), UpdateProductImages) == MapAll(cats, UpdateProductImages)
    ensures CountWhere(MapAll(cats, UpdateProductImages), Differs(UpdateProductImages)) == 0
  {
    forall p ensures UpdateProductImages(UpdateProductImages(p)) == UpdateProductImages(p) {
      UpdateTwice(p);
    }
    MapAllTwice(cats, UpdateProductImages);
    ChangedZero(MapAll(cats, UpdateProductImages), UpdateProductImages);
  }

  /** `main`: each file in turn; a file that cannot be read or parsed (None)
      is reported and skipped, and the others are still processed. */
  method UpdateAllFiles(files: seq<Option<seq<Category>>>) returns (outs: seq<Option<seq<Category>>>)
    ensures |outs| == |files|
    ensures forall f :: 0 <= f < |files| ==>
      outs[f] == if files[f].Some? then Some(MapAll(files[f].value, UpdateProductImages)) else None
  {
    outs := [];
    for f := 0 to |files|
      invariant |outs| == f
      invariant forall g :: 0 <= g < f ==>
        outs[g] == if files[g].Some? then Some(MapAll(files[g].value, UpdateProductImages)) else None
    {
      match files[f]
      case None =>
        outs := outs + [None];
      case Some(cats) =>
        var out, _, _ := ProcessFile(cats);
        outs := outs + [Some(out)];
    }
  }
}
