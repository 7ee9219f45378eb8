/** The image scraper: image URLs taken from a product page, up to three of
    them downloaded under `/images/`, and the product pointed at the
    downloaded copies. The page, the URL parser and the downloads are
    parameters (`Web`). */
module ScrapeImages {
  import opened Wrappers
  import opened Strings
  import opened Equipment
  import opened Sequences
  import opened Traversal

  /** An `img` element: its `src`, `width` and `height` attributes. */
  datatype Img = Img(src: Option<string>, width: Option<string>, height: Option<string>)

  /** `src` made absolute: a rooted path goes after the base, another path
      that does not start with `http` after the base and a slash. */
  function ResolveUrl(baseUrl: string, src: string): string {
    if StartsWith(src, "/") then baseUrl + src
    else if !StartsWith(src, "http") then baseUrl + "/" + src
    else src
  }

  /** Against an `http` base every result starts with `http`, and resolving
      again changes nothing. */
  lemma ResolveUrlAbsolute(baseUrl: string, src: string)
    requires StartsWith(baseUrl, "http")
    ensures StartsWith(ResolveUrl(baseUrl, src), "http")
    ensures ResolveUrl(baseUrl, ResolveUrl(baseUrl, src)) == ResolveUrl(baseUrl, src)
  {
    var r := ResolveUrl(baseUrl, src);
    if StartsWith(src, "/") {
      assert r[..4] == baseUrl[..4];
    } else if !StartsWith(src, "http") {
      assert r[..4] == baseUrl[..4];
    }
    assert r[0] == 'h';
  }

  // ---- parseInt ----

  predicate IsDigitIn(c: char, radix: nat) {
    if radix == 16 then '0' <= c <= '9' || 'a' <= c <= 'f' || 'A' <= c <= 'F'
    else '0' <= c <= '9'
  }

  function DigitValue(c: char): nat {
    if '0' <= c <= '9' then c as nat - '0' as nat
    else if 'a' <= c <= 'f' then c as nat - 'a' as nat + 10
    else if 'A' <= c <= 'F' then c as nat - 'A' as nat + 10
    else 0
  }

  /** The longest prefix of digits in the radix. */
  function LeadingDigits(s: string, radix: nat): (ds: string)
    ensures |ds| <= |s| && s[..|ds|] == ds
    ensures forall k :: 0 <= k < |ds| ==> IsDigitIn(ds[k], radix)
    ensures |ds| < |s| ==> !IsDigitIn(s[|ds|], radix)
  {
    if s != [] && IsDigitIn(s[0], radix) then [s[0]] + LeadingDigits(s[1..], radix) else []
  }

  function DigitsValue(ds: string, radix: nat): nat {
    if ds == [] then 0 else DigitsValue(ds[..|ds| - 1], radix) * radix + DigitValue(ds[|ds| - 1])
  }

  /** `parseInt(s)` with no radix: leading white space, a sign, a `0x`
      prefix for hexadecimal, then as many digits as there are; None is
      `NaN`, for a string with no digits there. */
  function ParseInt(s: string): Option<int> {
    var t := TrimStart(s);
    var negative := |t| > 0 && t[0] == '-';
    var u := if |t| > 0 && (t[0] == '-' || t[0] == '+') then t[1..] else t;
    var hex := |u| >= 2 && u[0] == '0' && (u[1] == 'x' || u[1] == 'X');
    var radix := if hex then 16 else 10;
    var ds := LeadingDigits(if hex then u[2..] else u, radix);
    var value: int := DigitsValue(ds, radix);
    if ds == [] then None else Some(if negative then -value else value)
  }

  /** The decimal numeral of n. */
  function Numeral(n: nat): (s: string)
    ensures s != [] && forall k :: 0 <= k < |s| ==> '0' <= s[k] <= '9'
    ensures s[0] == '0' ==> n == 0 && |s| == 1
  {
    if n < 10 then ['0' + n as char] else Numeral(n / 10) + ['0' + (n % 10) as char]
  }

  lemma {:induction false} NumeralValue(n: nat)
    ensures DigitsValue(Numeral(n), 10) == n
  {
    if n >= 10 {
      NumeralValue(n / 10);
      assert Numeral(n)[..|Numeral(n)| - 1] == Numeral(n / 10);
    }
  }

  lemma {:induction false} LeadingDigitsAll(s: string, radix: nat)
    requires forall k :: 0 <= k < |s| ==> IsDigitIn(s[k], radix)
    ensures LeadingDigits(s, radix) == s
  {
    if s != [] {
      LeadingDigitsAll(s[1..], radix);
    }
  }

  /** `parseInt` reads back the numeral of every natural number. */
  lemma ParseIntNumeral(n: nat)
    ensures ParseInt(Numeral(n)) == Some(n)
  {
    var s := Numeral(n);
    assert TrimStart(s) == s;
    LeadingDigitsAll(s, 10);
    NumeralValue(n);
  }

  /** The attribute is a number below 50; `NaN < 50` is false. */
  predicate Below50(s: string) {
    var n := ParseInt(s);
    n.Some? && n.value < 50
  }

  /** Dropped as too small: only when both sizes are given. */
  predicate Tiny(img: Img) {
    Truthy(img.width) && Truthy(img.height) && (Below50(img.width.value) || Below50(img.height.value))
  }

  /** A URL of a spacer, a tracking pixel or an icon. */
  predicate Junk(url: string) {
    Contains(url, "spacer") || Contains(url, "pixel") || Contains(url, "icon")
  }

  /** The URL pushed for one element, if any. */
  function Accepted(img: Img, baseUrl: string): (u: Option<string>)
    ensures u.Some? ==> Truthy(img.src) && !Tiny(img) && !Junk(u.value)
  {
    if !Truthy(img.src) then None
    else
      var url := ResolveUrl(baseUrl, img.src.value);
      if Tiny(img) || Junk(url) then None else Some(url)
  }

  /** Every URL pushed, in document order. */
  function Pushed(imgs: seq<Img>, baseUrl: string): seq<string> {
    Pick(imgs, AcceptedFrom(baseUrl))
  }

  function AcceptedFrom(baseUrl: string): Img -> Option<string> {
    img => Accepted(img, baseUrl)
  }

  /** `extractImageUrls` as a value. */
  function ImageUrlsOf(imgs: seq<Img>, baseUrl: string): seq<string> {
    Dedup(Pushed(imgs, baseUrl))
  }

  lemma PushedMembers(imgs: seq<Img>, baseUrl: string)
    ensures forall u :: u in Pushed(imgs, baseUrl) <==> exists k :: 0 <= k < |imgs| && Accepted(imgs[k], baseUrl) == Some(u)
  {
    PickItems(imgs, AcceptedFrom(baseUrl));
  }

  /** The URLs are exactly those of the elements that pass, each once, none
      of them junk, all of them absolute against an `http` base. */
  lemma ImageUrlsExactly(imgs: seq<Img>, baseUrl: string)
    ensures NoDuplicates(ImageUrlsOf(imgs, baseUrl))
    ensures forall u :: u in ImageUrlsOf(imgs, baseUrl) <==>
      exists k :: 0 <= k < |imgs| && Accepted(imgs[k], baseUrl) == Some(u)
    ensures forall u :: u in ImageUrlsOf(imgs, baseUrl) ==> !Junk(u)
    ensures StartsWith(baseUrl, "http") ==> forall u :: u in ImageUrlsOf(imgs, baseUrl) ==> StartsWith(u, "http")
  {
    PushedMembers(imgs, baseUrl);
    forall u | u in ImageUrlsOf(imgs, baseUrl)
      ensures !Junk(u) && (StartsWith(baseUrl, "http") ==> StartsWith(u, "http"))
    {
      var k :| 0 <= k < |imgs| && Accepted(imgs[k], baseUrl) == Some(u);
      if StartsWith(baseUrl, "http") {
        ResolveUrlAbsolute(baseUrl, imgs[k].src.value);
      }
    }
  }

  /** `extractImageUrls`: the `each` callback pushes the URL of every
      element that passes, then the duplicates go. */
  method ExtractImageUrls(imgs: seq<Img>, baseUrl: string) returns (urls: seq<string>)
    ensures urls == ImageUrlsOf(imgs, baseUrl)
  {
    var pushed: seq<string> := [];
    for k := 0 to |imgs|
      invariant pushed == Pushed(imgs[..k], baseUrl)
    {
      PickSnoc(imgs[..k], imgs[k], AcceptedFrom(baseUrl));
      assert imgs[..k + 1] == imgs[..k] + [imgs[k]];
      var elem := imgs[k];
      if !Truthy(elem.src) {
        continue;
      }
      var src := ResolveUrl(baseUrl, elem.src.value);
      if Tiny(elem) {
        continue;
      }
      if Junk(src) {
        continue;
      }
      pushed := pushed + [src];
    }
    assert imgs[..|imgs|] == imgs;
    urls := Dedup(pushed);
  }

  // ---- file names ----

  predicate IsAlnum(c: char) {
    'a' <= c <= 'z' || 'A' <= c <= 'Z' || '0' <= c <= '9'
  }

  /** `basename.replace(/[^a-z0-9]/gi, '-').toLowerCase()` */
  function SafeName(basename: string): (s: string)
    ensures |s| == |basename|
    ensures forall k :: 0 <= k < |s| ==> s[k] == '-' || 'a' <= s[k] <= 'z' || '0' <= s[k] <= '9'
    ensures forall k :: 0 <= k < |s| ==> (s[k] == '-' <==> !IsAlnum(basename[k]))
  {
    Lower(seq(|basename|, k requires 0 <= k < |basename| => if IsAlnum(basename[k]) then basename[k] else '-'))
  }

  /** The two parts of a URL's path that `getFilenameFromUrl` uses: its
      extension, and its base name without the extension in use. */
  datatype PathName = PathName(extname: string, basename: string)

  /** `productId-safeName.ext`, with `.jpg` for a path without extension. */
  function FileName(productId: string, path: PathName): string {
    productId + "-" + SafeName(path.basename) + (if path.extname == "" then ".jpg" else path.extname)
  }

  /** The name starts with the product id and a dash, and ends with the
      extension, `.jpg` when the path has none. */
  lemma FileNameShape(productId: string, path: PathName)
    ensures StartsWith(FileName(productId, path), productId + "-")
    ensures EndsWith(FileName(productId, path), if path.extname == "" then ".jpg" else path.extname)
  {
    var ext := if path.extname == "" then ".jpg" else path.extname;
    StartsWithConcat(productId + "-", SafeName(path.basename) + ext);
    var f := FileName(productId, path);
    assert f == (productId + "-" + SafeName(path.basename)) + ext;
    assert f[|f| - |ext|..] == ext;
  }

  // ---- one product ----

  /** What the network and the URL parser answer: a page's `img` elements,
      or None when fetching it fails; a URL's path parts, or None when `new
      URL` throws; and whether downloading an image succeeds. */
  datatype Web = Web(
    page: string -> Option<seq<Img>>,
    pathOf: string -> Option<PathName>,
    download: string -> bool)

  function LocalPath(productId: string, path: PathName): string {
    "/images/" + FileName(productId, path)
  }

  /** The download loop so far: the local paths of the images downloaded,
      the counts, and whether a URL failed to parse, which throws out of
      the loop. */
  datatype Tally = Tally(paths: seq<string>, downloaded: nat, failed: nat, aborted: bool)

  function Tries(urls: seq<string>, productId: string, web: Web): (t: Tally)
    ensures t.downloaded == |t.paths|
    ensures t.aborted ==> t.downloaded + t.failed < |urls|
    ensures !t.aborted ==> t.downloaded + t.failed == |urls|
    ensures forall k :: 0 <= k < |t.paths| ==> StartsWith(t.paths[k], "/images/" + productId + "-")
  {
    if urls == [] then Tally([], 0, 0, false)
    else
      var t := Tries(urls[..|urls| - 1], productId, web);
      var url := urls[|urls| - 1];
      if t.aborted then t
      else match web.pathOf(url)
        case None => t.(aborted := true)
        case Some(path) =>
          if web.download(url) then
            FileNameShape(productId, path);
            PrefixOfPrefix("/images/", productId + "-", FileName(productId, path));
            assert "/images/" + (productId + "-") == "/images/" + productId + "-";
            Tally(t.paths + [LocalPath(productId, path)], t.downloaded + 1, t.failed, false)
          else Tally(t.paths, t.downloaded, t.failed + 1, false)
  }

  lemma PrefixOfPrefix(a: string, q: string, b: string)
    requires StartsWith(b, q)
    ensures StartsWith(a + b, a + q)
  {
    assert (a + b)[..|a + q|] == a + b[..|q|];
  }

  /** Once a URL has thrown, the later ones are not tried. */
  lemma {:induction false} TriesStayAborted(urls: seq<string>, i: nat, productId: string, web: Web)
    requires i <= |urls| && Tries(urls[..i], productId, web).aborted
    ensures Tries(urls, productId, web) == Tries(urls[..i], productId, web)
  {
    if i < |urls| {
      assert urls[..|urls| - 1][..i] == urls[..i];
      TriesStayAborted(urls[..|urls| - 1], i, productId, web);
    } else {
      assert urls[..i] == urls;
    }
  }

  /** What one product contributes: the product afterwards, its counts and
      whether the file must be written. */
  datatype Outcome = Outcome(product: Product, downloaded: nat, failed: nat, skipped: nat, modified: bool)

  const PnwxBase := "https://www.pnwx.com"

  /** No URL to scrape, or a placeholder one. */
  predicate NothingToScrape(p: Product) {
    !Truthy(p.url) || Contains(p.url.value, "placeholder")
  }

  predicate HasLocalImage(p: Product) {
    Truthy(p.image) && StartsWith(p.image.value, "/images/")
  }

  /** The per-product body of `scrapeProductImages`. */
  function ScrapeOutcome(p: Product, web: Web): Outcome {
    if NothingToScrape(p) || HasLocalImage(p) then Outcome(p, 0, 0, 1, false)
    else match web.page(p.url.value)
      case None => Outcome(p, 0, 1, 0, false)
      case Some(imgs) =>
        var urls := ImageUrlsOf(imgs, PnwxBase);
        if |urls| == 0 then Outcome(p, 0, 0, 1, false)
        else
          FromTally(p, Tries(urls[..if |urls| < 3 then |urls| else 3], p.id, web))
  }

  /** The end of the per-product body, once the downloads are done: a
      thrown URL counts one more failure, and the product is updated when
      anything was downloaded. */
  function FromTally(p: Product, t: Tally): Outcome {
    if t.aborted then Outcome(p, t.downloaded, t.failed + 1, 0, false)
    else if |t.paths| > 0 then Outcome(WithImages(p, Some(t.paths[0]), t.paths), t.downloaded, t.failed, 0, true)
    else Outcome(p, t.downloaded, t.failed, 0, false)
  }

  /** The outcome of at most three tries of a product without a local
      image. */
  lemma FromTallyUpdates(p: Product, t: Tally, n: nat)
    requires n <= 3 && !HasLocalImage(p)
    requires t.downloaded == |t.paths|
    requires t.aborted ==> t.downloaded + t.failed < n
    requires !t.aborted ==> t.downloaded + t.failed == n
    requires forall k :: 0 <= k < |t.paths| ==> StartsWith(t.paths[k], "/images/" + p.id + "-")
    ensures var o := FromTally(p, t); o.downloaded + o.failed <= 3
    ensures var o := FromTally(p, t); !o.modified ==> o.product == p
    ensures var o := FromTally(p, t); o.modified ==>
      && o.product.images.Some? && 1 <= |o.product.images.value| <= 3
      && o.product.image == Some(o.product.images.value[0])
      && (forall k :: 0 <= k < |o.product.images.value| ==> StartsWith(o.product.images.value[k], "/images/" + p.id + "-"))
      && SameExceptImages(p, o.product)
      && o.product != p
    ensures var o := FromTally(p, t); o.modified ==> o.downloaded == |o.product.images.value|
  {
    var o := FromTally(p, t);
    if o.modified {
      var q := o.product;
      assert StartsWith(q.image.value, "/images/") by {
        assert q.image.value[..8] == ("/images/" + p.id + "-")[..8];
      }
    }
  }

  /** A product without a url, with a placeholder url or with a local
      image is skipped and left alone; one whose page cannot be fetched
      counts a failure, and one whose page offers no image a skip. A
      product is changed only when it is marked modified, which needs a
      download for each of its images; then its image is the first of one
      to three local copies named after it, and nothing else changes. At
      most three downloads are tried. */
  lemma ScrapeUpdates(p: Product, web: Web)
    ensures NothingToScrape(p) || HasLocalImage(p) ==> ScrapeOutcome(p, web) == Outcome(p, 0, 0, 1, false)
    ensures !NothingToScrape(p) && !HasLocalImage(p) && web.page(p.url.value).None? ==>
      ScrapeOutcome(p, web) == Outcome(p, 0, 1, 0, false)
    ensures !NothingToScrape(p) && !HasLocalImage(p) && web.page(p.url.value).Some? ==>
      ImageUrlsOf(web.page(p.url.value).value, PnwxBase) == [] ==> ScrapeOutcome(p, web) == Outcome(p, 0, 0, 1, false)
    ensures var o := ScrapeOutcome(p, web); o.modified ==> o.downloaded == |o.product.images.value| >= 1
    ensures var o := ScrapeOutcome(p, web); o.downloaded + o.failed <= 3
    ensures var o := ScrapeOutcome(p, web); !o.modified ==> o.product == p
    ensures var o := ScrapeOutcome(p, web); o.modified ==>
      && o.product.images.Some? && 1 <= |o.product.images.value| <= 3
      && o.product.image == Some(o.product.images.value[0])
      && (forall k :: 0 <= k < |o.product.images.value| ==> StartsWith(o.product.images.value[k], "/images/" + p.id + "-"))
      && SameExceptImages(p, o.product)
      && o.product != p
  {
    if !(NothingToScrape(p) || HasLocalImage(p)) && web.page(p.url.value).Some? {
      var urls := ImageUrlsOf(web.page(p.url.value).value, PnwxBase);
      if |urls| > 0 {
        var first := urls[..if |urls| < 3 then |urls| else 3];
        FromTallyUpdates(p, Tries(first, p.id, web), |first|);
      }
    }
  }

  /** A second run over the product changes nothing: an updated product
      now has a local image and is skipped. */
  lemma ScrapeTwice(p: Product, web: Web)
    ensures ScrapeOutcome(ScrapeOutcome(p, web).product, web).product == ScrapeOutcome(p, web).product
    ensures !ScrapeOutcome(ScrapeOutcome(p, web).product, web).modified
  {
    ScrapeUpdates(p, web);
    var o := ScrapeOutcome(p, web);
    if o.modified {
      var q := o.product;
      assert StartsWith(q.image.value, "/images/") by {
        assert q.image.value[..8] == ("/images/" + p.id + "-")[..8];
      }
      assert q.url == p.url;
    }
  }

  /** The loop that downloads the first images: each URL is named and
      downloaded in turn; a URL that does not parse throws out of the loop. */
  method DownloadImages(imageUrls: seq<string>, productId: string, web: Web) returns (t: Tally)
    ensures t == Tries(imageUrls, productId, web)
  {
    var downloadedImages: seq<string> := [];
    var downloaded, failed := 0, 0;
    for i := 0 to |imageUrls|
      invariant Tries(imageUrls[..i], productId, web) == Tally(downloadedImages, downloaded, failed, false)
    {
      assert imageUrls[..i + 1][..i] == imageUrls[..i];
      var imageUrl := imageUrls[i];
      var path := web.pathOf(imageUrl);
      if path.None? {
        TriesStayAborted(imageUrls, i + 1, productId, web);
        return Tally(downloadedImages, downloaded, failed, true);
      }
      var localPath := LocalPath(productId, path.value);
      if web.download(imageUrl) {
        downloadedImages := downloadedImages + [localPath];
        downloaded := downloaded + 1;
      } else {
        failed := failed + 1;
      }
    }
    assert imageUrls[..|imageUrls|] == imageUrls;
    t := Tally(downloadedImages, downloaded, failed, false);
  }

  /** The per-product body of `scrapeProductImages`, with its early
      `continue`s and the download loop. */
  method ScrapeProduct(p: Product, web: Web)
    returns (r: Product, downloaded: nat, failed: nat, skipped: nat, modified: bool)
    ensures Outcome(r, downloaded, failed, skipped, modified) == ScrapeOutcome(p, web)
  {
    if !Truthy(p.url) || Contains(p.url.value, "placeholder") {
      return p, 0, 0, 1, false;
    }
    if Truthy(p.image) && StartsWith(p.image.value, "/images/") {
      return p, 0, 0, 1, false;
    }
    var html := web.page(p.url.value);
    if html.None? {
      return p, 0, 1, 0, false;
    }
    var imageUrls := ExtractImageUrls(html.value, PnwxBase);
    if |imageUrls| == 0 {
      return p, 0, 0, 1, false;
    }
    var n := if 3 < |imageUrls| then 3 else |imageUrls|;
    var t := DownloadImages(imageUrls[..n], p.id, web);
    downloaded, failed, skipped := t.downloaded, t.failed, 0;
    if t.aborted {
      return p, downloaded, failed + 1, 0, false;
    }
    var downloadedImages := t.paths;
    if |downloadedImages| > 0 {
      r := WithImages(p, Some(downloadedImages[0]), downloadedImages);
      modified := true;
    } else {
      r := p;
      modified := false;
    }
  }

  // ---- files ----

  /** The run's counters and the file's `fileModified` flag. */
  datatype Totals = Totals(downloaded: nat, failed: nat, skipped: nat, modified: bool)

  function Add(t: Totals, o: Outcome): Totals {
    Totals(t.downloaded + o.downloaded, t.failed + o.failed, t.skipped + o.skipped, t.modified || o.modified)
  }

  function Plus(a: Totals, b: Totals): Totals {
    Totals(a.downloaded + b.downloaded, a.failed + b.failed, a.skipped + b.skipped, a.modified || b.modified)
  }

  const Zero := Totals(0, 0, 0, false)

  /** The counters over a list of products. */
  function TotalsIn(ps: seq<Product>, web: Web): Totals {
    if ps == [] then Zero else Add(TotalsIn(ps[..|ps| - 1], web), ScrapeOutcome(ps[|ps| - 1], web))
  }

  /** The counters over the products of the categories. */
  function TotalsOf(cats: seq<Category>, web: Web): Totals {
    if cats == [] then Zero else Plus(TotalsOf(cats[..|cats| - 1], web), TotalsIn(cats[|cats| - 1].subcategories, web))
  }

  /** The update of one product. */
  function ScrapedBy(web: Web): Product -> Product {
    p => ScrapeOutcome(p, web).product
  }

  lemma {:induction false} ModifiedIn(ps: seq<Product>, web: Web)
    ensures TotalsIn(ps, web).modified <==> CountIn(ps, Differs(ScrapedBy(web))) > 0
  {
    if ps != [] {
      ModifiedIn(ps[..|ps| - 1], web);
      ScrapeUpdates(ps[|ps| - 1], web);
    }
  }

  /** The file is written exactly when the run changes one of its products. */
  lemma {:induction false} ModifiedIffChanged(cats: seq<Category>, web: Web)
    ensures TotalsOf(cats, web).modified <==> MapAll(cats, ScrapedBy(web)) != cats
  {
    ModifiedWhere(cats, web);
    ChangedZero(cats, ScrapedBy(web));
  }

  lemma {:induction false} ModifiedWhere(cats: seq<Category>, web: Web)
    ensures TotalsOf(cats, web).modified <==> CountWhere(cats, Differs(ScrapedBy(web))) > 0
  {
    if cats != [] {
      ModifiedWhere(cats[..|cats| - 1], web);
      ModifiedIn(cats[|cats| - 1].subcategories, web);
    }
  }

  /** Running the scraper over the file it wrote updates nothing and writes
      nothing. */
  lemma SecondRunWritesNothing(cats: seq<Category>, web: Web)
    ensures MapAll(MapAll(cats, ScrapedBy(web)), ScrapedBy(web)) == MapAll(cats, ScrapedBy(web))
    ensures !TotalsOf(MapAll(cats, ScrapedBy(web)), web).modified
  {
    forall p ensures ScrapedBy(web)(ScrapedBy(web)(p)) == ScrapedBy(web)(p) {
      ScrapeTwice(p, web);
    }
    MapAllTwice(cats, ScrapedBy(web));
    ModifiedIffChanged(MapAll(cats, ScrapedBy(web)), web);
  }

  /** The loop over one category's products: each is updated in place and
      its counts added. */
  method ScrapeCategory(ps: seq<Product>, web: Web) returns (qs: seq<Product>, totals: Totals)
    ensures MappedProducts(qs, ps, ScrapedBy(web), |ps|)
    ensures totals == TotalsIn(ps, web)
  {
    qs := ps;
    totals := Zero;
    for j := 0 to |ps|
      invariant MappedProducts(qs, ps, ScrapedBy(web), j)
      invariant totals == TotalsIn(ps[..j], web)
    {
      assert ps[..j + 1][..j] == ps[..j];
      var r, downloaded, failed, skipped, modified := ScrapeProduct(qs[j], web);
      MappedProductsNext(qs, ps, ScrapedBy(web), j, r);
      qs := qs[j := r];
      totals := Add(totals, Outcome(r, downloaded, failed, skipped, modified));
    }
    assert ps[..|ps|] == ps;
  }

  /** The loops over one file's categories and products. */
  method ScrapeFile(cats: seq<Category>, web: Web) returns (out: seq<Category>, totals: Totals)
    ensures out == MapAll(cats, ScrapedBy(web))
    ensures totals == TotalsOf(cats, web)
  {
    out := cats;
    totals := Zero;
    for i := 0 to |cats|
      invariant MappedCategories(out, cats, ScrapedBy(web), i)
      invariant totals == TotalsOf(cats[..i], web)
    {
      var qs, categoryTotals := ScrapeCategory(out[i].subcategories, web);
      MappedCategoriesNext(out, cats, ScrapedBy(web), i, qs);
      assert cats[..i + 1][..i] == cats[..i];
      out := out[i := out[i].(subcategories := qs)];
      totals := Plus(totals, categoryTotals);
    }
    MappedCategoriesDone(out, cats, ScrapedBy(web));
    assert cats[..|cats|] == cats;
  }

  /** The counters over the files read. */
  function TotalsOfFiles(files: seq<seq<Category>>, web: Web): Totals {
    if files == [] then Zero else Plus(TotalsOfFiles(files[..|files| - 1], web), TotalsOf(files[|files| - 1], web))
  }

  /** What is written for one file: its updated contents, or nothing when
      no product changed. */
  function WriteOf(cats: seq<Category>, web: Web): Option<seq<Category>> {
    if MapAll(cats, ScrapedBy(web)) != cats then Some(MapAll(cats, ScrapedBy(web))) else None
  }

  function Writes(files: seq<seq<Category>>, web: Web): (writes: seq<Option<seq<Category>>>)
    ensures |writes| == |files| && forall f :: 0 <= f < |files| ==> writes[f] == WriteOf(files[f], web)
  {
    seq(|files|, f requires 0 <= f < |files| => WriteOf(files[f], web))
  }

  lemma FilesSnoc(files: seq<seq<Category>>, cats: seq<Category>, web: Web)
    ensures Writes(files + [cats], web) == Writes(files, web) + [WriteOf(cats, web)]
    ensures TotalsOfFiles(files + [cats], web) == Plus(TotalsOfFiles(files, web), TotalsOf(cats, web))
  {
    assert (files + [cats])[..|files|] == files;
  }

  /** `scrapeProductImages`: the files in order, each written back only when
      one of its products changed. Nothing catches a file that cannot be
      read or parsed, so the run stops there. */
  method ScrapeAll(files: seq<Option<seq<Category>>>, web: Web) returns (writes: seq<Option<seq<Category>>>, totals: Totals)
    ensures writes == Writes(ReadPrefix(files), web)
    ensures totals == TotalsOfFiles(ReadPrefix(files), web)
  {
    writes := [];
    totals := Zero;
    ghost var read: seq<seq<Category>> := [];
    var f := 0;
    while f < |files| && files[f].Some?
      invariant f <= |files| && |read| == f
      invariant forall f' :: 0 <= f' < f ==> files[f'] == Some(read[f'])
      invariant writes == Writes(read, web)
      invariant totals == TotalsOfFiles(read, web)
    {
      var data := files[f].value;
      var out, fileTotals := ScrapeFile(data, web);
      ModifiedIffChanged(data, web);
      FilesSnoc(read, data, web);
      writes := writes + [if fileTotals.modified then Some(out) else None];
      read := read + [data];
      totals := Plus(totals, fileTotals);
      f := f + 1;
    }
    ReadPrefixAt(files, read);
  }
}
