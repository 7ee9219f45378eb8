/** The dry run of the image scraper: the same URL extraction, applied to
    the products of one file until three pages have been fetched, listing
    what each page offers without downloading anything. */
module TestImageScraper {
  import opened Wrappers
  import opened Equipment
  import opened Sequences
  import opened Traversal
  import opened ScrapeImages

  /** The dry run's own copy of `extractImageUrls`; it computes exactly what
      the scraper's does. */
  method ExtractImageUrlsCopy(imgs: seq<Img>, baseUrl: string) returns (urls: seq<string>)
    ensures urls == ImageUrlsOf(imgs, baseUrl)
  {
    var pushed: seq<string> := [];
    for k := 0 to |imgs|
      invariant pushed == Pushed(imgs[..k], baseUrl)
    {
      PickSnoc(imgs[..k], imgs[k], AcceptedFrom(baseUrl));
      assert imgs[..k + 1] == imgs[..k] + [imgs[k]];
      var src := imgs[k].src;
      if !Truthy(src) {
        continue;
      }
      var resolved := ResolveUrl(baseUrl, src.value);
      if Truthy(imgs[k].width) && Truthy(imgs[k].height) && (Below50(imgs[k].width.value) || Below50(imgs[k].height.value)) {
        continue;
      }
      if Junk(resolved) {
        continue;
      }
      pushed := pushed + [resolved];
    }
    assert imgs[..|imgs|] == imgs;
    urls := Dedup(pushed);
  }

  /** What the dry run prints for a product it tries: the number of URLs and
      the first three of them, or the error. */
  datatype Entry =
    | Found(name: string, url: string, found: nat, shown: seq<string>)
    | Failed(name: string, url: string)

  function EntryFor(p: Product, page: string -> Option<seq<Img>>, baseUrl: string): (e: Entry)
    requires !NothingToScrape(p)
    ensures e.name == p.name && e.url == p.url.value
    ensures e.Found? <==> page(p.url.value).Some?
    ensures e.Found? ==> page(p.url.value).Some?
    ensures e.Found? ==> e.found == |ImageUrlsOf(page(p.url.value).value, baseUrl)|
    ensures e.Found? ==> |e.shown| == Min(3, e.found) && e.shown == ImageUrlsOf(page(p.url.value).value, baseUrl)[..|e.shown|]
  {
    match page(p.url.value)
    case None => Failed(p.name, p.url.value)
    case Some(imgs) =>
      var urls := ImageUrlsOf(imgs, baseUrl);
      Found(p.name, p.url.value, |urls|, urls[..if |urls| < 3 then |urls| else 3])
  }

  /** The entry a product gives, or None when it is passed over for having
      no usable URL. */
  function Attempt(page: string -> Option<seq<Img>>, baseUrl: string): Product -> Option<Entry> {
    p => if NothingToScrape(p) then None else Some(EntryFor(p, page, baseUrl))
  }

  /** The entries printed so far and the number of pages fetched. */
  datatype Progress = Progress(entries: seq<Entry>, count: nat)

  /** The run over the products, from `count0` pages already fetched:
      once three pages have been fetched the remaining products are not
      looked at. */
  function Run(ps: seq<Product>, attempt: Product -> Option<Entry>, count0: nat): Progress {
    if ps == [] then Progress([], count0)
    else
      var r := Run(ps[..|ps| - 1], attempt, count0);
      if r.count >= 3 then r
      else match attempt(ps[|ps| - 1])
        case None => r
        case Some(e) => Progress(r.entries + [e], if e.Found? then r.count + 1 else r.count)
  }

  function NumFound(log: seq<Entry>): nat {
    if log == [] then 0 else NumFound(log[..|log| - 1]) + (if log[|log| - 1].Found? then 1 else 0)
  }

  /** The products whose page the run can fetch. */
  function Fetchable(page: string -> Option<seq<Img>>): Product -> bool {
    p => !NothingToScrape(p) && page(p.url.value).Some?
  }

  function Min(a: nat, b: nat): nat {
    if a < b then a else b
  }

  /** An attempt finds a page exactly on the fetchable products. */
  ghost predicate FindsOn(attempt: Product -> Option<Entry>, q: Product -> bool) {
    forall p :: (attempt(p).Some? && attempt(p).value.Found?) == q(p)
  }

  /** The run fetches as many pages as there are fetchable products, but
      never more than three, and `count` counts the pages listed. */
  lemma RunFindsAtMostThree(ps: seq<Product>, page: string -> Option<seq<Img>>, baseUrl: string, count0: nat)
    requires count0 <= 3
    ensures Run(ps, Attempt(page, baseUrl), count0).count == Min(3, count0 + CountIn(ps, Fetchable(page)))
    ensures Run(ps, Attempt(page, baseUrl), count0).count == count0 + NumFound(Run(ps, Attempt(page, baseUrl), count0).entries)
  {
    assert FindsOn(Attempt(page, baseUrl), Fetchable(page));
    RunCounts(ps, Attempt(page, baseUrl), Fetchable(page), count0);
  }

  lemma {:induction false} RunCounts(ps: seq<Product>, attempt: Product -> Option<Entry>, q: Product -> bool, count0: nat)
    requires count0 <= 3 && FindsOn(attempt, q)
    ensures Run(ps, attempt, count0).count == Min(3, count0 + CountIn(ps, q))
    ensures Run(ps, attempt, count0).count == count0 + NumFound(Run(ps, attempt, count0).entries)
  {
    if ps != [] {
      var init := ps[..|ps| - 1];
      RunCounts(init, attempt, q, count0);
      var r := Run(init, attempt, count0);
      if r.count < 3 {
        match attempt(ps[|ps| - 1])
        case None =>
        case Some(e) =>
          assert (r.entries + [e])[..|r.entries|] == r.entries;
      }
    }
  }

  /** The run over two lists is the run over the first, continued over the
      second from the count it reached. */
  lemma {:induction false} RunAppend(a: seq<Product>, b: seq<Product>, attempt: Product -> Option<Entry>, count0: nat)
    ensures var ra := Run(a, attempt, count0); var rb := Run(b, attempt, ra.count);
      Run(a + b, attempt, count0) == Progress(ra.entries + rb.entries, rb.count)
    decreases |b|
  {
    if b == [] {
      assert a + b == a;
    } else {
      var init := b[..|b| - 1];
      assert (a + b)[..|a + b| - 1] == a + init;
      RunAppend(a, init, attempt, count0);
    }
  }

  /** Once three pages have been fetched nothing more is printed. */
  lemma {:induction false} RunStopped(ps: seq<Product>, attempt: Product -> Option<Entry>, count0: nat)
    requires count0 >= 3
    ensures Run(ps, attempt, count0) == Progress([], count0)
  {
    if ps != [] {
      RunStopped(ps[..|ps| - 1], attempt, count0);
    }
  }

  /** Once three pages have been fetched in a prefix, the rest is not
      looked at. */
  lemma RunStopsAt(ps: seq<Product>, j: nat, attempt: Product -> Option<Entry>, count0: nat)
    requires j <= |ps| && Run(ps[..j], attempt, count0).count >= 3
    ensures Run(ps, attempt, count0) == Run(ps[..j], attempt, count0)
  {
    assert ps[..j] + ps[j..] == ps;
    RunAppend(ps[..j], ps[j..], attempt, count0);
    RunStopped(ps[j..], attempt, Run(ps[..j], attempt, count0).count);
  }

  /** The run over one more category, continued from the count reached. */
  lemma RunCategoryStep(cats: seq<Category>, i: nat, attempt: Product -> Option<Entry>)
    requires i < |cats|
    ensures var ra := Run(Products(cats[..i]), attempt, 0); var rb := Run(cats[i].subcategories, attempt, ra.count);
      Run(Products(cats[..i + 1]), attempt, 0) == Progress(ra.entries + rb.entries, rb.count)
  {
    CountStep(cats, i);
    RunAppend(Products(cats[..i]), cats[i].subcategories, attempt, 0);
  }

  /** RunStopsAt for the categories before i. */
  lemma RunStopsAtCategory(cats: seq<Category>, i: nat, attempt: Product -> Option<Entry>)
    requires i <= |cats| && Run(Products(cats[..i]), attempt, 0).count >= 3
    ensures Run(Products(cats), attempt, 0) == Run(Products(cats[..i]), attempt, 0)
  {
    assert cats[..i] + cats[i..] == cats;
    ProductsAppend(cats[..i], cats[i..]);
    RunAppend(Products(cats[..i]), Products(cats[i..]), attempt, 0);
    RunStopped(Products(cats[i..]), attempt, Run(Products(cats[..i]), attempt, 0).count);
  }

  /** One product of the dry run: passed over without a usable URL,
      otherwise its page fetched and its image URLs listed. */
  method TryProduct(product: Product, page: string -> Option<seq<Img>>, baseUrl: string) returns (e: Option<Entry>)
    ensures e == Attempt(page, baseUrl)(product)
  {
    if !Truthy(product.url) || Strings.Contains(product.url.value, "placeholder") {
      return None;
    }
    match page(product.url.value)
    case None =>
      e := Some(Failed(product.name, product.url.value));
    case Some(html) =>
      var imageUrls := ExtractImageUrlsCopy(html, baseUrl);
      e := Some(Found(product.name, product.url.value, |imageUrls|, imageUrls[..if |imageUrls| < 3 then |imageUrls| else 3]));
  }

  /** The inner loop over one category's products, from `count0` pages
      already fetched; it stops once there are three. */
  method TestCategory(ps: seq<Product>, page: string -> Option<seq<Img>>, baseUrl: string, count0: nat)
    returns (entries: seq<Entry>, count: nat)
    ensures Progress(entries, count) == Run(ps, Attempt(page, baseUrl), count0)
  {
    entries := [];
    count := count0;
    for j := 0 to |ps|
      invariant Progress(entries, count) == Run(ps[..j], Attempt(page, baseUrl), count0)
    {
      if count >= 3 {
        RunStopsAt(ps, j, Attempt(page, baseUrl), count0);
        return;
      }
      assert ps[..j + 1][..j] == ps[..j];
      var e := TryProduct(ps[j], page, baseUrl);
      if e.Some? {
        entries := entries + [e.value];
        if e.value.Found? {
          count := count + 1;
        }
      }
    }
    assert ps[..|ps|] == ps;
  }

  /** The nested loops of `testScraping` over the file's products, with the
      `count` of pages fetched and the `break`s once it reaches three; the
      URLs are resolved against `baseUrl`, the site's address. */
  method TestFile(cats: seq<Category>, page: string -> Option<seq<Img>>, baseUrl: string) returns (log: seq<Entry>)
    ensures log == Run(Products(cats), Attempt(page, baseUrl), 0).entries
  {
    log := [];
    var count := 0;
    for i := 0 to |cats|
      invariant Progress(log, count) == Run(Products(cats[..i]), Attempt(page, baseUrl), 0)
    {
      if count >= 3 {
        RunStopsAtCategory(cats, i, Attempt(page, baseUrl));
        break;
      }
      var entries, newCount := TestCategory(cats[i].subcategories, page, baseUrl, count);
      RunCategoryStep(cats, i, Attempt(page, baseUrl));
      log := log + entries;
      count := newCount;
    }
    assert cats[..|cats|] == cats;
  }

  /** `testScraping`: the equipment file read and the dry run over it. A
      file that cannot be read or parsed (None) throws before any product
      is tried; the error reaches the top-level `catch`, so nothing is
      listed and the completion message is not printed. */
  method TestScraping(data: Option<seq<Category>>, page: string -> Option<seq<Img>>, baseUrl: string)
    returns (log: seq<Entry>, completed: bool)
    ensures completed <==> data.Some?
    ensures data.None? ==> log == []
    ensures data.Some? ==> log == Run(Products(data.value), Attempt(page, baseUrl), 0).entries
  {
    match data
    case None =>
      log, completed := [], false;
    case Some(cats) =>
      log := TestFile(cats, page, baseUrl);
      completed := true;
  }
}
