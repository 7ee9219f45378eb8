/** The detailed specification scraper: each product page read into a
    partial product (name, description, manufacturer, images, a
    specification table, features, documents, compatibility, part numbers,
    pricing), empty lists dropped, and the result merged over the product.
    The page is given as the texts and attributes its selectors return;
    fetching it and resolving relative URLs are parameters (`Web`). */
module ScrapeDetailedSpecs {
  import opened Wrappers
  import opened Strings
  import opened Equipment
  import opened Sequences
  import opened Traversal

  /** An `a` element: its `href` attribute and its text. */
  datatype Link = Link(href: Option<string>, text: string)

  /** A product page as the selectors see it. The regular-expression scans
      of the body text arrive as their matches: the four dimension
      captures, the captured part number of each match, and the first
      price. */
  datatype Page = Page(
    h1: string,
    title: string,
    productTitle: string,
    pageTitle: string,
    descriptionTexts: seq<string>,
    blocks: seq<string>,
    imgSrcs: seq<Option<string>>,
    rows: seq<seq<string>>,
    items: seq<string>,
    links: seq<Link>,
    compatBlocks: seq<string>,
    dimensions: Dimensions,
    partMatches: seq<string>,
    price: Option<string>)

  /** What the network answers: the page at a URL, or None when the fetch
      fails or is not `ok`; and `new URL(href, base).href`, or None when it
      throws. */
  datatype Web = Web(page: string -> Option<Page>, resolve: (string, string) -> Option<string>)

  // ---- name and description ----

  /** `a || b || ...` over strings: the first non-empty one, or the last. */
  function FirstNonEmpty(xs: seq<string>): (r: string)
    requires |xs| > 0
    ensures r == "" <==> forall k :: 0 <= k < |xs| ==> xs[k] == ""
    ensures r != "" ==> exists k :: 0 <= k < |xs| && xs[k] == r && forall k' :: 0 <= k' < k ==> xs[k'] == ""
  {
    if |xs| == 1 || xs[0] != "" then xs[0]
    else
      var r := FirstNonEmpty(xs[1..]);
      assert forall k :: 1 <= k < |xs| ==> xs[k] == xs[1..][k - 1];
      r
  }

  /** The four candidates of the product name, in order. */
  function NameCandidates(page: Page): seq<string> {
    [Trim(page.h1), Trim(Split(page.title, '|')[0]), Trim(page.productTitle), Trim(page.pageTitle)]
  }

  function NameOf(page: Page): string {
    FirstNonEmpty(NameCandidates(page))
  }

  /** A description candidate: longer than 20 characters once trimmed. */
  predicate Descriptive(text: string) {
    |Trim(text)| > 20
  }

  /** The first candidate text, in selector order, that is descriptive. */
  function DescriptionOf(texts: seq<string>): (d: Option<string>)
    ensures d.None? <==> forall k :: 0 <= k < |texts| ==> !Descriptive(texts[k])
    ensures d.Some? ==> |d.value| > 20
    ensures d.Some? ==>
      exists k :: 0 <= k < |texts| && d.value == Trim(texts[k]) && forall k' :: 0 <= k' < k ==> !Descriptive(texts[k'])
  {
    if texts == [] then None
    else if Descriptive(texts[0]) then Some(Trim(texts[0]))
    else
      var d := DescriptionOf(texts[1..]);
      assert forall k :: 1 <= k < |texts| ==> texts[k] == texts[1..][k - 1];
      d
  }

  /** The loop over the description selectors, left at the first match. */
  method FindDescription(texts: seq<string>) returns (description: Option<string>)
    ensures description == DescriptionOf(texts)
  {
    description := None;
    for k := 0 to |texts|
      invariant DescriptionOf(texts) == DescriptionOf(texts[k..])
    {
      assert texts[k..][1..] == texts[k + 1..];
      var text := Trim(texts[k]);
      if text != "" && |text| > 20 {
        description := Some(text);
        return;
      }
    }
  }

  // ---- manufacturer ----

  /** `text.split(':')[1]?.trim()`, with `undefined` as "". */
  function Segment(text: string): string {
    var parts := Split(text, ':');
    if |parts| >= 2 then Trim(parts[1]) else ""
  }

  /** The manufacturer an element names, if it names one. */
  function Named(text: string): Option<string> {
    if (Contains(text, "Manufacturer:") || Contains(text, "Brand:")) && Segment(text) != "" then Some(Segment(text)) else None
  }

  /** The manufacturer of the first element that names one. */
  function ManufacturerOf(blocks: seq<string>): Option<string> {
    if blocks == [] then None
    else
      var m := ManufacturerOf(blocks[..|blocks| - 1]);
      if m.Some? then m else Named(blocks[|blocks| - 1])
  }

  /** The manufacturer is set by the first element naming one, and later
      ones do not override it. */
  lemma {:induction false} ManufacturerFirst(blocks: seq<string>)
    ensures ManufacturerOf(blocks).None? <==> forall k :: 0 <= k < |blocks| ==> Named(blocks[k]).None?
    ensures ManufacturerOf(blocks).Some? ==>
      exists k :: 0 <= k < |blocks| && Named(blocks[k]) == ManufacturerOf(blocks) && forall k' :: 0 <= k' < k ==> Named(blocks[k']).None?
  {
    if blocks != [] {
      var init := blocks[..|blocks| - 1];
      ManufacturerFirst(init);
      assert forall k :: 0 <= k < |init| ==> init[k] == blocks[k];
      if ManufacturerOf(init).Some? {
        var k :| 0 <= k < |init| && Named(init[k]) == ManufacturerOf(init) && forall k' :: 0 <= k' < k ==> Named(init[k']).None?;
        assert Named(blocks[k]) == ManufacturerOf(blocks);
      } else {
        assert Named(blocks[|init|]) == ManufacturerOf(blocks);
      }
    }
  }

  /** The `each` over the text elements, setting the manufacturer once. */
  method FindManufacturer(blocks: seq<string>) returns (manufacturer: Option<string>)
    ensures manufacturer == ManufacturerOf(blocks)
  {
    manufacturer := None;
    for k := 0 to |blocks|
      invariant manufacturer == ManufacturerOf(blocks[..k])
    {
      assert blocks[..k + 1][..k] == blocks[..k];
      var text := blocks[k];
      if Contains(text, "Manufacturer:") || Contains(text, "Brand:") {
        var m := Segment(text);
        if m != "" && manufacturer.None? {
          manufacturer := Some(m);
        }
      }
    }
    assert blocks[..|blocks|] == blocks;
  }

  // ---- lists built element by element ----

  /** What one element contributes to a list whose construction may throw:
      nothing, one item, or an exception that abandons the page. */
  datatype Step<T> = Skip | Add(item: T) | Throw

  /** The items added, or None when some element throws. */
  function Collect<A, T>(xs: seq<A>, f: A -> Step<T>): Option<seq<T>> {
    if xs == [] then Some([])
    else match Collect(xs[..|xs| - 1], f)
      case None => None
      case Some(acc) =>
        match f(xs[|xs| - 1])
        case Skip => Some(acc)
        case Add(y) => Some(acc + [y])
        case Throw => None
  }

  /** The construction fails exactly when some element throws, and
      otherwise holds exactly the items added. */
  lemma {:induction false} CollectItems<A, T>(xs: seq<A>, f: A -> Step<T>)
    ensures Collect(xs, f).None? <==> exists k :: 0 <= k < |xs| && f(xs[k]).Throw?
    ensures Collect(xs, f).Some? ==>
      forall y :: y in Collect(xs, f).value <==> exists k :: 0 <= k < |xs| && f(xs[k]) == Add(y)
  {
    if xs != [] {
      var init := xs[..|xs| - 1];
      CollectItems(init, f);
      assert forall k :: 0 <= k < |init| ==> init[k] == xs[k];
    }
  }

  lemma CollectSnoc<A, T>(xs: seq<A>, x: A, f: A -> Step<T>)
    ensures Collect(xs + [x], f) ==
      match Collect(xs, f)
      case None => None
      case Some(acc) => (match f(x) case Skip => Some(acc) case Add(y) => Some(acc + [y]) case Throw => None)
  {
    assert (xs + [x])[..|xs|] == xs;
  }

  /** Once an element has thrown, the rest of the elements do not matter. */
  lemma {:induction false} CollectAbandoned<A, T>(xs: seq<A>, f: A -> Step<T>, k: nat)
    requires k <= |xs| && Collect(xs[..k], f).None?
    ensures Collect(xs, f).None?
    decreases |xs| - k
  {
    if k < |xs| {
      assert xs[..k + 1][..k] == xs[..k];
      CollectAbandoned(xs, f, k + 1);
    } else {
      assert xs[..k] == xs;
    }
  }

  /** `src` as an absolute URL: kept when it starts with `http`, otherwise
      resolved against the page URL. */
  function FullUrl(src: string, url: string, resolve: (string, string) -> Option<string>): Option<string> {
    if StartsWith(src, "http") then Some(src) else resolve(src, url)
  }

  // ---- images ----

  /** A `src` worth keeping: present, non-empty, no spacer or blank. */
  predicate UsableSrc(src: Option<string>) {
    Truthy(src) && !Contains(src.value, "spacer") && !Contains(src.value, "blank")
  }

  function ImageStep(url: string, resolve: (string, string) -> Option<string>): Option<string> -> Step<string> {
    (src: Option<string>) =>
      if !UsableSrc(src) then Skip
      else match FullUrl(src.value, url, resolve)
        case None => Throw
        case Some(u) => Add(u)
  }

  /** `productData.images` after the `img` loop: the absolute URLs without
      repeats, or None when resolving one throws. */
  function ImagesOf(srcs: seq<Option<string>>, url: string, resolve: (string, string) -> Option<string>): Option<seq<string>> {
    match Collect(srcs, ImageStep(url, resolve))
    case None => None
    case Some(all) => Some(Dedup(all))
  }

  /** The `img` loop, pushing each URL not already present. */
  method CollectImages(srcs: seq<Option<string>>, url: string, resolve: (string, string) -> Option<string>)
    returns (images: Option<seq<string>>)
    ensures images == ImagesOf(srcs, url, resolve)
  {
    var step := ImageStep(url, resolve);
    var list: seq<string> := [];
    ghost var all: seq<string> := [];
    for k := 0 to |srcs|
      invariant Collect(srcs[..k], step) == Some(all)
      invariant list == Dedup(all)
    {
      CollectSnoc(srcs[..k], srcs[k], step);
      assert srcs[..k + 1] == srcs[..k] + [srcs[k]];
      var src := srcs[k];
      if UsableSrc(src) {
        var full := FullUrl(src.value, url, resolve);
        if full.None? {
          CollectAbandoned(srcs, step, k + 1);
          return None;
        }
        DedupSnoc(all, full.value);
        if full.value !in list {
          list := list + [full.value];
        }
        all := all + [full.value];
      }
    }
    assert srcs[..|srcs|] == srcs;
    images := Some(list);
  }

  // ---- specifications ----

  /** The entry a table row gives: its first two cells trimmed, when the
      row has two cells, both are non-empty and the key is shorter than
      100 characters. */
  function SpecEntry(cells: seq<string>): Option<(string, SpecValue)> {
    if |cells| < 2 then None
    else
      var key := Trim(cells[0]);
      var value := Trim(cells[1]);
      if key != "" && value != "" && |key| < 100 then Some((key, Text(value))) else None
  }

  /** `productData.specifications` after the table loops. */
  function SpecsFrom(rows: seq<seq<string>>): map<string, SpecValue> {
    SpecsOf(Pick(rows, SpecEntry))
  }

  /** Every key of the object was set by some entry, and holds the value of
      the last entry with that key. */
  lemma {:induction false} SpecsOfLastWins(entries: seq<(string, SpecValue)>)
    ensures forall key :: key in SpecsOf(entries) ==>
      exists i :: 0 <= i < |entries| && entries[i] == (key, SpecsOf(entries)[key])
        && forall i' :: i < i' < |entries| ==> entries[i'].0 != key
  {
    if entries != [] {
      var n := |entries| - 1;
      var init := entries[..n];
      SpecsOfLastWins(init);
      assert forall i :: 0 <= i < n ==> init[i] == entries[i];
      forall key | key in SpecsOf(entries)
        ensures exists i :: 0 <= i < |entries| && entries[i] == (key, SpecsOf(entries)[key]) && forall i' :: i < i' < |entries| ==> entries[i'].0 != key
      {
        if key != entries[n].0 {
          var i :| 0 <= i < n && init[i] == (key, SpecsOf(init)[key])
            && forall i' :: i < i' < n ==> init[i'].0 != key;
          assert entries[i] == (key, SpecsOf(entries)[key]);
        } else {
          assert entries[n] == (key, SpecsOf(entries)[key]);
        }
      }
    }
  }

  /** A key is in the specifications exactly when some accepted row has it,
      and its value is the value of an accepted row with that key; every
      key is non-empty and shorter than 100 characters, and every value is
      non-empty. */
  lemma SpecsFromRows(rows: seq<seq<string>>)
    ensures forall key :: key in SpecsFrom(rows) <==>
      exists r :: 0 <= r < |rows| && SpecEntry(rows[r]).Some? && SpecEntry(rows[r]).value.0 == key
    ensures forall key :: key in SpecsFrom(rows) ==>
      exists r :: 0 <= r < |rows| && SpecEntry(rows[r]) == Some((key, SpecsFrom(rows)[key]))
    ensures forall key :: key in SpecsFrom(rows) ==>
      key != "" && |key| < 100 && SpecsFrom(rows)[key].Text? && SpecsFrom(rows)[key].text != ""
  {
    SpecsOfPicked(rows, SpecEntry);
    forall key | key in SpecsFrom(rows)
      ensures key != "" && |key| < 100 && SpecsFrom(rows)[key].Text? && SpecsFrom(rows)[key].text != ""
    {
      var r :| 0 <= r < |rows| && SpecEntry(rows[r]) == Some((key, SpecsFrom(rows)[key]));
    }
  }

  /** The object built from the entries that f picks out of the rows: a key
      is present exactly when some row gives it, and holds the value of a
      row that gives it. */
  lemma {:induction false} SpecsOfPicked<A>(rows: seq<A>, f: A -> Option<(string, SpecValue)>)
    ensures forall key :: key in SpecsOf(Pick(rows, f)) <==>
      exists r :: 0 <= r < |rows| && f(rows[r]).Some? && f(rows[r]).value.0 == key
    ensures forall key :: key in SpecsOf(Pick(rows, f)) ==>
      exists r :: 0 <= r < |rows| && f(rows[r]) == Some((key, SpecsOf(Pick(rows, f))[key]))
  {
    if rows != [] {
      var n := |rows| - 1;
      var init := rows[..n];
      SpecsOfPicked(init, f);
      PickSnoc(init, rows[n], f);
      assert rows == init + [rows[n]];
      assert forall r :: 0 <= r < n ==> init[r] == rows[r];
      var es := Pick(init, f);
      if f(rows[n]).Some? {
        var e := f(rows[n]).value;
        assert (es + [e])[..|es|] == es;
        assert SpecsOf(Pick(rows, f)) == SpecsOf(es)[e.0 := e.1];
      }
    }
  }

  /** The loops over tables and rows, each accepted row setting its key. */
  method CollectSpecs(rows: seq<seq<string>>) returns (specs: map<string, SpecValue>)
    ensures specs == SpecsFrom(rows)
  {
    specs := map[];
    for k := 0 to |rows|
      invariant specs == SpecsFrom(rows[..k])
    {
      PickSnoc(rows[..k], rows[k], SpecEntry);
      assert rows[..k + 1] == rows[..k] + [rows[k]];
      var cells := rows[k];
      if |cells| >= 2 {
        var key := Trim(cells[0]);
        var value := Trim(cells[1]);
        if key != "" && value != "" && |key| < 100 {
          ghost var entries := Pick(rows[..k], SpecEntry);
          assert entries + [(key, Text(value))] == Pick(rows[..k + 1], SpecEntry);
          assert (entries + [(key, Text(value))])[..|entries|] == entries;
          specs := specs[key := Text(value)];
        }
      }
    }
    assert rows[..|rows|] == rows;
  }

  // ---- features, compatibility, part numbers ----

  /** A list item kept as a feature: its trimmed text, when longer than 10
      and shorter than 500 characters. */
  function Feature(item: string): Option<string> {
    var text := Trim(item);
    if text != "" && |text| > 10 && |text| < 500 then Some(text) else None
  }

  /** Every feature is the trimmed text of a list item, of 11 to 499
      characters. */
  lemma FeaturesBounded(items: seq<string>)
    ensures forall f :: f in Pick(items, Feature) ==> 10 < |f| < 500 && exists k :: 0 <= k < |items| && f == Trim(items[k])
  {
    PickItems(items, Feature);
  }

  /** The loop over `ul li, ol li`. */
  method CollectFeatures(items: seq<string>) returns (features: seq<string>)
    ensures features == Pick(items, Feature)
  {
    features := [];
    for k := 0 to |items|
      invariant features == Pick(items[..k], Feature)
    {
      PickSnoc(items[..k], items[k], Feature);
      assert items[..k + 1] == items[..k] + [items[k]];
      var text := Trim(items[k]);
      if text != "" && |text| > 10 && |text| < 500 {
        features := features + [text];
      }
    }
    assert items[..|items|] == items;
  }

  /** One of the compatibility phrases occurs in the lower-cased text. */
  predicate MentionsFit(lower: string) {
    Contains(lower, "compatible with") || Contains(lower, "works with") || Contains(lower, "fits") || Contains(lower, "designed for")
  }

  /** An element kept as compatibility information: its trimmed text, when
      its text mentions a phrase and is shorter than 500 characters once
      trimmed. The source tries each phrase in turn but pushes a text only
      once, so trying them together gives the same list. */
  function Compatible(text: string): Option<string> {
    if MentionsFit(Lower(text)) && |Trim(text)| < 500 then Some(Trim(text)) else None
  }

  /** The loop over `p, li, div`, pushing each text not already present. */
  method CollectCompatibility(blocks: seq<string>) returns (compatibility: seq<string>)
    ensures compatibility == Dedup(Pick(blocks, Compatible))
  {
    compatibility := [];
    for k := 0 to |blocks|
      invariant compatibility == Dedup(Pick(blocks[..k], Compatible))
    {
      PickSnoc(blocks[..k], blocks[k], Compatible);
      assert blocks[..k + 1] == blocks[..k] + [blocks[k]];
      var text := blocks[k];
      if MentionsFit(Lower(text)) {
        var compatText := Trim(text);
        if |compatText| < 500 {
          DedupSnoc(Pick(blocks[..k], Compatible), compatText);
          if compatText !in compatibility {
            compatibility := compatibility + [compatText];
          }
        }
      }
    }
    assert blocks[..|blocks|] == blocks;
  }

  /** A part number match kept: the trimmed capture, when non-empty. */
  function PartNumber(capture: string): Option<string> {
    if Trim(capture) != "" then Some(Trim(capture)) else None
  }

  /** The `exec` loop over the part number matches. */
  method CollectPartNumbers(captures: seq<string>) returns (partNumbers: seq<string>)
    ensures partNumbers == Dedup(Pick(captures, PartNumber))
  {
    partNumbers := [];
    var k := 0;
    while k < |captures|
      invariant 0 <= k <= |captures|
      invariant partNumbers == Dedup(Pick(captures[..k], PartNumber))
    {
      PickSnoc(captures[..k], captures[k], PartNumber);
      assert captures[..k + 1] == captures[..k] + [captures[k]];
      var partNum := Trim(captures[k]);
      if partNum != "" {
        DedupSnoc(Pick(captures[..k], PartNumber), partNum);
        if partNum !in partNumbers {
          partNumbers := partNumbers + [partNum];
        }
      }
      k := k + 1;
    }
    assert captures[..|captures|] == captures;
  }

  // ---- documents ----

  /** A link that looks like a document: a `.pdf` href, or one that
      mentions a manual, a spec or a datasheet in any case. */
  predicate DocumentHref(href: string) {
    EndsWith(href, ".pdf") || Contains(Lower(href), "manual") || Contains(Lower(href), "spec") || Contains(Lower(href), "datasheet")
  }

  /** The document type from the link text: a manual, a brochure, else a
      PDF; `doc` is never chosen. */
  function DocTypeOf(text: string): (t: DocType)
    ensures t != Doc
  {
    var lower := Lower(text);
    if Contains(lower, "manual") then Manual
    else if Contains(lower, "brochure") then Brochure
    else Pdf
  }

  function DocumentStep(url: string, resolve: (string, string) -> Option<string>): Link -> Step<Document> {
    (link: Link) =>
      if !Truthy(link.href) || !DocumentHref(link.href.value) then Skip
      else match FullUrl(link.href.value, url, resolve)
        case None => Throw
        case Some(u) =>
          var text := Trim(link.text);
          Add(Document(if text != "" then text else "Document", u, DocTypeOf(text)))
  }

  /** Every document has a non-empty name, an absolute or resolved URL,
      and a type other than `doc`. */
  lemma DocumentsNamed(links: seq<Link>, url: string, resolve: (string, string) -> Option<string>)
    requires Collect(links, DocumentStep(url, resolve)).Some?
    ensures forall d :: d in Collect(links, DocumentStep(url, resolve)).value ==>
      d.name != "" && d.docType != Doc &&
      exists k :: 0 <= k < |links| && Truthy(links[k].href) && DocumentHref(links[k].href.value)
        && FullUrl(links[k].href.value, url, resolve) == Some(d.url)
  {
    CollectItems(links, DocumentStep(url, resolve));
  }

  /** The loop over `a`. */
  method CollectDocuments(links: seq<Link>, url: string, resolve: (string, string) -> Option<string>)
    returns (documents: Option<seq<Document>>)
    ensures documents == Collect(links, DocumentStep(url, resolve))
  {
    var step := DocumentStep(url, resolve);
    var list: seq<Document> := [];
    for k := 0 to |links|
      invariant Collect(links[..k], step) == Some(list)
    {
      CollectSnoc(links[..k], links[k], step);
      assert links[..k + 1] == links[..k] + [links[k]];
      var href := links[k].href;
      var text := Trim(links[k].text);
      if Truthy(href) && DocumentHref(href.value) {
        var full := FullUrl(href.value, url, resolve);
        if full.None? {
          CollectAbandoned(links, step, k + 1);
          return None;
        }
        var docType := DocTypeOf(text);
        list := list + [Document(if text != "" then text else "Document", full.value, docType)];
      }
    }
    assert links[..|links|] == links;
    documents := Some(list);
  }

  // ---- the page as a whole ----

  /** `Partial<DetailedProduct>`: the url, and each field the page
      supplied. */
  datatype Scraped = Scraped(
    url: string,
    name: Option<string>,
    description: Option<string>,
    manufacturer: Option<string>,
    image: Option<string>,
    images: Option<seq<string>>,
    specifications: Option<map<string, SpecValue>>,
    features: Option<seq<string>>,
    technicalDetails: Option<seq<string>>,
    dimensions: Option<Dimensions>,
    pricing: Option<Pricing>,
    compatibility: Option<seq<string>>,
    partNumbers: Option<seq<string>>,
    documents: Option<seq<Document>>)

  /** `{ url }`, what a failed page gives. */
  function OnlyUrl(url: string): Scraped {
    Scraped(url, None, None, None, None, None, None, None, None, None, None, None, None, None)
  }

  /** The clean-up of an empty list: the field is deleted. */
  function Kept<T>(xs: seq<T>): (r: Option<seq<T>>)
    ensures r.None? <==> xs == []
    ensures r.Some? ==> r.value == xs
  {
    if |xs| == 0 then None else Some(xs)
  }

  function KeptSpecs(specs: map<string, SpecValue>): (r: Option<map<string, SpecValue>>)
    ensures r.None? <==> |specs| == 0
    ensures r.Some? ==> r.value == specs
  {
    if |specs| == 0 then None else Some(specs)
  }

  const PricingNote := "Contact for current pricing"

  /** The price found, with the fixed note; no price, no pricing. */
  function PricingOf(price: Option<string>): (r: Option<Pricing>)
    ensures r.Some? <==> price.Some?
    ensures r.Some? ==> r.value.msrp == price && r.value.note == Some(PricingNote)
  {
    if price.Some? then Some(Pricing(price, Some(PricingNote))) else None
  }

  /** `productData` of a page whose images and documents resolved. */
  function FromPage(url: string, page: Page, images: seq<string>, documents: seq<Document>): Scraped {
    Scraped(url,
      Some(NameOf(page)),
      DescriptionOf(page.descriptionTexts),
      ManufacturerOf(page.blocks),
      if |images| > 0 then Some(images[0]) else None,
      Kept(images),
      KeptSpecs(SpecsFrom(page.rows)),
      Kept(Pick(page.items, Feature)),
      Some([]),
      Some(page.dimensions),
      PricingOf(page.price),
      Kept(Dedup(Pick(page.compatBlocks, Compatible))),
      Kept(Dedup(Pick(page.partMatches, PartNumber))),
      Kept(documents))
  }

  /** `scrapeProductPage`: the url alone when the page cannot be fetched or
      a URL on it cannot be resolved. */
  function Scrape(url: string, web: Web): Scraped {
    match web.page(url)
    case None => OnlyUrl(url)
    case Some(page) =>
      match (ImagesOf(page.imgSrcs, url, web.resolve), Collect(page.links, DocumentStep(url, web.resolve)))
      case (Some(images), Some(documents)) => FromPage(url, page, images, documents)
      case _ => OnlyUrl(url)
  }

  /** `scrapeProductPage`, section by section. */
  method ScrapeProductPage(url: string, web: Web) returns (r: Scraped)
    ensures r == Scrape(url, web)
  {
    var fetched := web.page(url);
    if fetched.None? {
      return OnlyUrl(url);
    }
    var page := fetched.value;
    var name := NameOf(page);
    var description := FindDescription(page.descriptionTexts);
    var manufacturer := FindManufacturer(page.blocks);
    var images := CollectImages(page.imgSrcs, url, web.resolve);
    if images.None? {
      return OnlyUrl(url);
    }
    var specs := CollectSpecs(page.rows);
    var features := CollectFeatures(page.items);
    var partNumbers := CollectPartNumbers(page.partMatches);
    var documents := CollectDocuments(page.links, url, web.resolve);
    if documents.None? {
      return OnlyUrl(url);
    }
    var compatibility := CollectCompatibility(page.compatBlocks);
    var imgs := images.value;
    r := Scraped(url, Some(name), description, manufacturer,
      if |imgs| > 0 then Some(imgs[0]) else None,
      Kept(imgs), KeptSpecs(specs), Kept(features), Some([]), Some(page.dimensions),
      PricingOf(page.price), Kept(compatibility), Kept(partNumbers), Kept(documents.value));
  }

  /** A page that cannot be fetched, or on which an image or document URL
      cannot be resolved, gives the url alone. */
  lemma ScrapeFails(url: string, web: Web)
    ensures web.page(url).None? ==> Scrape(url, web) == OnlyUrl(url)
    ensures web.page(url).Some? ==>
      var page := web.page(url).value;
      (Scrape(url, web) == OnlyUrl(url) <==>
        ((exists k :: 0 <= k < |page.imgSrcs| && ImageStep(url, web.resolve)(page.imgSrcs[k]).Throw?)
        || (exists k :: 0 <= k < |page.links| && DocumentStep(url, web.resolve)(page.links[k]).Throw?)))
  {
    if web.page(url).Some? {
      var page := web.page(url).value;
      CollectItems(page.imgSrcs, ImageStep(url, web.resolve));
      CollectItems(page.links, DocumentStep(url, web.resolve));
    }
  }

  /** After the clean-up no list and no table is present but empty; the
      main image is the first of the images, which have no repeats; and
      the technical details and dimensions are always present. */
  lemma FromPageCleaned(url: string, page: Page, images: seq<string>, documents: seq<Document>)
    requires NoDuplicates(images)
    ensures var r := FromPage(url, page, images, documents);
      && r.name.Some?
      && (r.images.Some? ==> r.images.value != [] && NoDuplicates(r.images.value))
      && (r.image.Some? <==> r.images.Some?)
      && (r.image.Some? ==> r.image.value == r.images.value[0])
      && (r.specifications.Some? ==> |r.specifications.value| > 0)
      && (r.features.Some? ==> r.features.value != [])
      && (r.compatibility.Some? ==> r.compatibility.value != [] && NoDuplicates(r.compatibility.value))
      && (r.partNumbers.Some? ==> r.partNumbers.value != [] && NoDuplicates(r.partNumbers.value))
      && (r.documents.Some? ==> r.documents.value != [])
      && r.technicalDetails == Some([]) && r.dimensions.Some?
      && (r.description.Some? ==> |r.description.value| > 20)
  {
  }

  /** Every page that scrapes gives a cleaned record. */
  lemma ScrapeCleaned(url: string, web: Web)
    requires Scrape(url, web) != OnlyUrl(url)
    ensures web.page(url).Some?
    ensures var page := web.page(url).value;
      && ImagesOf(page.imgSrcs, url, web.resolve).Some?
      && Collect(page.links, DocumentStep(url, web.resolve)).Some?
      && NoDuplicates(ImagesOf(page.imgSrcs, url, web.resolve).value)
      && Scrape(url, web) == FromPage(url, page, ImagesOf(page.imgSrcs, url, web.resolve).value,
           Collect(page.links, DocumentStep(url, web.resolve)).value)
  {
  }

  // ---- merging into the product, and the files ----

  /** `Object.assign(product, { ...product, ...detailed })`: every field the
      page supplied replaces the product's, the others are kept. */
  function Merge(p: Product, d: Scraped): Product {
    p.(url := Some(d.url),
       name := d.name.GetOr(p.name),
       description := d.description.GetOr(p.description),
       manufacturer := OrElse(d.manufacturer, p.manufacturer),
       image := OrElse(d.image, p.image),
       images := OrElse(d.images, p.images),
       specifications := OrElse(d.specifications, p.specifications),
       features := OrElse(d.features, p.features),
       technicalDetails := OrElse(d.technicalDetails, p.technicalDetails),
       dimensions := OrElse(d.dimensions, p.dimensions),
       pricing := OrElse(d.pricing, p.pricing),
       compatibility := OrElse(d.compatibility, p.compatibility),
       partNumbers := OrElse(d.partNumbers, p.partNumbers),
       documents := OrElse(d.documents, p.documents))
  }

  /** A failed page leaves the product as it was, and merging the same
      data twice is merging it once. */
  lemma MergeLaws(p: Product, d: Scraped)
    ensures Truthy(p.url) ==> Merge(p, OnlyUrl(p.url.value)) == p
    ensures Merge(Merge(p, d), d) == Merge(p, d)
  {
  }

  /** A product is scraped when its url is present and non-empty. */
  predicate HasUrl(p: Product) {
    Truthy(p.url)
  }

  /** One product of `enhanceDataFile`. */
  function Enhanced(web: Web): Product -> Product {
    p => if HasUrl(p) then Merge(p, Scrape(p.url.value, web)) else p
  }

  /** A fetched page replaces the product's name, even by an empty one
      when the page has no title, and always empties its technical
      details and replaces its dimensions. */
  lemma EnhancedOverwrites(p: Product, web: Web)
    requires HasUrl(p) && Scrape(p.url.value, web) != OnlyUrl(p.url.value)
    ensures var page := web.page(p.url.value).value;
      && Enhanced(web)(p).name == NameOf(page)
      && (NameOf(page) == "" <==> forall k :: 0 <= k < 4 ==> NameCandidates(page)[k] == "")
      && Enhanced(web)(p).technicalDetails == Some([])
      && Enhanced(web)(p).dimensions == Some(page.dimensions)
  {
  }

  /** Enhancing the written file again with the same pages changes
      nothing: the url it reads is kept. */
  lemma EnhancedTwice(p: Product, web: Web)
    ensures Enhanced(web)(Enhanced(web)(p)) == Enhanced(web)(p)
  {
    if HasUrl(p) {
      MergeLaws(p, Scrape(p.url.value, web));
    }
  }

  /** One product of the loop: skipped without a url, otherwise merged
      with its page and counted. */
  method EnhanceProduct(product: Product, web: Web) returns (q: Product, processed: bool)
    ensures q == Enhanced(web)(product)
    ensures processed == HasUrl(product)
  {
    if !Truthy(product.url) {
      return product, false;
    }
    var detailed := ScrapeProductPage(product.url.value, web);
    q := Merge(product, detailed);
    processed := true;
  }

  /** The loop over one category's products. */
  method EnhanceCategory(ps: seq<Product>, web: Web) returns (qs: seq<Product>, processed: nat, errors: nat)
    ensures MappedProducts(qs, ps, Enhanced(web), |ps|)
    ensures processed == CountIn(ps, HasUrl)
    ensures errors == 0
  {
    qs := ps;
    processed := 0;
    errors := 0;
    for j := 0 to |ps|
      invariant MappedProducts(qs, ps, Enhanced(web), j)
      invariant processed == CountIn(ps[..j], HasUrl)
      invariant errors == 0
    {
      CountInStep(ps, j, HasUrl);
      var q, done := EnhanceProduct(qs[j], web);
      MappedProductsNext(qs, ps, Enhanced(web), j, q);
      qs := qs[j := q];
      if done {
        processed := processed + 1;
      }
    }
    assert ps[..|ps|] == ps;
  }

  /** `enhanceDataFile` on a parsed file: every product with a url merged
      with its page and counted; `scrapeProductPage` catches everything, so
      no error is ever counted. */
  method EnhanceDataFile(cats: seq<Category>, web: Web) returns (out: seq<Category>, processedCount: nat, errorCount: nat)
    ensures out == MapAll(cats, Enhanced(web))
    ensures processedCount == CountWhere(cats, HasUrl)
    ensures errorCount == 0
  {
    out := cats;
    processedCount := 0;
    errorCount := 0;
    for i := 0 to |cats|
      invariant MappedCategories(out, cats, Enhanced(web), i)
      invariant processedCount == CountWhere(cats[..i], HasUrl)
      invariant errorCount == 0
    {
      var qs, processed, errors := EnhanceCategory(out[i].subcategories, web);
      MappedCategoriesNext(out, cats, Enhanced(web), i, qs);
      CountWhereStep(cats, i, HasUrl);
      out := out[i := out[i].(subcategories := qs)];
      processedCount := processedCount + processed;
      errorCount := errorCount + errors;
    }
    MappedCategoriesDone(out, cats, Enhanced(web));
    assert cats[..|cats|] == cats;
  }

  /** Running the script on its own output with the same pages writes the
      same catalog. */
  lemma EnhanceFileTwice(cats: seq<Category>, web: Web)
    ensures MapAll(MapAll(cats, Enhanced(web)), Enhanced(web)) == MapAll(cats, Enhanced(web))
  {
    forall p ensures Enhanced(web)(Enhanced(web)(p)) == Enhanced(web)(p) {
      EnhancedTwice(p, web);
    }
    MapAllTwice(cats, Enhanced(web));
  }

  /** `filePath.replace('.json', '-detailed.json')` */
  function OutputPath(filePath: string): string {
    ReplaceFirst(filePath, ".json", "-detailed.json")
  }

  /** A path holding `.json` is written beside itself, nine characters
      longer, never over itself; one without it would be written over
      itself. */
  lemma OutputPathBeside(filePath: string)
    ensures Contains(filePath, ".json") ==> |OutputPath(filePath)| == |filePath| + 9 && OutputPath(filePath) != filePath
    ensures !Contains(filePath, ".json") ==> OutputPath(filePath) == filePath
  {
    var found := IndexOf(filePath, ".json");
    if found.Some? {
      var i := found.value;
      assert OccursAt(filePath, ".json", i);
      assert |OutputPath(filePath)| == i + 14 + (|filePath| - (i + 5));
    }
  }

  /** The four catalog files, in order. */
  const DataFiles := ["equipment.json", "accessories.json", "supplies.json", "parts.json"]

  /** The products processed in the files that were read. */
  function ProcessedIn(files: seq<Option<seq<Category>>>): nat {
    if files == [] then 0
    else ProcessedIn(files[..|files| - 1]) + (match files[|files| - 1] case None => 0 case Some(cats) => CountWhere(cats, HasUrl))
  }

  /** The file each read file is written to, with its contents. */
  function Written(names: seq<string>, files: seq<Option<seq<Category>>>, web: Web): seq<(string, seq<Category>)>
    requires |names| == |files|
  {
    if files == [] then []
    else
      var n := |files| - 1;
      Written(names[..n], files[..n], web) + (match files[n] case None => [] case Some(cats) => [(OutputPath(names[n]), MapAll(cats, Enhanced(web)))])
  }

  /** `main`: each file in turn; one that cannot be read or parsed (None)
      is reported and skipped, the others are written to their
      `-detailed.json` names and their counts added up. */
  method EnhanceAll(names: seq<string>, files: seq<Option<seq<Category>>>, web: Web)
    returns (writes: seq<(string, seq<Category>)>, totalProcessed: nat, totalErrors: nat)
    requires |names| == |files|
    ensures writes == Written(names, files, web)
    ensures totalProcessed == ProcessedIn(files)
    ensures totalErrors == 0
  {
    writes := [];
    totalProcessed := 0;
    totalErrors := 0;
    for f := 0 to |files|
      invariant writes == Written(names[..f], files[..f], web)
      invariant totalProcessed == ProcessedIn(files[..f])
      invariant totalErrors == 0
    {
      assert files[..f + 1][..f] == files[..f];
      assert names[..f + 1][..f] == names[..f];
      match files[f]
      case None =>
      case Some(cats) =>
        var out, processedCount, errorCount := EnhanceDataFile(cats, web);
        writes := writes + [(OutputPath(names[f]), out)];
        totalProcessed := totalProcessed + processedCount;
        totalErrors := totalErrors + errorCount;
    }
    assert files[..|files|] == files;
    assert names[..|names|] == names;
  }

  /** The four outputs are the `-detailed.json` names, none of them an
      input. */
  lemma DataFilesOutputs()
    ensures forall k :: 0 <= k < |DataFiles| ==> OutputPath(DataFiles[k]) != DataFiles[k]
  {
    forall k | 0 <= k < |DataFiles|
      ensures OutputPath(DataFiles[k]) != DataFiles[k]
    {
      var name := DataFiles[k];
      assert OccursAt(name, ".json", |name| - 5);
      OutputPathBeside(name);
    }
  }
}
