/** Backfilling product specifications by category: the category is read
    off the product's text with an ordered keyword table, and only the
    fields a product lacks are filled from that category's entry. */
module EnhanceAllProducts {
  import opened Wrappers
  import opened Strings
  import opened Equipment
  import opened Traversal

  /** The keys of `specsByCategory`, in declaration order. */
  const CategoryTags: seq<string> := ["darkroom", "exam-room", "portable-xray", "radiation-protection", "cassettes", "positioning", "mri", "ultrasound", "supplies", "xray-parts", "grids"]

  /** The entry of `specsByCategory` for the i-th key. */
  function CategoryBundle(i: nat): Bundle
    requires i < |CategoryTags|
  {
    if i == 0 then Bundle(
      Some(SpecsOf([
          ("Type", Text("Darkroom Processing Equipment")),
          ("Power Requirements", Text("115V AC, 60Hz")),
          ("Operating Environment", Text("68-75°F, 30-60% humidity")),
          ("Certification", Text("FDA Approved")),
          ("Installation", Text("Professional installation recommended"))])),
      Some([
          "Professional-grade darkroom equipment",
          "Reliable and consistent performance",
          "Easy to operate and maintain",
          "Compatible with standard X-ray processing",
          "Durable construction for long service life",
          "Energy-efficient operation"]),
      Some(Dimensions(None, None, None, Some("25-200 lbs depending on model"))),
      None,
      None)
    else if i == 1 then Bundle(
      Some(SpecsOf([
          ("Type", Text("Medical Exam Room Equipment")),
          ("Material", Text("Medical-grade stainless steel and vinyl")),
          ("Load Capacity", Text("300-500 lbs")),
          ("Adjustment Range", Text("Multiple height positions")),
          ("Wheels", Text("Locking casters for mobility"))])),
      Some([
          "Ergonomic design for patient comfort",
          "Easy to clean and sanitize",
          "Durable medical-grade construction",
          "Stable and secure for patient safety",
          "Easy height adjustment",
          "Smooth-rolling lockable casters"]),
      Some(Dimensions(None, None, None, Some("50-150 lbs"))),
      None,
      None)
    else if i == 2 then Bundle(
      Some(SpecsOf([
          ("Generator Type", Text("High Frequency")),
          ("Power Output", Text("60-100 kHp")),
          ("kVp Range", Text("40-110 kVp")),
          ("mA Range", Text("10-200 mA")),
          ("Exposure Time", Text("0.001-6.3 seconds")),
          ("Power Input", Text("115V or 230V, 50/60Hz")),
          ("Battery Life", Text("150-300 exposures per charge")),
          ("Portability", Text("Lightweight, wheeled design"))])),
      Some([
          "High-frequency generator for superior image quality",
          "Lightweight and highly portable",
          "Long battery life for mobile use",
          "Digital-ready with modern interfaces",
          "Intuitive controls and LCD display",
          "Quick charge capability",
          "CE marked and FDA approved"]),
      Some(Dimensions(None, None, None, Some("30-60 lbs"))),
      None,
      None)
    else if i == 3 then Bundle(
      Some(SpecsOf([
          ("Lead Equivalence", Text("0.25mm - 0.5mm Pb")),
          ("Protection Level", Text("Front and back protection")),
          ("Material", Text("Lead-free or traditional lead")),
          ("Sizes Available", Text("XS, S, M, L, XL, XXL")),
          ("Compliance", Text("Meets ASTM standards"))])),
      Some([
          "Provides optimal radiation protection",
          "Comfortable for extended wear",
          "Lightweight design reduces fatigue",
          "Easy to clean and maintain",
          "Available in multiple sizes",
          "Durable construction for long service life"]),
      Some(Dimensions(None, None, None, Some("3-15 lbs depending on size"))),
      None,
      None)
    else if i == 4 then Bundle(
      Some(SpecsOf([
          ("Type", Text("Radiographic Cassette")),
          ("Sizes Available", Text("8x10\", 10x12\", 11x14\", 14x17\"")),
          ("Screen Type", Text("Rare earth or standard")),
          ("Compatibility", Text("CR, DR, or Film")),
          ("Closure", Text("Multi-point locking system")),
          ("Material", Text("Lightweight carbon fiber or aluminum"))])),
      Some([
          "Precision-manufactured for image quality",
          "Light-tight design prevents fogging",
          "Durable construction withstands daily use",
          "Easy to clean and maintain",
          "Compatible with standard holders",
          "Excellent screen-film contact"]),
      Some(Dimensions(None, None, None, Some("2-5 lbs per cassette"))),
      None,
      None)
    else if i == 5 then Bundle(
      Some(SpecsOf([
          ("Type", Text("Patient Positioning Aid")),
          ("Material", Text("Medical-grade foam or plastic")),
          ("Density", Text("Firm support")),
          ("Radiolucent", Text("Yes - minimal image interference")),
          ("Cleaning", Text("Wipe-clean surfaces"))])),
      Some([
          "Comfortable patient positioning",
          "Radiolucent - won't interfere with imaging",
          "Easy to clean and disinfect",
          "Durable for frequent use",
          "Lightweight and easy to handle",
          "Non-slip surfaces for safety"]),
      Some(Dimensions(None, None, None, Some("1-10 lbs"))),
      None,
      None)
    else if i == 6 then Bundle(
      Some(SpecsOf([
          ("MRI Safe", Text("Yes - no ferromagnetic materials")),
          ("Field Strength", Text("Safe up to 3T")),
          ("Material", Text("Non-magnetic materials only")),
          ("Certification", Text("MRI safety tested"))])),
      Some([
          "MRI-safe - no ferromagnetic components",
          "Designed for high-field MRI environments",
          "Easy to clean and maintain",
          "Patient-friendly design",
          "Durable construction",
          "Meets all MRI safety standards"]),
      None,
      None,
      None)
    else if i == 7 then Bundle(
      Some(SpecsOf([
          ("Type", Text("Ultrasound Accessory")),
          ("Compatibility", Text("Universal - works with all systems")),
          ("Material", Text("Medical-grade materials")),
          ("Sterile", Text("Sterile or non-sterile options available"))])),
      Some([
          "Compatible with all ultrasound systems",
          "Medical-grade quality",
          "Easy to use",
          "Cost-effective solution",
          "Reliable performance"]),
      None,
      None,
      None)
    else if i == 8 then Bundle(
      Some(SpecsOf([
          ("Type", Text("Medical Imaging Supply")),
          ("Packaging", Text("Convenient packaging for daily use")),
          ("Shelf Life", Text("1-3 years")),
          ("Storage", Text("Room temperature storage"))])),
      Some([
          "High-quality medical supply",
          "Easy to use and apply",
          "Cost-effective for high-volume use",
          "Reliable and consistent",
          "Convenient packaging"]),
      None,
      None,
      None)
    else if i == 9 then Bundle(
      Some(SpecsOf([
          ("Type", Text("X-Ray System Component")),
          ("Compatibility", Text("Multiple manufacturers")),
          ("Quality", Text("OEM equivalent or better")),
          ("Warranty", Text("90-day to 1-year warranty"))])),
      Some([
          "High-quality replacement part",
          "OEM equivalent performance",
          "Easy installation",
          "Reliable and durable",
          "Cost-effective alternative",
          "Technical support available"]),
      None,
      None,
      None)
    else Bundle(
      Some(SpecsOf([
          ("Grid Ratio", Text("5:1, 6:1, 8:1, 10:1, 12:1, 15:1")),
          ("Grid Type", Text("Focused or Parallel")),
          ("Grid Frequency", Text("40-60 lines/cm, 80-103 lines/inch")),
          ("Material", Text("Aluminum or carbon fiber")),
          ("Focal Distance", Text("Various - specify when ordering"))])),
      Some([
          "Improves image contrast and quality",
          "Reduces scatter radiation",
          "Precision-manufactured grid lines",
          "Available in multiple ratios",
          "Lightweight construction",
          "Long service life"]),
      Some(Dimensions(None, None, None, Some("2-8 lbs depending on size"))),
      None,
      None)
  }

  /** The position of x in xs, or |xs| when it is absent. */
  function IndexIn(xs: seq<string>, x: string): (i: nat)
    ensures i <= |xs|
    ensures i < |xs| ==> xs[i] == x
    ensures i == |xs| <==> x !in xs
  {
    if xs == [] then 0 else if xs[0] == x then 0 else 1 + IndexIn(xs[1..], x)
  }

  /** `specsByCategory[tag]`: the entry of a known category, None for any
      other string. */
  function SpecsByCategory(tag: string): (b: Option<Bundle>)
    ensures b.Some? <==> tag in CategoryTags
  {
    var i := IndexIn(CategoryTags, tag);
    if i < |CategoryTags| then Some(CategoryBundle(i)) else None
  }

  /** Keywords paired with one category. */
  function Tagged(keywords: seq<string>, tag: string): (t: seq<(string, string)>)
    ensures |t| == |keywords|
    ensures forall e :: e in t ==> e.1 == tag
  {
    seq(|keywords|, i requires 0 <= i < |keywords| => (keywords[i], tag))
  }

  /** `keywordToCategoryMap` in its declaration order, the order
      `Object.entries` visits it, written as runs of keywords that share a
      category. */
  const KeywordTable: seq<(string, string)> :=
    Tagged(["processor", "mixer", "densitometer", "safelight", "silver recovery", "darkroom"], "darkroom") +
    Tagged(["stretcher", "cabinet", "cart", "table", "stand"], "exam-room") +
    Tagged(["portable", "x-ray", "xray"], "portable-xray") +
    Tagged(["survey meter", "test instrument"], "xray-parts") +
    Tagged(["apron", "thyroid", "shield", "glove", "gonad", "lead"], "radiation-protection") +
    Tagged(["cassette", "screen"], "cassettes") +
    Tagged(["grid"], "grids") +
    Tagged(["holder"], "cassettes") +
    Tagged(["sponge", "sandbag", "positioning", "immobilizer", "restraint"], "positioning") +
    Tagged(["mri"], "mri") +
    Tagged(["ultrasound"], "ultrasound") +
    Tagged(["phantom"], "positioning") +
    Tagged(["chair", "stool"], "exam-room") +
    Tagged(["gel"], "ultrasound") +
    Tagged(["cover", "gown", "sanitizer", "wipe", "label", "envelope", "cleaner"], "supplies") +
    Tagged(["collimator", "lamp", "cable"], "xray-parts")

  /** Every category the table names has an entry of its own, and so does
      the default. */
  lemma TableTagsKnown()
    ensures forall e :: e in KeywordTable ==> e.1 in CategoryTags
    ensures "supplies" in CategoryTags
  {
    assert "cassettes" in CategoryTags;
    assert "darkroom" in CategoryTags;
    assert "exam-room" in CategoryTags;
    assert "grids" in CategoryTags;
    assert "mri" in CategoryTags;
    assert "portable-xray" in CategoryTags;
    assert "positioning" in CategoryTags;
    assert "radiation-protection" in CategoryTags;
    assert "supplies" in CategoryTags;
    assert "ultrasound" in CategoryTags;
    assert "xray-parts" in CategoryTags;
  }

  /** The position of the first entry whose keyword occurs in the text, or
      the table's length when none does. */
  function FirstMatch(text: string, table: seq<(string, string)>): (r: nat)
    ensures r <= |table|
    ensures r < |table| ==> Contains(text, table[r].0)
    ensures forall j :: 0 <= j < r ==> !Contains(text, table[j].0)
  {
    if table == [] then 0
    else if Contains(text, table[0].0) then 0
    else 1 + FirstMatch(text, table[1..])
  }

  /** The lowercased name, description and id, blank-separated. */
  function SearchText(p: Product): string {
    Lower(p.name + " " + p.description + " " + p.id)
  }

  /** `detectCategory`: the category of the first keyword, in table order,
      that occurs in the search text; 'supplies' when none does. */
  function DetectCategory(p: Product): (tag: string)
    ensures tag in CategoryTags
  {
    TableTagsKnown();
    var r := FirstMatch(SearchText(p), KeywordTable);
    if r < |KeywordTable| then KeywordTable[r].1 else "supplies"
  }

  /** The first keyword that occurs decides, whatever later keywords also
      occur. */
  lemma DetectCategoryFirst(p: Product, i: nat)
    requires i < |KeywordTable| && Contains(SearchText(p), KeywordTable[i].0)
    requires forall j :: 0 <= j < i ==> !Contains(SearchText(p), KeywordTable[j].0)
    ensures DetectCategory(p) == KeywordTable[i].1
  {
    var r := FirstMatch(SearchText(p), KeywordTable);
    assert r == i;
  }

  /** No keyword occurs: the default. */
  lemma DetectCategoryDefault(p: Product)
    requires forall i :: 0 <= i < |KeywordTable| ==> !Contains(SearchText(p), KeywordTable[i].0)
    ensures DetectCategory(p) == "supplies"
  {
  }

  /** `specsByCategory[category] || specsByCategory['supplies']` */
  function SpecsFor(tag: string): Bundle {
    match SpecsByCategory(tag)
    case Some(b) => b
    case None => SpecsByCategory("supplies").GetOr(Bundle(None, None, None, None, None))
  }

  /** No category reaches the `'supplies'` fallback of the lookup: the
      detected category always has an entry of its own. */
  lemma FallbackUnused(p: Product)
    ensures SpecsByCategory(DetectCategory(p)).Some?
    ensures SpecsFor(DetectCategory(p)) == SpecsByCategory(DetectCategory(p)).value
  {
  }

  /** Every entry of the table supplies specifications and features. */
  lemma BundlesComplete(i: nat)
    requires i < |CategoryTags|
    ensures CategoryBundle(i).specifications.Some? && CategoryBundle(i).features.Some?
  {
  }

  /** `{...specs.dimensions, ...product.dimensions}`: a key the product's
      own dimensions hold wins; spreading an absent object adds no key. */
  function MergeDimensions(base: Option<Dimensions>, own: Option<Dimensions>): Dimensions {
    var b := base.GetOr(NoDimensions);
    var o := own.GetOr(NoDimensions);
    Dimensions(OrElse(o.width, b.width), OrElse(o.height, b.height), OrElse(o.depth, b.depth), OrElse(o.weight, b.weight))
  }

  /** `d` keeps every dimension `own` states. */
  predicate DimensionsKept(own: Dimensions, d: Dimensions) {
    (own.width.Some? ==> d.width == own.width) &&
    (own.height.Some? ==> d.height == own.height) &&
    (own.depth.Some? ==> d.depth == own.depth) &&
    (own.weight.Some? ==> d.weight == own.weight)
  }

  /** Each dimension `own` lacks is the one of `base`. */
  predicate DimensionsFilled(own: Dimensions, base: Dimensions, d: Dimensions) {
    (own.width.None? ==> d.width == base.width) &&
    (own.height.None? ==> d.height == base.height) &&
    (own.depth.None? ==> d.depth == base.depth) &&
    (own.weight.None? ==> d.weight == base.weight)
  }

  /** The product's own dimensions override the category's, and the
      category's fill only the keys the product lacks. */
  lemma MergeDimensionsOverride(base: Option<Dimensions>, own: Option<Dimensions>)
    ensures own.Some? ==> DimensionsKept(own.value, MergeDimensions(base, own))
    ensures DimensionsFilled(own.GetOr(NoDimensions), base.GetOr(NoDimensions), MergeDimensions(base, own))
    ensures MergeDimensions(base, Some(MergeDimensions(base, own))) == MergeDimensions(base, own)
  {
  }

  /** `product.id.toUpperCase().replace(/-/g, '_')` */
  function DefaultPartNumber(id: string): (n: string)
    ensures |n| == |id| && '-' !in n
  {
    ReplaceChar(Upper(id), '-', '_')
  }

  /** The product already has more than five specification keys. */
  predicate IsRich(p: Product) {
    SpecKeyCount(p) > 5
  }

  /** The merge of `enhanceProduct` with the category entry b. */
  function EnhanceWith(p: Product, b: Bundle): Product {
    p.(specifications := OrElse(p.specifications, b.specifications),
       features := OrElse(p.features, b.features),
       dimensions := Some(MergeDimensions(b.dimensions, p.dimensions)),
       partNumbers := OrElse(p.partNumbers, Some([DefaultPartNumber(p.id)])),
       images := Some(GalleryOrImage(p)),
       compatibility := OrElse(p.compatibility, b.compatibility))
  }

  /** r differs from p at most in the five backfilled fields and the
      dimensions; each backfilled field p has is kept, and so is each
      dimension p states. */
  predicate KeepsPresent(p: Product, r: Product) {
    (p.specifications.Some? ==> r.specifications == p.specifications) &&
    (p.features.Some? ==> r.features == p.features) &&
    (p.partNumbers.Some? ==> r.partNumbers == p.partNumbers) &&
    (p.images.Some? ==> r.images == p.images) &&
    (p.compatibility.Some? ==> r.compatibility == p.compatibility) &&
    (p.dimensions.Some? ==> r.dimensions.Some? && DimensionsKept(p.dimensions.value, r.dimensions.value)) &&
    r.(specifications := p.specifications, features := p.features, dimensions := p.dimensions,
       partNumbers := p.partNumbers, images := p.images, compatibility := p.compatibility) == p
  }

  /** `enhanceProduct` */
  function Enhance(p: Product): (r: Product)
    ensures IsRich(p) ==> r == p
    ensures KeepsPresent(p, r)
  {
    if IsRich(p) then p else EnhanceWith(p, SpecsFor(DetectCategory(p)))
  }

  /** What a product that is not rich gains: each missing field comes from
      its category's entry or from the defaults, and the dimensions are
      always present. */
  lemma EnhanceFills(p: Product)
    requires !IsRich(p)
    ensures var b := SpecsByCategory(DetectCategory(p)).value;
      && (p.specifications.None? ==> Enhance(p).specifications == b.specifications)
      && (p.features.None? ==> Enhance(p).features == b.features)
      && (p.compatibility.None? ==> Enhance(p).compatibility == b.compatibility)
      && Enhance(p).dimensions == Some(MergeDimensions(b.dimensions, p.dimensions))
    ensures p.partNumbers.None? ==> Enhance(p).partNumbers == Some([DefaultPartNumber(p.id)])
    ensures p.images.None? ==> Enhance(p).images == Some(if Truthy(p.image) then [p.image.value] else [])
    ensures Enhance(p).specifications.Some? && Enhance(p).features.Some?
  {
    FallbackUnused(p);
    var b := SpecsByCategory(DetectCategory(p)).value;
    BundlesComplete(IndexIn(CategoryTags, DetectCategory(p)));
    assert b.specifications.Some? && b.features.Some?;
    EnhanceWithFills(p, b);
  }

  /** EnhanceFills for any entry that supplies specifications and features. */
  lemma EnhanceWithFills(p: Product, b: Bundle)
    requires b.specifications.Some? && b.features.Some?
    ensures var r := EnhanceWith(p, b);
      && (p.specifications.None? ==> r.specifications == b.specifications)
      && (p.features.None? ==> r.features == b.features)
      && (p.compatibility.None? ==> r.compatibility == b.compatibility)
      && r.dimensions == Some(MergeDimensions(b.dimensions, p.dimensions))
      && (p.partNumbers.None? ==> r.partNumbers == Some([DefaultPartNumber(p.id)]))
      && (p.images.None? ==> r.images == Some(if Truthy(p.image) then [p.image.value] else []))
      && r.specifications.Some? && r.features.Some?
  {
  }

  /** Merging the same entry twice is merging it once. */
  lemma EnhanceWithTwice(p: Product, b: Bundle)
    ensures EnhanceWith(EnhanceWith(p, b), b) == EnhanceWith(p, b)
  {
    MergeDimensionsOverride(b.dimensions, p.dimensions);
  }

  /** `enhanceProduct` is idempotent: the output only gains fields, and the
      fields that choose the category are left alone. */
  lemma EnhanceIdempotent(p: Product)
    ensures Enhance(Enhance(p)) == Enhance(p)
  {
    if !IsRich(p) {
      var b := SpecsFor(DetectCategory(p));
      var r := EnhanceWith(p, b);
      assert SearchText(r) == SearchText(p);
      EnhanceWithTwice(p, b);
    }
  }

  /** `processFile` on one parsed file: a product is replaced, and counted,
      when its enhanced form differs; the file is always written. */
  method ProcessFile(cats: seq<Category>) returns (out: seq<Category>, enhancedCount: nat, written: bool)
    ensures out == MapAll(cats, Enhance)
    ensures enhancedCount == CountWhere(cats, Differs(Enhance))
    ensures written
  {
    out, enhancedCount := ReplaceWhere(cats, Enhance, Differs(Enhance));
    written := true;
  }

  /** Running the script again on its own output enhances nothing and
      changes nothing. */
  lemma SecondRunChangesNothing(cats: seq<Category>)
    ensures MapAll(MapAll(cats, Enhance), Enhance) == MapAll(cats, Enhance)
    ensures CountWhere(MapAll(cats, Enhance), Differs(Enhance)) == 0
  {
    forall p ensures Enhance(Enhance(p)) == Enhance(p) {
      EnhanceIdempotent(p);
    }
    MapAllTwice(cats, Enhance);
    ChangedZero(MapAll(cats, Enhance), Enhance);
  }

  /** `main`: each file in turn; a file that cannot be read or parsed
      (None) is reported and skipped, and the others are still processed. */
  method EnhanceAllFiles(files: seq<Option<seq<Category>>>) returns (outs: seq<Option<seq<Category>>>)
    ensures |outs| == |files|
    ensures forall f :: 0 <= f < |files| ==>
      outs[f] == if files[f].Some? then Some(MapAll(files[f].value, Enhance)) else None
  {
    outs := [];
    for f := 0 to |files|
      invariant |outs| == f
      invariant forall g :: 0 <= g < f ==>
        outs[g] == if files[g].Some? then Some(MapAll(files[g].value, Enhance)) else None
    {
      match files[f]
      case None =>
        outs := outs + [None];
      case Some(cats) =>
        var out, _, _ := ProcessFile(cats);
        outs := outs + [Some(out)];
    }
  }
}
