/** Adding sample specifications by product type: a product with few
    specification keys takes the whole entry of its type, which overwrites
    what it had. */
module AddSampleSpecs {
  import opened Wrappers
  import opened Strings
  import opened Equipment
  import opened Traversal

  /** The three keys of `sampleSpecsByType`. */
  datatype SampleType = FilmProcessor | PortableXray | Default

  /** The specifications of `sampleSpecsByType['film-processor']`. */
  function FilmProcessorSpecifications(): (m: map<string, SpecValue>)
    ensures |m| > 3
  {
    var entries := [
        ("Processing Speed", Text("90 seconds dry-to-dry")),
        ("Film Sizes", List(["8x10\"", "10x12\"", "14x17\""])),
        ("Developer Tank Capacity", Text("3.5 gallons")),
        ("Fixer Tank Capacity", Text("5.0 gallons")),
        ("Power Requirements", Text("115V, 20A")),
        ("Operating Temperature", Text("68-75°F (20-24°C)")),
        ("Dimensions", Text("24\" W x 36\" H x 30\" D")),
        ("Weight", Text("185 lbs (84 kg)"))];
    SpecsOfKeys(entries);
    KeysAtLeast(SpecsOf(entries), [entries[0].0, entries[1].0, entries[2].0, entries[3].0]);
    SpecsOf(entries)
  }

  /** The specifications of `sampleSpecsByType['portable-xray']`. */
  function PortableXraySpecifications(): (m: map<string, SpecValue>)
    ensures |m| > 3
  {
    var entries := [
        ("Generator Type", Text("High Frequency")),
        ("Power Output", Text("80 kHp @ 100 kV")),
        ("kVp Range", Text("40-100 kVp (1 kVp steps)")),
        ("mA Settings", Text("20, 32, 50, 63, 80, 100, 125 mA")),
        ("mAs Range", Text("0.02 - 800 mAs")),
        ("Focal Spot Size", Text("1.0mm (IEC 336)")),
        ("Input Power", Text("120V, 60Hz, 20A")),
        ("Battery Capacity", Text("200 exposures per charge"))];
    SpecsOfKeys(entries);
    KeysAtLeast(SpecsOf(entries), [entries[0].0, entries[1].0, entries[2].0, entries[3].0]);
    SpecsOf(entries)
  }

  /** The specifications of `sampleSpecsByType['default']`. */
  function DefaultSpecifications(): (m: map<string, SpecValue>)
    ensures |m| > 3
  {
    var entries := [
        ("Type", Text("Medical Imaging Equipment")),
        ("Compatibility", Text("Standard medical imaging systems")),
        ("Power", Text("115V AC")),
        ("Certification", Text("FDA Approved"))];
    SpecsOfKeys(entries);
    KeysAtLeast(SpecsOf(entries), [entries[0].0, entries[1].0, entries[2].0, entries[3].0]);
    SpecsOf(entries)
  }

  /** The specifications entry of each type. */
  function SampleSpecifications(t: SampleType): (m: map<string, SpecValue>)
    ensures |m| > 3
  {
    match t
    case FilmProcessor => FilmProcessorSpecifications()
    case PortableXray => PortableXraySpecifications()
    case Default => DefaultSpecifications()
  }

  /** `sampleSpecsByType` */
  function SampleSpecsByType(t: SampleType): (b: Bundle)
    ensures Specified(b)
  {
    Bundle(Some(SampleSpecifications(t)), SampleFeatures(t), SampleDimensions(t), SampleCompatibility(t), SamplePartNumbers(t))
  }

  /** The features of each entry. */
  function SampleFeatures(t: SampleType): Option<seq<string>> {
    match t
    case FilmProcessor => Some([
        "Fully automatic processing with consistent results",
        "Digital temperature control with ±0.5°F accuracy",
        "Low maintenance design with easy-access panels",
        "Energy efficient with standby mode",
        "Compatible with all standard X-ray films",
        "Built-in replenishment system",
        "Stainless steel construction for durability"])
    case PortableXray => Some([
        "High-frequency generator for superior image quality",
        "Lightweight portable design",
        "Built-in rechargeable battery for true portability",
        "LCD display with intuitive controls",
        "Anatomical programming for quick setup",
        "Digital interface ready",
        "CE marked and FDA approved"])
    case Default => Some([
        "High-quality construction for reliability",
        "Easy to install and operate",
        "Low maintenance requirements",
        "Compatible with standard equipment",
        "Professional-grade performance"])
  }

  /** The dimensions of each entry. */
  function SampleDimensions(t: SampleType): Option<Dimensions> {
    match t
    case FilmProcessor => Some(Dimensions(Some("24 inches"), Some("36 inches"), Some("30 inches"), Some("185 lbs")))
    case PortableXray => Some(Dimensions(Some("14.5 inches"), Some("17 inches"), Some("19 inches"), Some("35 lbs")))
    case Default => Some(Dimensions(None, None, None, Some("Contact for specifications")))
  }

  /** The compatibility of each entry. */
  function SampleCompatibility(t: SampleType): Option<seq<string>> {
    match t
    case FilmProcessor => Some([
        "Compatible with all standard X-ray films",
        "Works with Kodak, Fuji, and Agfa chemistry",
        "Fits standard 24-inch wide spaces"])
    case PortableXray => None
    case Default => None
  }

  /** The part numbers of each entry. */
  function SamplePartNumbers(t: SampleType): Option<seq<string>> {
    match t
    case FilmProcessor => Some([
        "FP-100",
        "FP-100-STD"])
    case PortableXray => Some([
        "HF80-115V",
        "HF80-240V"])
    case Default => None
  }

  /** The entry has specifications with more than three keys. */
  predicate Specified(b: Bundle) {
    b.specifications.Some? && |b.specifications.value| > 3
  }

  /** Every entry of the table is Specified, as every entry of
      `sampleSpecsByType` is. */
  predicate Specifies(table: SampleType -> Bundle) {
    Specified(table(FilmProcessor)) && Specified(table(PortableXray)) && Specified(table(Default))
  }

  lemma SpecifiesAt(table: SampleType -> Bundle, t: SampleType)
    requires Specifies(table)
    ensures Specified(table(t))
  {
    match t
    case FilmProcessor =>
    case PortableXray =>
    case Default =>
  }

  lemma SampleTableSpecifies()
    ensures Specifies(SampleSpecsByType)
  {
    var film, portable, default := SampleSpecsByType(FilmProcessor), SampleSpecsByType(PortableXray), SampleSpecsByType(Default);
  }

  /** The type chosen from the lowercased name and id: 'processor' first,
      then 'portable' or 'x-ray' in the name or 'portable' in the id. */
  function SampleTypeOf(p: Product): SampleType {
    var name := Lower(p.name);
    var id := Lower(p.id);
    if Contains(name, "processor") || Contains(id, "processor") then FilmProcessor
    else if Contains(name, "portable") || Contains(name, "x-ray") || Contains(id, "portable") then PortableXray
    else Default
  }

  /** The product already has more than three specification keys. */
  predicate IsSpecified(p: Product) {
    SpecKeyCount(p) > 3
  }

  /** `enhanceProduct` returns a new object, rather than its argument. */
  predicate Fresh(p: Product) {
    !IsSpecified(p)
  }

  /** r differs from p at most in the six fields the merge writes. */
  predicate SameBesidesMerged(p: Product, r: Product) {
    r.(specifications := p.specifications, features := p.features, dimensions := p.dimensions,
       compatibility := p.compatibility, partNumbers := p.partNumbers, images := p.images) == p
  }

  /** The merge of `enhanceProduct`: the entry comes first for the
      specifications, the features, the dimensions and the compatibility
      list; the product's own part numbers and images come first. */
  function Merge(p: Product, b: Bundle): (r: Product)
    ensures r.specifications == (if b.specifications.Some? then b.specifications else p.specifications)
    ensures r.features == (if b.features.Some? then b.features else p.features)
    ensures r.dimensions == (if b.dimensions.Some? then b.dimensions else p.dimensions)
    ensures r.compatibility == (if b.compatibility.Some? then b.compatibility else p.compatibility)
    ensures r.partNumbers ==
      if p.partNumbers.Some? then p.partNumbers
      else if b.partNumbers.Some? then b.partNumbers
      else Some([Upper(p.id)])
    ensures r.images == Some(GalleryOrImage(p))
    ensures SameBesidesMerged(p, r)
  {
    p.(specifications := OrElse(b.specifications, p.specifications),
       features := OrElse(b.features, p.features),
       dimensions := OrElse(b.dimensions, p.dimensions),
       compatibility := OrElse(b.compatibility, p.compatibility),
       partNumbers := OrElse(p.partNumbers, OrElse(b.partNumbers, Some([Upper(p.id)]))),
       images := Some(GalleryOrImage(p)))
  }

  /** `enhanceProduct` over a table of entries by type (the script uses
      `sampleSpecsByType`, SampleSpecsByType here): a product with more than
      three keys is returned as it is, any other is merged with the entry
      of its type, and then has more than three keys if the entry has. */
  function EnhanceSample(table: SampleType -> Bundle, p: Product): (r: Product)
    ensures IsSpecified(p) ==> r == p
    ensures !IsSpecified(p) ==> r == Merge(p, table(SampleTypeOf(p)))
  {
    if IsSpecified(p) then p else Merge(p, table(SampleTypeOf(p)))
  }

  /** With a table of Specified entries every product comes out with more
      than three keys. */
  lemma EnhanceSampleSpecified(table: SampleType -> Bundle, p: Product)
    requires Specifies(table)
    ensures IsSpecified(EnhanceSample(table, p))
  {
    if !IsSpecified(p) {
      SpecifiesAt(table, SampleTypeOf(p));
    }
  }

  function Enhancer(table: SampleType -> Bundle): Product -> Product {
    p => EnhanceSample(table, p)
  }

  /** A second pass leaves every product as the first left it. */
  lemma EnhanceSampleTwice(table: SampleType -> Bundle, p: Product)
    requires Specifies(table)
    ensures EnhanceSample(table, EnhanceSample(table, p)) == EnhanceSample(table, p)
  {
    EnhanceSampleSpecified(table, p);
  }

  /** Comparing by reference counts the same products as comparing the
      contents would: a product that gets a new object always changes,
      because it gains keys. */
  lemma FreshIffChanged(table: SampleType -> Bundle, p: Product)
    requires Specifies(table)
    ensures Fresh(p) <==> EnhanceSample(table, p) != p
  {
    EnhanceSampleSpecified(table, p);
  }

  /** `processDataFile` on one parsed file: a slot is replaced, and
      counted, when `enhanceProduct` returned a new object; the file is
      always written. */
  method ProcessDataFile(table: SampleType -> Bundle, cats: seq<Category>) returns (out: seq<Category>, enhancedCount: nat, written: bool)
    ensures out == MapAll(cats, Enhancer(table))
    ensures enhancedCount == CountWhere(cats, Fresh)
    ensures written
  {
    out, enhancedCount := ReplaceWhere(cats, Enhancer(table), Fresh);
    written := true;
  }

  /** The count by reference is the count of the products that change. */
  lemma EnhancedCountIsChanged(table: SampleType -> Bundle, cats: seq<Category>)
    requires Specifies(table)
    ensures CountWhere(cats, Fresh) == CountWhere(cats, Differs(Enhancer(table)))
  {
    forall p ensures Fresh(p) == Differs(Enhancer(table))(p) {
      FreshIffChanged(table, p);
    }
    CountWhereSame(cats, Fresh, Differs(Enhancer(table)));
  }

  /** After one pass every product has more than three keys, so a second
      pass enhances nothing and changes nothing. */
  lemma SecondPassUnchanged(table: SampleType -> Bundle, cats: seq<Category>)
    requires Specifies(table)
    ensures MapAll(MapAll(cats, Enhancer(table)), Enhancer(table)) == MapAll(cats, Enhancer(table))
    ensures CountWhere(MapAll(cats, Enhancer(table)), Fresh) == 0
  {
    var out := MapAll(cats, Enhancer(table));
    forall p ensures Enhancer(table)(Enhancer(table)(p)) == Enhancer(table)(p) {
      EnhanceSampleTwice(table, p);
    }
    MapAllTwice(cats, Enhancer(table));
    forall i, j | 0 <= i < |out| && 0 <= j < |out[i].subcategories|
      ensures !Fresh(out[i].subcategories[j])
    {
      EnhanceSampleSpecified(table, cats[i].subcategories[j]);
    }
    CountWhereZero(out, Fresh);
  }

  /** `main` with `sampleSpecsByType`: each file in turn; a file that
      cannot be read or parsed (None) is reported and skipped, and the
      others are still processed. */
  method AddSpecsAllFiles(files: seq<Option<seq<Category>>>) returns (outs: seq<Option<seq<Category>>>)
    ensures |outs| == |files|
    ensures forall f :: 0 <= f < |files| ==>
      outs[f] == if files[f].Some? then Some(MapAll(files[f].value, Enhancer(SampleSpecsByType))) else None
  {
    outs := [];
    for f := 0 to |files|
      invariant |outs| == f
      invariant forall g :: 0 <= g < f ==>
        outs[g] == if files[g].Some? then Some(MapAll(files[g].value, Enhancer(SampleSpecsByType))) else None
    {
      match files[f]
      case None =>
        outs := outs + [None];
      case Some(cats) =>
        var out, _, _ := ProcessDataFile(SampleSpecsByType, cats);
        outs := outs + [Some(out)];
    }
  }

  /** With the script's own table, running it twice changes nothing the
      second time. */
  lemma SecondRunChangesNothing(cats: seq<Category>)
    ensures MapAll(MapAll(cats, Enhancer(SampleSpecsByType)), Enhancer(SampleSpecsByType)) == MapAll(cats, Enhancer(SampleSpecsByType))
  {
    SampleTableSpecifies();
    SecondPassUnchanged(SampleSpecsByType, cats);
  }
}
