/** The image status report: each product classified as having an image or
    needing one, counted per file and in total, with one table row per
    product. */
module GenerateImageReport {
  import opened Wrappers
  import opened Strings
  import opened Equipment
  import opened Traversal

  /** `hasImage`: a local `/images/` path, whatever it contains, or an
      `http` URL that is not a placeholder. */
  predicate HasImage(p: Product) {
    Truthy(p.image) &&
    (StartsWith(p.image.value, "/images/") ||
     (!Contains(p.image.value, "placeholder") && StartsWith(p.image.value, "http")))
  }

  predicate NeedsImage(p: Product) {
    !HasImage(p)
  }

  /** The image column of a row for a product that needs an image. */
  datatype Missing = Placeholder | NoImage

  /** A table row: the image path for a product that has one, the reason
      for one that does not. */
  datatype Row =
    | Has(name: string, image: Option<string>, url: Option<string>)
    | Needs(name: string, info: Missing, url: Option<string>)

  function RowFor(p: Product): (row: Row)
    ensures row.Has? <==> HasImage(p)
    ensures row.Needs? ==> (row.info == Placeholder <==> Truthy(p.image) && Contains(p.image.value, "placeholder"))
    ensures row.name == p.name && row.url == p.url
  {
    if HasImage(p) then Has(p.name, p.image, p.url)
    else Needs(p.name, if Truthy(p.image) && Contains(p.image.value, "placeholder") then Placeholder else NoImage, p.url)
  }

  /** One row per product, in order. */
  function RowsOf(ps: seq<Product>): (rows: seq<Row>)
    ensures |rows| == |ps|
    ensures forall k :: 0 <= k < |ps| ==> rows[k] == RowFor(ps[k])
  {
    seq(|ps|, k requires 0 <= k < |ps| => RowFor(ps[k]))
  }

  /** The products with an image and those without add up to all of them. */
  lemma FileCountsAddUp(cats: seq<Category>)
    ensures CountWhere(cats, HasImage) + CountWhere(cats, NeedsImage) == Count(cats)
  {
    CountWhereSplit(cats, HasImage, NeedsImage);
  }

  /** The counts of products that satisfy q, added over the files. */
  function FilesCountWhere(files: seq<seq<Category>>, q: Product -> bool): (n: nat)
    ensures n <= FileCount(files)
  {
    if files == [] then 0 else FilesCountWhere(files[..|files| - 1], q) + CountWhere(files[|files| - 1], q)
  }

  /** Over all files too, every product is counted exactly once. */
  lemma {:induction false} TotalsAddUp(files: seq<seq<Category>>)
    ensures FilesCountWhere(files, HasImage) + FilesCountWhere(files, NeedsImage) == FileCount(files)
  {
    if files != [] {
      TotalsAddUp(files[..|files| - 1]);
      FileCountsAddUp(files[|files| - 1]);
    }
  }

  /** The inner loop over one category's products: every product bumps
      exactly one of the two counters and adds its row. */
  method ReportCategory(ps: seq<Product>) returns (withImages: nat, needsImages: nat, rows: seq<Row>)
    ensures withImages == CountIn(ps, HasImage)
    ensures needsImages == CountIn(ps, NeedsImage)
    ensures rows == RowsOf(ps)
  {
    withImages, needsImages, rows := 0, 0, [];
    for j := 0 to |ps|
      invariant withImages == CountIn(ps[..j], HasImage)
      invariant needsImages == CountIn(ps[..j], NeedsImage)
      invariant rows == RowsOf(ps[..j])
    {
      CountInStep(ps, j, HasImage);
      CountInStep(ps, j, NeedsImage);
      RowsAppend(ps[..j], [ps[j]]);
      assert ps[..j + 1] == ps[..j] + [ps[j]];
      if HasImage(ps[j]) {
        withImages := withImages + 1;
      } else {
        needsImages := needsImages + 1;
      }
      rows := rows + [RowFor(ps[j])];
    }
    assert ps[..|ps|] == ps;
  }

  /** The loops for one file: the total, the two counters and the rows. */
  method ReportFile(cats: seq<Category>) returns (products: nat, fileWithImages: nat, fileNeedsImages: nat, rows: seq<Row>)
    ensures products == Count(cats)
    ensures fileWithImages == CountWhere(cats, HasImage)
    ensures fileNeedsImages == CountWhere(cats, NeedsImage)
    ensures rows == RowsOf(Products(cats))
  {
    products, fileWithImages, fileNeedsImages, rows := 0, 0, 0, [];
    for i := 0 to |cats|
      invariant products == Count(cats[..i])
      invariant fileWithImages == CountWhere(cats[..i], HasImage)
      invariant fileNeedsImages == CountWhere(cats[..i], NeedsImage)
      invariant rows == RowsOf(Products(cats[..i]))
    {
      var ps := cats[i].subcategories;
      var withImages, needsImages, categoryRows := ReportCategory(ps);
      CountStep(cats, i);
      CountWhereStep(cats, i, HasImage);
      CountWhereStep(cats, i, NeedsImage);
      RowsAppend(Products(cats[..i]), ps);
      CountInSplit(ps, HasImage, NeedsImage);
      products := products + |ps|;
      fileWithImages := fileWithImages + withImages;
      fileNeedsImages := fileNeedsImages + needsImages;
      rows := rows + categoryRows;
    }
    assert cats[..|cats|] == cats;
  }

  /** The parsed files, when every file could be read and parsed. */
  function AllRead(data: seq<Option<seq<Category>>>): (files: Option<seq<seq<Category>>>)
    ensures files.Some? ==> |files.value| == |data|
  {
    if data == [] then Some([])
    else match (AllRead(data[..|data| - 1]), data[|data| - 1])
      case (Some(fs), Some(cats)) => Some(fs + [cats])
      case _ => None
  }

  /** All files are read exactly when none fails, and then each file is the
      one read. */
  lemma {:induction false} AllReadSome(data: seq<Option<seq<Category>>>)
    ensures AllRead(data).None? <==> exists f :: 0 <= f < |data| && data[f].None?
    ensures AllRead(data).Some? ==> forall f :: 0 <= f < |data| ==> data[f] == Some(AllRead(data).value[f])
  {
    if data != [] {
      var init := data[..|data| - 1];
      AllReadSome(init);
      assert forall f :: 0 <= f < |init| ==> init[f] == data[f];
    }
  }

  /** The summary line of each file: products with images, products. */
  function PerFile(files: seq<seq<Category>>): (summary: seq<(nat, nat)>)
    ensures |summary| == |files|
    ensures forall f :: 0 <= f < |files| ==> summary[f] == (CountWhere(files[f], HasImage), Count(files[f]))
  {
    seq(|files|, f requires 0 <= f < |files| => (CountWhere(files[f], HasImage), Count(files[f])))
  }

  /** Appending one file's rows to the rows so far. */
  lemma RowsAppend(a: seq<Product>, b: seq<Product>)
    ensures RowsOf(a + b) == RowsOf(a) + RowsOf(b)
  {
    assert forall k :: 0 <= k < |a + b| ==> (a + b)[k] == if k < |a| then a[k] else b[k - |a|];
  }

  /** The totals over the files read so far and one more file. */
  lemma FilesSnoc(files: seq<seq<Category>>, cats: seq<Category>)
    ensures FileCount(files + [cats]) == FileCount(files) + Count(cats)
    ensures FilesCountWhere(files + [cats], HasImage) == FilesCountWhere(files, HasImage) + CountWhere(cats, HasImage)
    ensures FilesCountWhere(files + [cats], NeedsImage) == FilesCountWhere(files, NeedsImage) + CountWhere(cats, NeedsImage)
    ensures RowsOf(FileProducts(files + [cats])) == RowsOf(FileProducts(files)) + RowsOf(Products(cats))
    ensures PerFile(files + [cats]) == PerFile(files) + [(CountWhere(cats, HasImage), Count(cats))]
  {
    assert (files + [cats])[..|files|] == files;
    RowsAppend(FileProducts(files), Products(cats));
  }

  /** The figures of the report. */
  datatype Report = Report(
    totalProducts: nat, withImages: nat, needsImages: nat,
    perFile: seq<(nat, nat)>, rows: seq<Row>)

  /** The report over the files read so far. */
  function Summary(files: seq<seq<Category>>): Report {
    Report(FileCount(files), FilesCountWhere(files, HasImage), FilesCountWhere(files, NeedsImage),
      PerFile(files), RowsOf(FileProducts(files)))
  }

  /** One file of `generateReport`: its counts added to the totals, its
      summary line and its rows appended. */
  method AddFile(report: Report, ghost files: seq<seq<Category>>, cats: seq<Category>) returns (next: Report)
    requires report == Summary(files)
    ensures next == Summary(files + [cats])
  {
    var products, fileWith, fileNeeds, fileRows := ReportFile(cats);
    FileCountsAddUp(cats);
    FilesSnoc(files, cats);
    next := Report(report.totalProducts + products, report.withImages + fileWith, report.needsImages + fileNeeds,
      report.perFile + [(fileWith, fileWith + fileNeeds)], report.rows + fileRows);
  }

  /** `generateReport` over the files in order: the file summaries (with
      images, products), the totals and the rows. A file that cannot be
      read or parsed ends the run with no report. */
  method GenerateReport(data: seq<Option<seq<Category>>>) returns (report: Option<Report>)
    ensures report.None? <==> AllRead(data).None?
    ensures report.Some? ==> report.value == Summary(AllRead(data).value)
  {
    var summary := Report(0, 0, 0, [], []);
    ghost var files: seq<seq<Category>> := [];
    for f := 0 to |data|
      invariant AllRead(data[..f]) == Some(files)
      invariant summary == Summary(files)
    {
      assert data[..f + 1][..f] == data[..f];
      if data[f].None? {
        AllReadSome(data);
        return None;
      }
      var cats := data[f].value;
      summary := AddFile(summary, files, cats);
      files := files + [cats];
    }
    assert data[..|data|] == data;
    report := Some(summary);
  }
}
