# PNWX medical imaging catalog: a verified model of its rules

The PNWX catalog site lists medical imaging equipment, accessories,
supplies and parts. Each of the four catalog files is a list of
categories, and each category holds its products. The site's pages
search and filter those categories. A set of offline scripts maintains
the files:

- they backfill specifications;
- they assign product images, from a local pool or from URLs guessed
  from the product page;
- they report which products still need an image;
- they scrape product pages for images and detailed specifications.

This project models those rules in Dafny and proves what they promise.
The modules and their sources:

| module | models |
|---|---|
| `Equipment` | the catalog records of `types/equipment.ts` |
| `Traversal` | the category-then-product traversal shared by all scripts |
| `CatalogPage` | the category search filter of the catalog page |
| `FilterBar` | the filter bar's state machine and its two counts |
| `EnhanceAllProducts` | the backfill by keyword-detected category, where missing fields are filled |
| `AddSampleSpecs` | the backfill by product type, where the sample bundle overwrites |
| `ImageRotation` | cycling a pool of images (shared by the four rotation scripts) |
| `CycleMedicalImages`, `UsePnwxImages`, `UpdateJsonWithImages`, `DownloadMedicalImages` | the four rotation scripts |
| `UpdateToPnwxImages` | candidate image URLs guessed from the product URL |
| `UpdateImagePaths` | set one product's images by id; the listing; the command line |
| `GenerateImageReport` | the image status report |
| `ScrapeImages`, `TestImageScraper` | the image scraper and its dry run |
| `ScrapeDetailedSpecs` | the detailed specification scraper |
| `Wrappers`, `Strings`, `Sequences` | the JavaScript operations the code relies on: truthiness, `||`, `includes`, `split`, `trim`, `replace`, case mapping, `filter`, `Array.from(new Set(...))` |

How the model is built:

- **Files.** A file read becomes an input: its parsed categories, or
  `None` when it cannot be read or parsed. A file write becomes the new
  contents returned to the caller, with a flag or a list saying what is
  written.
- **Changes.** `JSON.stringify(a) !== JSON.stringify(b)` is structural
  inequality.
- **In-place loops.** A loop that replaces products in place is a method
  with a loop. It is proved equal to a function over the whole catalog
  (`MapAll`, `MapIndexed`, `MapFiles`), and the lemmas are about that
  function.
- **Pages.** A scraped page is given as the lists its selectors return:
  `img` attributes, links, table rows, list items, text blocks and regex
  captures. Fetching, downloading and URL resolution are function
  parameters.

## Model

| member | source | states |
|---|---|---|
| CatalogPage.FilteredCategories | components/catalog-page.tsx:67-83 | every shown category matches the search, and with the switch on every shown category is featured |
| CatalogPage.MatchesSearchIff | components/catalog-page.tsx:69-77 | the term matches iff its lowercase form occurs in the lowercased category name, description, or some product's name or description; the empty-term shortcut changes nothing |
| CatalogPage.FilteredMember | components/catalog-page.tsx:67-81 | a category is shown iff it is in the input, matches the search and passes the featured switch |
| CatalogPage.FilteredSubsequence | components/catalog-page.tsx:67-68 | the shown categories are an order-preserving subsequence of the input |
| CatalogPage.NoFilterShowsAll | components/catalog-page.tsx:69-81 | with the empty term and the switch off, every category is shown, in order |
| CatalogPage.FeaturedNarrows | components/catalog-page.tsx:79-81 | with the switch on, the result is the featured part of the result with the switch off, and a subsequence of it |
| FilterBar.FilterBar.constructor | components/equipment-filter-bar.tsx:28-29 | the bar starts with the empty term and the switch off |
| FilterBar.FilterBar.HandleSearchChange | components/equipment-filter-bar.tsx:31-34 | sets the term, keeps the switch, and emits the new term with the old switch |
| FilterBar.FilterBar.HandleClear | components/equipment-filter-bar.tsx:67 | the clear button is a search change to the empty term |
| FilterBar.FilterBar.HandleFeaturedToggle | components/equipment-filter-bar.tsx:36-40 | flips the switch, keeps the term, and emits the term with the new switch |
| FilterBar.FilterBar.HandleReset | components/equipment-filter-bar.tsx:42-46 | returns to the initial state from any state, emits ("", false), and hides the Reset button |
| FilterBar.FilterBar.ToggleTwice | components/equipment-filter-bar.tsx:36-40 | two toggles restore the state and emit it |
| FilterBar.FeaturedCount | components/equipment-filter-bar.tsx:52 | the featured count is at most the number of categories |
| FilterBar.TotalItemsDeclared | components/equipment-filter-bar.tsx:48-51 | the total equals the number of products when every category declares its own product count |
| FilterBar.TotalItemsNotProducts | components/equipment-filter-bar.tsx:48-51 | the total follows the declared counts: some catalog has a total different from its number of products |
| FilterBar.FeaturedCountShown | components/equipment-filter-bar.tsx:52 | the featured count is the number of categories the page shows with the switch on and no term |
| EnhanceAllProducts.SpecsByCategory | scripts/enhance-all-products.ts:41-270 | the lookup has an entry exactly for the eleven category tags |
| EnhanceAllProducts.TableTagsKnown | scripts/enhance-all-products.ts:273-328 | every category the keyword table names, and the default 'supplies', has an entry |
| EnhanceAllProducts.FirstMatch | scripts/enhance-all-products.ts:333-337 | the position found is the first table entry whose keyword occurs in the text, or the table length when none occurs |
| EnhanceAllProducts.DetectCategory | scripts/enhance-all-products.ts:330-340 | the detected category always has an entry in the lookup |
| EnhanceAllProducts.DetectCategoryFirst | scripts/enhance-all-products.ts:330-337 | when entry i is the first keyword, in table order, that occurs in the lowercased name, description and id, its category is returned |
| EnhanceAllProducts.DetectCategoryDefault | scripts/enhance-all-products.ts:339 | when no keyword occurs the category is 'supplies' |
| EnhanceAllProducts.FallbackUnused | scripts/enhance-all-products.ts:348-349 | the 'supplies' fallback of the lookup is never needed |
| EnhanceAllProducts.BundlesComplete | scripts/enhance-all-products.ts:41-270 | every category entry supplies specifications and features |
| EnhanceAllProducts.MergeDimensionsOverride | scripts/enhance-all-products.ts:355-358 | the product's own dimensions override the entry's, the entry fills only missing keys, and merging twice is merging once |
| EnhanceAllProducts.DefaultPartNumber | scripts/enhance-all-products.ts:359 | the default part number has the id's length and no '-' |
| EnhanceAllProducts.Enhance | scripts/enhance-all-products.ts:342-363 | a product with more than five specification keys is returned unchanged; otherwise every present backfilled field and every stated dimension is kept and no other field changes |
| EnhanceAllProducts.EnhanceFills | scripts/enhance-all-products.ts:351-362 | each missing field comes from the category entry or the default part number and image list, and the dimensions are always present |
| EnhanceAllProducts.EnhanceIdempotent | scripts/enhance-all-products.ts:342-363 | enhancing an enhanced product gives the same product |
| EnhanceAllProducts.ProcessFile | scripts/enhance-all-products.ts:365-394 | the file becomes every product enhanced, the count is the number of products whose enhanced form differs, and the file is written |
| EnhanceAllProducts.SecondRunChangesNothing | scripts/enhance-all-products.ts:365-394 | a second run over the written file changes and counts nothing |
| EnhanceAllProducts.EnhanceAllFiles | scripts/enhance-all-products.ts:396-414 | each readable file is enhanced and an unreadable one is skipped without stopping the others |
| AddSampleSpecs.FilmProcessorSpecifications | scripts/add-sample-specs.ts:46-55 | the film-processor entry has more than three specification keys |
| AddSampleSpecs.PortableXraySpecifications | scripts/add-sample-specs.ts:79-88 | the portable-xray entry has more than three specification keys |
| AddSampleSpecs.DefaultSpecifications | scripts/add-sample-specs.ts:107-112 | the default entry has more than three specification keys |
| AddSampleSpecs.SampleSpecsByType | scripts/add-sample-specs.ts:44-124 | every entry of the table has specifications with more than three keys |
| AddSampleSpecs.SampleTableSpecifies | scripts/add-sample-specs.ts:44-124 | all three entries of the script's table have more than three specification keys |
| AddSampleSpecs.Merge | scripts/add-sample-specs.ts:149-158 | the entry wins for specifications, features, dimensions and compatibility; part numbers are the product's, else the entry's, else the uppercased id; images are the product's, else its one image, else none; nothing else changes |
| AddSampleSpecs.EnhanceSample | scripts/add-sample-specs.ts:129-159 | a product with more than three keys is returned as it is; any other is merged with the entry of its type (processor first, then portable or x-ray, else default) |
| AddSampleSpecs.EnhanceSampleSpecified | scripts/add-sample-specs.ts:129-159 | every enhanced product has more than three specification keys |
| AddSampleSpecs.EnhanceSampleTwice | scripts/add-sample-specs.ts:129-159 | enhancing an enhanced product returns it unchanged |
| AddSampleSpecs.FreshIffChanged | scripts/add-sample-specs.ts:177-179 | a new object is returned exactly when the product's contents change |
| AddSampleSpecs.ProcessDataFile | scripts/add-sample-specs.ts:164-193 | the file becomes every product enhanced, the count is the number of products that got a new object, and the file is written |
| AddSampleSpecs.EnhancedCountIsChanged | scripts/add-sample-specs.ts:175-186 | the count by reference equals the number of products whose contents change |
| AddSampleSpecs.SecondPassUnchanged | scripts/add-sample-specs.ts:164-193 | after one pass a second pass enhances nothing and changes nothing |
| AddSampleSpecs.AddSpecsAllFiles | scripts/add-sample-specs.ts:198-222 | each readable file is enhanced with the script's table and an unreadable one is skipped without stopping the others |
| AddSampleSpecs.SecondRunChangesNothing | scripts/add-sample-specs.ts:198-222 | running the script twice changes nothing the second time |
| UpdateToPnwxImages.StripTrailingSlash | scripts/update-to-pnwx-images.ts:39 | one trailing '/' is removed, and a url without one is kept |
| UpdateToPnwxImages.DirectCandidates | scripts/update-to-pnwx-images.ts:42-50 | seven candidates in the page's own directory |
| UpdateToPnwxImages.SubdirCandidatesLength | scripts/update-to-pnwx-images.ts:53-60 | three candidates per sub-directory |
| UpdateToPnwxImages.CandidatesCount | scripts/update-to-pnwx-images.ts:42-72 | 19 candidates before de-duplication, plus 3 when the url path has a non-empty segment |
| UpdateToPnwxImages.ImageUrlsHead | scripts/update-to-pnwx-images.ts:31-43 | no url gives no candidates; otherwise the first URL is the stripped url, '/', the id and '.jpg' |
| UpdateToPnwxImages.ImageUrlsDistinct | scripts/update-to-pnwx-images.ts:74-76 | the URLs have no repeats, are exactly the candidates, and appear in the order of each one's first occurrence among the candidates |
| Sequences.DedupFirstOrder | scripts/update-to-pnwx-images.ts:75-76 | `Array.from(new Set(xs))` lists the elements in the order of their first occurrence in xs |
| UpdateToPnwxImages.GenerateImageUrls | scripts/update-to-pnwx-images.ts:31-77 | the pushes, sub-directory by sub-directory, build the candidate list, and the result is its de-duplication |
| UpdateToPnwxImages.FirstFive | scripts/update-to-pnwx-images.ts:105 | a prefix of at most five URLs, all of them when there are fewer |
| UpdateToPnwxImages.UpdateProductImages | scripts/update-to-pnwx-images.ts:82-107 | a product with a real pnwx.com image, or without a url, is returned unchanged; otherwise its image is the first URL and its gallery the first five |
| UpdateToPnwxImages.UpdateAssigns | scripts/update-to-pnwx-images.ts:99-106 | the new image is the first candidate and heads a distinct gallery of one to five URLs, and no other field changes |
| UpdateToPnwxImages.UpdateTwice | scripts/update-to-pnwx-images.ts:82-107 | updating an updated product gives the same product |
| UpdateToPnwxImages.ProcessFile | scripts/update-to-pnwx-images.ts:112-139 | the file becomes every product updated, the count is the number of products whose update differs, and the file is written |
| UpdateToPnwxImages.SecondRunChangesNothing | scripts/update-to-pnwx-images.ts:112-139 | a second run changes and counts nothing |
| UpdateToPnwxImages.UpdateAllFiles | scripts/update-to-pnwx-images.ts:144-164 | each readable file is processed and an unreadable one is skipped without stopping the others |
| UpdateImagePaths.FindIn | scripts/update-image-paths.ts:42-43 | the position found is the first product with the id, or the length when none has it |
| UpdateImagePaths.LocateFirst | scripts/update-image-paths.ts:41-57 | nothing is located iff no product has the id; otherwise the located product has the id and no product before it in category-then-product order does |
| UpdateImagePaths.UpdatedFirstOnly | scripts/update-image-paths.ts:43-56 | only the first product with the id changes: its gallery is the paths, its image the first path, nothing else of it changes, and the catalog keeps its shape |
| UpdateImagePaths.UpdateImagePaths | scripts/update-image-paths.ts:39-65 | the nested search stops at the first match, the result is the first-match update, and the file is written exactly when a product was found |
| UpdateImagePaths.UpdateFile | scripts/update-image-paths.ts:30-71 | an unreadable file and a missing id write nothing; otherwise the updated catalog is written |
| UpdateImagePaths.Listing | scripts/update-image-paths.ts:81-88 | one line per product, in order, with its id and whether it has a non-placeholder image |
| UpdateImagePaths.ListProducts | scripts/update-image-paths.ts:73-97 | the nested loops list every product of the file in traversal order |
| UpdateImagePaths.ParseArgs | scripts/update-image-paths.ts:100-161 | no arguments show the usage; update needs a file, an id and at least one path; list needs a file; anything else exits with status 1 |
| UpdateImagePaths.ParseArgsComplete | scripts/update-image-paths.ts:136-155 | update runs iff there are at least four arguments, list iff there are at least two |
| ImageRotation.Wrap | scripts/cycle-medical-images.ts:42 | the position chosen in a pool of n images is below n |
| ImageRotation.WrapIsMod | scripts/cycle-medical-images.ts:42 | the position is the product number modulo the pool size |
| ImageRotation.WrapNext | scripts/update-json-with-images.ts:58-60 | the next product's position is one on, or back to 0 at the end of the pool |
| ImageRotation.ImageFor | scripts/cycle-medical-images.ts:41-43 | the chosen image is in the pool |
| ImageRotation.ImageForPeriodic | scripts/cycle-medical-images.ts:41-43 | the chosen image is pool[k mod n], and it repeats after a full round of the pool |
| ImageRotation.ImageForNext | scripts/use-pnwx-images.ts:65-73 | consecutive product numbers take consecutive images, wrapping round |
| ImageRotation.ThreeImages | scripts/update-json-with-images.ts:58-63 | the gallery has three pool images and starts with the main image |
| ImageRotation.ThreeImagesDistinct | scripts/update-json-with-images.ts:26-37 | with at least three distinct images in the pool the gallery has no repeats |
| ImageRotation.SingleAssigns | scripts/use-pnwx-images.ts:65-69 | the single-image update sets the image and a one-image gallery and nothing else |
| ImageRotation.RotationAssigns | scripts/update-json-with-images.ts:58-63 | the gallery update sets the image and the three-image gallery and nothing else; with three distinct images the gallery has no repeats |
| ImageRotation.SingleInFile | scripts/cycle-medical-images.ts:65-77 | with the counter started at a file's first product, its k-th product gets image start + k, and the file keeps its shape |
| ImageRotation.SingleAcrossFiles | scripts/use-pnwx-images.ts:39-81 | with one counter over all files, the k-th product of a file gets the image numbered by all earlier products plus k |
| ImageRotation.RotationAcrossFiles | scripts/update-json-with-images.ts:45-67 | with one counter over all files, each product gets the image numbered by its position overall and the three-image gallery from there |
| CycleMedicalImages.ImageForProduct | scripts/cycle-medical-images.ts:41-43 | the image is one of the seven |
| CycleMedicalImages.ImageForProductMod | scripts/cycle-medical-images.ts:28-43 | the image is the one at the index modulo 7, and repeats every seven products |
| CycleMedicalImages.UpdateProductImage | scripts/cycle-medical-images.ts:48-56 | the image and a one-image gallery are set to the chosen image and nothing else changes |
| CycleMedicalImages.ProcessFile | scripts/cycle-medical-images.ts:58-84 | every product, numbered from 0 in the file, is updated; the count is the number of products; the file is written |
| CycleMedicalImages.ProcessFileProducts | scripts/cycle-medical-images.ts:65-77 | the k-th product of the file is the update of the k-th product read, with index k |
| CycleMedicalImages.UpdateAll | scripts/cycle-medical-images.ts:86-96 | the files are processed in order, each with its own counter, and the first unreadable file ends the run |
| UsePnwxImages.CyclesReportedCovers | scripts/use-pnwx-images.ts:86-88 | the reported number of rounds, the total over 8 rounded up, is the least that covers every product |
| UsePnwxImages.UpdateProductsWithPnwxImages | scripts/use-pnwx-images.ts:27-96 | the files read so far are mapped with one counter over all of them; each file's count is its number of products, the total is their sum, and the rounds cover the total |
| UpdateJsonWithImages.MedicalImagesDistinct | scripts/update-json-with-images.ts:26-37 | the ten paths are distinct, so every three-image gallery has no repeats |
| UpdateJsonWithImages.UpdateJsonFiles | scripts/update-json-with-images.ts:39-78 | the files read so far get the three-image rotation with one counter over all of them; each file's count is its number of products, and the counter ends at the total |
| DownloadMedicalImages.LocalPathInjective | scripts/download-medical-images.ts:120 | different file names give different local paths |
| DownloadMedicalImages.Downloaded | scripts/download-medical-images.ts:115-136 | the pool has at most one path per image |
| DownloadMedicalImages.DownloadedMember | scripts/download-medical-images.ts:117-134 | a path is in the pool iff it is the local path of a download that succeeded |
| DownloadMedicalImages.AllDownloadedPaths | scripts/download-medical-images.ts:117-134 | when every download succeeds the pool is every local path, in order |
| DownloadMedicalImages.FileNamesDistinct | scripts/download-medical-images.ts:29-80 | the ten file names are distinct |
| DownloadMedicalImages.PoolDistinct | scripts/download-medical-images.ts:117-134 | whatever arrives, the pool has no repeats, and with three or more images no gallery repeats one |
| DownloadMedicalImages.DownloadedDistinct | scripts/download-medical-images.ts:117-134 | distinct file names give a pool without repeats |
| DownloadMedicalImages.DownloadAllImages | scripts/download-medical-images.ts:108-137 | the accumulation loop pushes the local path of each successful download, in order, and skips failures |
| DownloadMedicalImages.UpdateProducts | scripts/download-medical-images.ts:139-180 | an empty pool fails with "No images downloaded" and writes nothing; otherwise the files read get the three-image rotation with one counter over all of them, and the run ends with the total or at the first unreadable file |
| DownloadMedicalImages.DownloadAndUpdate | scripts/download-medical-images.ts:182-210 | with no image downloaded nothing is updated, so the empty-pool error is never raised; otherwise the downloaded pool is cycled through the files |
| GenerateImageReport.RowFor | scripts/generate-image-report.ts:60-73 | a row lists the image iff the product has one: a local /images/ path whatever it contains, or an http URL without 'placeholder'; a needs-image row says Placeholder iff the image contains 'placeholder' |
| GenerateImageReport.RowsOf | scripts/generate-image-report.ts:52-74 | exactly one row per product, in traversal order |
| GenerateImageReport.FileCountsAddUp | scripts/generate-image-report.ts:47-77 | in each file, the products with and without images add up to its products |
| GenerateImageReport.FilesCountWhere | scripts/generate-image-report.ts:37-39 | a total over the files never exceeds their number of products |
| GenerateImageReport.TotalsAddUp | scripts/generate-image-report.ts:57-74 | over all files, withImages + needsImages == totalProducts |
| GenerateImageReport.ReportCategory | scripts/generate-image-report.ts:57-74 | the inner loop counts the products with and without images and emits their rows |
| GenerateImageReport.ReportFile | scripts/generate-image-report.ts:47-77 | the loops of one file count its products, those with and without images, and emit one row per product |
| GenerateImageReport.AllReadSome | scripts/generate-image-report.ts:43-45 | the files are all read iff none fails, and then each is the one read |
| GenerateImageReport.PerFile | scripts/generate-image-report.ts:77 | each file's summary line is its number of products with images and its number of products |
| GenerateImageReport.FilesSnoc | scripts/generate-image-report.ts:43-78 | one more file adds its counts to the totals and appends its summary line and its rows |
| GenerateImageReport.AddFile | scripts/generate-image-report.ts:43-78 | one iteration of the file loop turns the report over the files so far into the report over one more file |
| GenerateImageReport.GenerateReport | scripts/generate-image-report.ts:27-108 | a file that cannot be read ends the run with no report; otherwise the report is the per-file lines, the totals and the rows over all files |
| ScrapeImages.ResolveUrlAbsolute | scripts/scrape-images.ts:94-99 | against an http base every resolved src starts with http, and resolving again changes nothing |
| ScrapeImages.LeadingDigits | scripts/scrape-images.ts:104 | the digits parseInt reads are the longest prefix of digits in the radix |
| ScrapeImages.ParseIntNumeral | scripts/scrape-images.ts:104 | parseInt reads back the decimal numeral of every natural number |
| ScrapeImages.Accepted | scripts/scrape-images.ts:90-113 | a URL is pushed only for an element with a src that is not tiny, and the URL is not a spacer, pixel or icon |
| ScrapeImages.PushedMembers | scripts/scrape-images.ts:90-114 | a URL is pushed iff some element passes every test with that URL |
| ScrapeImages.ImageUrlsExactly | scripts/scrape-images.ts:86-117 | the URLs are exactly those of the elements that pass, without duplicates, none of them junk, and all absolute against an http base |
| ScrapeImages.ExtractImageUrls | scripts/scrape-images.ts:86-117 | the each callback pushes, in document order, the URL of every element that passes, and the result is its de-duplication |
| ScrapeImages.SafeName | scripts/scrape-images.ts:126 | the safe name has the basename's length, only lowercase letters, digits and '-', and a '-' exactly where the basename has a non-alphanumeric character |
| ScrapeImages.FileNameShape | scripts/scrape-images.ts:122-128 | the file name starts with the product id and '-', and ends with the extension, or '.jpg' when there is none |
| ScrapeImages.Tries | scripts/scrape-images.ts:187-202 | every URL is downloaded or fails until one cannot be parsed; each saved path is under /images/ and named after the product |
| ScrapeImages.TriesStayAborted | scripts/scrape-images.ts:187-217 | once a URL has thrown, no later URL is tried |
| ScrapeImages.FromTallyUpdates | scripts/scrape-images.ts:204-217 | after at most three tries the product is updated only when something was downloaded, with one image per download, image the first of one to three local copies and nothing else changed |
| ScrapeImages.ScrapeUpdates | scripts/scrape-images.ts:157-218 | a product without a url, with a placeholder url or with a local image counts one skip and is left as it is; a page that cannot be fetched counts one failure, and a page with no image one skip; at most three downloads are tried; a product is modified only when each of its images was downloaded, at least one; its image is then the first of one to three local copies named after it, and nothing else changes |
| ScrapeImages.ScrapeTwice | scripts/scrape-images.ts:164-169 | a second run changes nothing, because an updated product now has a local image and is skipped |
| ScrapeImages.DownloadImages | scripts/scrape-images.ts:184-202 | the download loop names and downloads each URL in turn and counts successes and failures; a URL that cannot be parsed throws out of it |
| ScrapeImages.ScrapeProduct | scripts/scrape-images.ts:157-218 | the per-product body, with its early continues, gives the product, counts and flag of the per-product rules |
| ScrapeImages.ModifiedIffChanged | scripts/scrape-images.ts:152-209 | the file is marked modified iff the run changes one of its products |
| ScrapeImages.SecondRunWritesNothing | scripts/scrape-images.ts:147-226 | a run over the file the scraper wrote changes nothing and writes nothing |
| ScrapeImages.ScrapeCategory | scripts/scrape-images.ts:157-218 | the loop over one category updates every product in place and adds up their counts |
| ScrapeImages.ScrapeFile | scripts/scrape-images.ts:154-219 | the loops over one file update every product and add up the counts |
| ScrapeImages.Writes | scripts/scrape-images.ts:221-225 | one entry per file: its new contents when a product changed, otherwise nothing |
| ScrapeImages.ScrapeAll | scripts/scrape-images.ts:133-234 | the files are processed in order, each written only when one of its products changed, and the run stops at the first unreadable file |
| TestImageScraper.ExtractImageUrlsCopy | scripts/test-image-scraper.ts:37-65 | the dry run's copy of extractImageUrls computes exactly what the scraper's does |
| TestImageScraper.EntryFor | scripts/test-image-scraper.ts:82-98 | a product is listed with its name and url; it is found iff its page is fetched, and then the number given is the number of its image URLs and exactly the first min(3, n) of them are shown |
| TestImageScraper.RunFindsAtMostThree | scripts/test-image-scraper.ts:76-103 | the run fetches as many pages as there are fetchable products, never more than three, and the count equals the number of pages listed |
| TestImageScraper.RunCounts | scripts/test-image-scraper.ts:79-100 | for any attempt that finds a page exactly on some products, the count is the number of those products capped at three |
| TestImageScraper.RunAppend | scripts/test-image-scraper.ts:77-103 | the run over two lists is the run over the first, continued over the second from the count it reached |
| TestImageScraper.RunStopped | scripts/test-image-scraper.ts:79-102 | once three pages have been fetched nothing more is tried or printed |
| TestImageScraper.RunStopsAt | scripts/test-image-scraper.ts:79-100 | once a prefix of the products has fetched three pages, the rest are not looked at |
| TestImageScraper.RunCategoryStep | scripts/test-image-scraper.ts:77-103 | one more category continues the run from the count reached |
| TestImageScraper.RunStopsAtCategory | scripts/test-image-scraper.ts:102 | once the earlier categories have fetched three pages, the later categories are not looked at |
| TestImageScraper.TryProduct | scripts/test-image-scraper.ts:80-98 | a product without a url or with a placeholder url is passed over; otherwise its page is fetched and its URLs listed |
| TestImageScraper.TestCategory | scripts/test-image-scraper.ts:78-101 | the inner loop with its breaks is the run over the category's products from the count so far |
| TestImageScraper.TestFile | scripts/test-image-scraper.ts:76-103 | the nested loops with their breaks print the entries of the run over the file's products from a count of 0 |
| TestImageScraper.TestScraping | scripts/test-image-scraper.ts:67-109 | an unreadable equipment file lists nothing and the run does not complete; otherwise the run over its products is listed and completes |
| ScrapeDetailedSpecs.FirstNonEmpty | scripts/scrape-detailed-specs.ts:78-82 | the chain of or-fallbacks over the four name candidates gives "" only when every candidate is empty, and otherwise the first non-empty candidate |
| ScrapeDetailedSpecs.DescriptionOf | scripts/scrape-detailed-specs.ts:85-98 | no description exactly when no selector text is longer than 20 characters once trimmed; otherwise the trimmed text of the first selector that is |
| ScrapeDetailedSpecs.FindDescription | scripts/scrape-detailed-specs.ts:92-98 | the loop over the selectors, left at the first match, gives DescriptionOf |
| ScrapeDetailedSpecs.ManufacturerFirst | scripts/scrape-detailed-specs.ts:101-109 | no manufacturer exactly when no element names one; otherwise the one named by the first element that names one, so later elements never override it |
| ScrapeDetailedSpecs.FindManufacturer | scripts/scrape-detailed-specs.ts:101-109 | the loop over the text elements gives the manufacturer ManufacturerFirst describes |
| ScrapeDetailedSpecs.CollectItems | scripts/scrape-detailed-specs.ts:112-120 | building a list element by element fails exactly when some element throws, and otherwise holds exactly the items the elements add |
| ScrapeDetailedSpecs.CollectSnoc | scripts/scrape-detailed-specs.ts:112-120 | one more element adds its item, adds nothing, or abandons the list |
| ScrapeDetailedSpecs.CollectAbandoned | scripts/scrape-detailed-specs.ts:112-120 | once an element has thrown, the later elements cannot bring the list back |
| ScrapeDetailedSpecs.CollectImages | scripts/scrape-detailed-specs.ts:112-120 | the `img` loop gives the usable sources as absolute URLs without repeats in first-seen order, or failure when one cannot be resolved |
| ScrapeDetailedSpecs.SpecsOfLastWins | scripts/scrape-detailed-specs.ts:136 | each key of the specifications holds the value of the last entry with that key |
| ScrapeDetailedSpecs.SpecsFromRows | scripts/scrape-detailed-specs.ts:128-140 | a key is present exactly when some accepted row has it, with the value of an accepted row with that key; keys are non-empty and under 100 characters, values non-empty |
| ScrapeDetailedSpecs.SpecsOfPicked | scripts/scrape-detailed-specs.ts:128-140 | for any row filter, a key is present exactly when some row gives it, with the value of a row that gives it |
| ScrapeDetailedSpecs.CollectSpecs | scripts/scrape-detailed-specs.ts:128-140 | the loops over tables and rows give the specifications SpecsFromRows describes |
| ScrapeDetailedSpecs.FeaturesBounded | scripts/scrape-detailed-specs.ts:143-148 | every feature is the trimmed text of some list item, of 11 to 499 characters |
| ScrapeDetailedSpecs.CollectFeatures | scripts/scrape-detailed-specs.ts:143-148 | the loop over the list items gives the features FeaturesBounded describes, in page order |
| ScrapeDetailedSpecs.CollectCompatibility | scripts/scrape-detailed-specs.ts:201-212 | the loop gives the trimmed texts that mention a compatibility phrase and are under 500 characters, without repeats, in first-seen order |
| ScrapeDetailedSpecs.CollectPartNumbers | scripts/scrape-detailed-specs.ts:169-176 | the `exec` loop gives the non-empty trimmed captures without repeats, in first-seen order |
| ScrapeDetailedSpecs.DocTypeOf | scripts/scrape-detailed-specs.ts:187-190 | the document type is never `doc` |
| ScrapeDetailedSpecs.DocumentsNamed | scripts/scrape-detailed-specs.ts:179-198 | every document has a non-empty name, a type other than `doc`, and the absolute URL of some link whose href looks like a document |
| ScrapeDetailedSpecs.CollectDocuments | scripts/scrape-detailed-specs.ts:179-198 | the loop over the links gives the documents DocumentsNamed describes, or failure when an href cannot be resolved |
| ScrapeDetailedSpecs.Kept | scripts/scrape-detailed-specs.ts:225-229 | an empty list is deleted and any other one kept as it is |
| ScrapeDetailedSpecs.KeptSpecs | scripts/scrape-detailed-specs.ts:230 | empty specifications are deleted and any others kept as they are |
| ScrapeDetailedSpecs.PricingOf | scripts/scrape-detailed-specs.ts:215-222 | pricing is present exactly when a price was found, and then holds that price and the fixed note |
| ScrapeDetailedSpecs.ScrapeProductPage | scripts/scrape-detailed-specs.ts:54-237 | the page, section by section, gives the record Scrape defines |
| ScrapeDetailedSpecs.ScrapeFails | scripts/scrape-detailed-specs.ts:54-237 | a page that cannot be fetched gives the url alone; a fetched page gives the url alone exactly when some image or document URL on it cannot be resolved |
| ScrapeDetailedSpecs.FromPageCleaned | scripts/scrape-detailed-specs.ts:66-232 | after the clean-up no list and no table is present but empty; the main image is the first image and the images have no repeats; the name, technical details and dimensions are always present |
| ScrapeDetailedSpecs.ScrapeCleaned | scripts/scrape-detailed-specs.ts:54-237 | every page that scrapes was fetched and resolved, and gives the cleaned record FromPageCleaned describes |
| ScrapeDetailedSpecs.MergeLaws | scripts/scrape-detailed-specs.ts:267-270 | merging the url alone leaves the product unchanged, and merging the same data twice is merging it once |
| ScrapeDetailedSpecs.EnhancedOverwrites | scripts/scrape-detailed-specs.ts:267-270 | a scraped page replaces the product's name, by "" when every name candidate is empty, empties its technical details and replaces its dimensions |
| ScrapeDetailedSpecs.EnhancedTwice | scripts/scrape-detailed-specs.ts:254-278 | enhancing an enhanced product again with the same pages changes nothing |
| ScrapeDetailedSpecs.EnhanceProduct | scripts/scrape-detailed-specs.ts:254-273 | a product without a url is skipped and not counted; any other one is merged with its page and counted |
| ScrapeDetailedSpecs.EnhanceCategory | scripts/scrape-detailed-specs.ts:254-278 | every product of the category is enhanced in place, the ones with a url are counted, and no error is counted |
| ScrapeDetailedSpecs.EnhanceDataFile | scripts/scrape-detailed-specs.ts:242-290 | every product of the file is enhanced, processedCount is the number with a url, and errorCount is 0 |
| ScrapeDetailedSpecs.EnhanceFileTwice | scripts/scrape-detailed-specs.ts:242-290 | enhancing the written catalog again with the same pages gives the same catalog |
| ScrapeDetailedSpecs.OutputPathBeside | scripts/scrape-detailed-specs.ts:282 | a path holding `.json` gets a different output path 9 characters longer; any other path would be written over itself |
| ScrapeDetailedSpecs.EnhanceAll | scripts/scrape-detailed-specs.ts:295-316 | each file that reads is written to its `-detailed.json` name; unreadable files are skipped; the total is the sum of the products processed and the error total is 0 |
| ScrapeDetailedSpecs.DataFilesOutputs | scripts/scrape-detailed-specs.ts:282-307 | none of the four catalog files is written over itself |
| Traversal.ReplaceIndexed | scripts/cycle-medical-images.ts:67-80 | the numbered loop over categories and products replaces the k-th product by f(start + k, product) and leaves the counter at start plus the number of products |
| Traversal.ReplaceIndexedProducts | scripts/cycle-medical-images.ts:70-79 | the inner loop replaces the j-th product of a category by f(start + j, product) |
| Traversal.ReplaceWhere | scripts/update-to-pnwx-images.ts:120-133 | the loop that writes a slot only when the test holds leaves every product equal to f of the original, and counts exactly the products the test holds of |
| Traversal.ReplaceAcrossFiles | scripts/use-pnwx-images.ts:53-82 | the files are processed in order with the counter running on across them, until the first file that cannot be read; each file's count is its number of products and the total is their sum |
| Traversal.MapAllTwice | scripts/update-to-pnwx-images.ts:120-133 | an update that is idempotent on products is idempotent on the whole catalog |
| Traversal.ChangedZero | scripts/update-to-pnwx-images.ts:127-129 | no product is counted as changed exactly when the update leaves the catalog as it is |

## Left out

- File reading and writing, `JSON.parse` and `JSON.stringify`: contents are inputs and outputs. The order of keys in the written JSON is not modelled. The change test compares values, where the source compares the text.
- Console output and the report's printed layout are not modelled. Only the counts and rows the scripts compute are.
- `fetch`, `https.get`, downloads and redirect following are function parameters. The model captures whether a page or image arrived, and what it holds, not how.
- cheerio and CSS selector semantics: each selector's result list is an input.
- The regular-expression scans over the page text: dimensions, part numbers and price. Their matches are inputs.
- `new URL(...)`, `path.extname` and `path.basename` are function parameters.
- Case mapping is ASCII only. Unicode `toLowerCase` and `toUpperCase` are not modelled.
- The `setTimeout` rate limiting, `Date` formatting and the floating-point percentages of the report are not modelled.
- `Promise` scheduling is not modelled. The scripts await each step in turn, so the model runs them in sequence.
- `fs.mkdir` of the image directory is not modelled.
- Page rendering, layout and navigation (all JSX) are not modelled. Only the filter and the filter bar's state are.
- ScrapeDetailedSpecs.Compatible: the source loops over the four compatibility phrases and pushes a text at most once. The model checks all four phrases at once, which gives the same list.
- ScrapeDetailedSpecs.SpecsFromRows: states only that a key's value comes from an accepted row with that key. Which row (the last one) is stated on the entry list by ScrapeDetailedSpecs.SpecsOfLastWins.
- ScrapeDetailedSpecs.SpecsOfPicked: weaker in the same way as SpecsFromRows.

## Notes on the source

- The manufacturer is `text.split(':')[1]`, trimmed. That is the text between the first and second `:`, not everything after the first.
- In `enhanceDataFile`, `scrapeProductPage` catches every error itself. So `errorCount` is always 0, and ScrapeDetailedSpecs.EnhanceDataFile states it.
- A page that is fetched always sets `name`, even to "" when every candidate is empty, and that replaces the product's name (ScrapeDetailedSpecs.EnhancedOverwrites). `technicalDetails` is always an empty list, which replaces any the product had.
- The filter bar's `totalItems` adds up the declared `itemCount` values. These need not equal the number of products (FilterBar.TotalItemsNotProducts).
- `cycle-medical-images`, `use-pnwx-images`, `update-json-with-images` and `download-medical-images` have no handler for a single file. The first file that cannot be read ends the run: the error reaches the handler around the whole run, and the later files are neither read nor written (`Traversal.ReadPrefix`).
