# Catalogue snapshot pipeline and its downstream jobs, in Dafny

This project models the product-catalogue scripts of `Master/Programas/Aplicacion`
and proves properties of the model. The scripts keep a shop's catalogue in step
with a wholesaler's feeds.

The centre is the snapshot pipeline of `DescargaJSON_2.2.4.py`. It runs these
stages in order:

1. Download the JSON feed and the XML toner feed by FTP, with a bounded retry (`Descarga`).
2. Turn the XML products into the JSON record shape (`XmlConversion`).
3. Fold the newest feed files into one dict keyed by `clave` (`Combination`, over `FileSystem`).
4. Split that dict against the newest final snapshot into new, common and dropped products (`Comparison`).
5. Write the new final snapshot, sorted by `clave` (`ClaveOrder`).
6. During the ten minutes after midnight, move every file but the newest into a dated backup folder (`Backup`).

`Pipeline` strings the stages together. A stage that raises ends the run.

Around the pipeline sit the jobs that consume its snapshots:

- **Shopify tag and stock updates.** `ActualizarProductos` (with `Tags`, the shared `sanitize_tags`) pushes records to the shop. `ActualizarCero` sets the stock of listed SKUs to zero.
- **Product creation.** `NoExistentes` creates the products reported as missing. `CrearProductos` creates the new ones. Both use `Images` to split a product's image files into a primary and secondary ones.
- **Scraping selection.** `DescargaSinToners` chooses which products to scrape and where their files go.
- **Page conversion.** `ConversionCaracteristicas` and `ConversionInfoAdicional` turn scraped pages into `<dt>`/`<dd>` sub-accordions and keep counts. Both build on `Html`, a model of the few BeautifulSoup operations they use.
- **Uploads.** `SubirTabla` uploads the converted accordions as metafields. `SubirPdf` uploads the data sheets.
- **Images.** `ImagenesFinal` scales the image files and keeps their bookkeeping.
- **Support.** `Reset` schedules the reset job. `Config` derives the directory table.

`Common` holds the JSON value type, Python truthiness and the `str` methods the scripts call.

Whatever talks to the outside world is an input to the model:

- FTP, HTTP and Shopify answers;
- what the database returns, and the file system beyond directory listings, modification times and parsed contents;
- templates, the clock and image processing.

A database write is modelled as an answer that may refuse it: where a script catches the error and rolls back, a refused write leaves the table as it was, while the counters and report lines the script keeps still change as they do in the script (`ConversionInfoAdicional`, `ConversionCaracteristicas`, `SubirTabla`, `SubirPdf`).

Each operation that loops or changes state is a method with loop invariants. It is proved against a function that specifies it, and the properties the scripts promise are lemmas about those functions.

The model follows the code where it differs from the design description of the pipeline:

- An unparseable JSON download is retried, not fatal. The re-raise at `DescargaJSON_2.2.4.py:102` is caught by the handler at line 103 (`Descarga.DownloadAndValidate`).
- The backup window includes its end, ten minutes past midnight (`DescargaJSON_2.2.4.py:419`, `Backup.InWindow`).
- Synthetic keys are numbered `len(dict) + 1` at the moment a keyless record is filed, not 1..N (`DescargaJSON_2.2.4.py:216`, `Combination.KeylessRecordIsAdded`).
- The comparison skips only records that lack a `clave` field (`DescargaJSON_2.2.4.py:281`). The combiner treats every falsy `clave`, `""` included, as keyless (`DescargaJSON_2.2.4.py:210-211`). `Comparison.ClaveOf` and `Combination.FilingOf` keep the two rules apart.

## Model

| member | source | states |
|---|---|---|
| Descarga.DownloadFile | Master/Programas/Aplicacion/DescargaJSON_2.2.4.py:48-71 | At most three attempts; true exactly when some attempt succeeds, and then the first success ends the loop; false only after the third failure; one 30-second pause after each failed attempt except the last |
| Descarga.DownloadAndValidate | Master/Programas/Aplicacion/DescargaJSON_2.2.4.py:74-109 | A payload that does not parse deletes the temp file and counts as a failed, retried attempt; success exactly when some attempt brings a parsing payload, the first one ending the loop; the final file changes only to a parsed payload, and no other file changes |
| XmlConversion.FirstWithTag | Master/Programas/Aplicacion/DescargaJSON_2.2.4.py:153 | `find` gives a child carrying the tag, or nothing |
| XmlConversion.ChildrenTagged | Master/Programas/Aplicacion/DescargaJSON_2.2.4.py:125 | `findall('./Producto')` keeps only children with the tag, never more than there are |
| XmlConversion.BaseProduct | Master/Programas/Aplicacion/DescargaJSON_2.2.4.py:126-151 | `protegido` is always 0; `activo` is 1 exactly when the status lower-cases to "activo", and 0 otherwise; the stock table starts empty |
| XmlConversion.ProductsJson | Master/Programas/Aplicacion/DescargaJSON_2.2.4.py:166-168 | One JSON object per record written |
| XmlConversion.ProductsOf | Master/Programas/Aplicacion/DescargaJSON_2.2.4.py:125-162 | One record per `Producto` element |
| XmlConversion.ProductsOfAt | Master/Programas/Aplicacion/DescargaJSON_2.2.4.py:125-162 | The `i`-th record is the conversion of the `i`-th element: document order is kept |
| XmlConversion.XmlToJson | Master/Programas/Aplicacion/DescargaJSON_2.2.4.py:112-177 | Fails exactly when the XML does not parse; otherwise one record per `Producto`, in document order, the count returned being their number |
| XmlConversion.ConvertProduct | Master/Programas/Aplicacion/DescargaJSON_2.2.4.py:126-162 | The loop body builds the record, fills the stock table from the `existencia` children and extends the name |
| XmlConversion.PrintedIdReadsBack | Master/Programas/Aplicacion/DescargaJSON_2.2.4.py:132-136 | An `id*` field whose text is a printed number reads back as that number |
| XmlConversion.StockTableLastWins | Master/Programas/Aplicacion/DescargaJSON_2.2.4.py:153-156 | A branch repeated under `existencia` holds the stock of its last occurrence |
| XmlConversion.StockTableKeys | Master/Programas/Aplicacion/DescargaJSON_2.2.4.py:153-156 | The stock table has a key exactly for each branch tag |
| XmlConversion.FullNameHoldsBrandAndModel | Master/Programas/Aplicacion/DescargaJSON_2.2.4.py:158-160 | Once extended, the name holds both the brand and the model |
| XmlConversion.FullNameIdempotent | Master/Programas/Aplicacion/DescargaJSON_2.2.4.py:158-160 | Extending an already extended name changes nothing |
| FileSystem.PathJoin | Master/Programas/Aplicacion/DescargaJSON_2.2.4.py:202 | `os.path.join`: an absolute second part replaces the first, otherwise one slash separates them |
| FileSystem.WithExtension | Master/Programas/Aplicacion/DescargaJSON_2.2.4.py:189 | Exactly the entries whose lower-cased name ends with the extension, in listing order |
| FileSystem.NewestIndex | Master/Programas/Aplicacion/DescargaJSON_2.2.4.py:269 | `max(..., key=getmtime)`: no entry is later than the one picked, and no earlier entry in listing order ties with it |
| FileSystem.NewestFile | Master/Programas/Aplicacion/DescargaJSON_2.2.4.py:260-274 | Nothing exactly when the directory cannot be listed or holds no file with the extension |
| FileSystem.NewestFileIsLatest | Master/Programas/Aplicacion/DescargaJSON_2.2.4.py:260-274 | The name returned is an entry with the extension, and no entry with the extension is later |
| FileSystem.InsertByMtime | Master/Programas/Aplicacion/DescargaJSON_2.2.4.py:195 | Inserting one entry keeps the listing newest first and adds exactly that entry |
| FileSystem.ByMtimeDesc | Master/Programas/Aplicacion/DescargaJSON_2.2.4.py:195 | The sort by modification time, newest first, is a permutation of the listing |
| FileSystem.Take | Master/Programas/Aplicacion/DescargaJSON_2.2.4.py:198 | `[:n]` keeps `min(n, len)` entries |
| FileSystem.LatestAreNewest | Master/Programas/Aplicacion/DescargaJSON_2.2.4.py:194-198 | The `n` files selected are at least as recent as every file left out, and with those they make up the listing |
| Combination.SynthKey | Master/Programas/Aplicacion/DescargaJSON_2.2.4.py:216 | Synthetic keys all start with `sin_clave_` |
| Combination.SynthKeyInjective | Master/Programas/Aplicacion/DescargaJSON_2.2.4.py:216 | Different numbers give different synthetic keys |
| Combination.FoldRecordsErrSticks | Master/Programas/Aplicacion/DescargaJSON_2.2.4.py:229-234 | Once a file fails, the whole combination fails with that error |
| Combination.FoldPayload | Master/Programas/Aplicacion/DescargaJSON_2.2.4.py:208-218 | The loop over one file's products, proved against the fold over its records |
| Combination.FoldFilesErrSticks | Master/Programas/Aplicacion/DescargaJSON_2.2.4.py:201-234 | A file that fails to load stops the combination with its error |
| Combination.Combine | Master/Programas/Aplicacion/DescargaJSON_2.2.4.py:180-257 | The sorted records of the newest `.json` files of both directories, folded in order; an empty result is an error |
| Combination.LastRecordWins | Master/Programas/Aplicacion/DescargaJSON_2.2.4.py:209-214 | For a repeated clave, the last record folded is the one kept |
| Combination.KeylessRecordIsAdded | Master/Programas/Aplicacion/DescargaJSON_2.2.4.py:215-218 | A keyless record gets key `sin_clave_{len+1}`, which is new, so the dict grows by one and nothing else changes |
| Combination.FoldKeepsSyntheticKeysBounded | Master/Programas/Aplicacion/DescargaJSON_2.2.4.py:209-218 | The fold never shrinks the dict, and synthetic keys stay numbered at most its size, for records none of whose own `clave` looks like a synthetic key ("sin_clave_N") |
| Combination.KeylessRecordSurvives | Master/Programas/Aplicacion/DescargaJSON_2.2.4.py:215-218 | A keyless record is never dropped nor overwritten: it is still stored under its own synthetic key at the end, provided no record's own `clave` looks like a synthetic key ("sin_clave_N") |
| Combination.CombinedSnapshotShape | Master/Programas/Aplicacion/DescargaJSON_2.2.4.py:236-257 | The output is sorted by clave, holds each value of the dict exactly once, is never empty, and its length is the count returned |
| ClaveOrder.ClaveInsertIndex | Master/Programas/Aplicacion/DescargaJSON_2.2.4.py:243 | The insertion point lies after every record whose key sorts above the new one's and before the first that does not |
| ClaveOrder.InsertByClave | Master/Programas/Aplicacion/DescargaJSON_2.2.4.py:243 | Inserting keeps the list sorted by clave and adds exactly the record |
| ClaveOrder.SortByClave | Master/Programas/Aplicacion/DescargaJSON_2.2.4.py:243 | `sorted(..., key=clave)` (corrected key): sorted by clave, and a permutation of its input |
| ClaveOrder.SortByClaveAsWritten | Master/Programas/Aplicacion/DescargaJSON_2.2.4.py:243 | The key as written raises exactly when a record is not a dict, or there are two or more records and one key is null or a dict, or two keys are of kinds Python cannot compare (string or missing, number or boolean, list); when every clave is a string or missing it gives the stable sort by clave |
| ClaveOrder.FalsyClaveAbortsSort | Master/Programas/Aplicacion/DescargaJSON_2.2.4.py:215-218 | A record whose clave is falsy but not a string (null, 0, 0.0, false, [], {}), filed as keyless, makes the sort raise beside a record with a string clave; the corrected key sorts it as "" |
| ClaveOrder.NullClavesAbortSort | Master/Programas/Aplicacion/DescargaJSON_2.2.4.py:243 | Two null claves raise on their own, since None does not compare with None |
| ClaveOrder.SingleRecordSorts | Master/Programas/Aplicacion/DescargaJSON_2.2.4.py:243 | A single dict is never compared, so the sort gives it back whatever its clave |
| Comparison.ClaveOf | Master/Programas/Aplicacion/DescargaJSON_2.2.4.py:281 | `'clave' in prod` decides whether a record is kept; a kept record goes under its own hashable clave, and the test or the hash raising is an error |
| Comparison.KeyedMap | Master/Programas/Aplicacion/DescargaJSON_2.2.4.py:281 | Every entry is stored under its record's own clave, all values are input records, and there are no more entries than records |
| Comparison.KeyedMapCoversClaves | Master/Programas/Aplicacion/DescargaJSON_2.2.4.py:281 | Every record that has a hashable clave ends up under that clave |
| Comparison.Entries | Master/Programas/Aplicacion/DescargaJSON_2.2.4.py:303-305 | Exactly the entries whose clave is (or is not) in the other dict, in order |
| Comparison.Compare | Master/Programas/Aplicacion/DescargaJSON_2.2.4.py:277-310 | An unreadable combined file, or an unreadable final snapshot, is an error; a missing final snapshot counts as empty |
| Comparison.EntriesPartition | Master/Programas/Aplicacion/DescargaJSON_2.2.4.py:303-304 | The combined products split into new and common, none lost and none repeated |
| Comparison.FirstRunAllNew | Master/Programas/Aplicacion/DescargaJSON_2.2.4.py:293-295 | With no previous snapshot every combined product is new, and nothing is common or dropped |
| Comparison.DiffByClave | Master/Programas/Aplicacion/DescargaJSON_2.2.4.py:303-305 | New products have a clave the final snapshot lacks, common ones a clave it has, dropped ones a clave no longer combined |
| Comparison.DifferenceFiles | Master/Programas/Aplicacion/DescargaJSON_2.2.4.py:313-331 | Three files, written in the order Comun, Nuevo, Antiguo, each a sorted permutation of its list |
| Comparison.FinalSnapshotIsCombined | Master/Programas/Aplicacion/DescargaJSON_2.2.4.py:334-340 | The new final snapshot is sorted, and it is exactly the combined products, each once |
| Comparison.DroppedNotInSnapshot | Master/Programas/Aplicacion/DescargaJSON_2.2.4.py:340 | No dropped product shares its clave with a product of the new snapshot |
| Backup.ToMove | Master/Programas/Aplicacion/DescargaJSON_2.2.4.py:386-391 | Exactly the regular files of the directory whose name is not excluded |
| Backup.FailAt | Master/Programas/Aplicacion/DescargaJSON_2.2.4.py:400-403 | The files before the failing one all move; the one reported is the first whose move raises |
| Backup.MoveFiles | Master/Programas/Aplicacion/DescargaJSON_2.2.4.py:400-404 | The move loop, proved against moving the files in order up to the first that raises |
| Backup.MoveToBackup | Master/Programas/Aplicacion/DescargaJSON_2.2.4.py:383-410 | `mover_a_respaldo`: the counts and both directories afterwards; a listing or move that raises reports (0, 0), and the files already moved stay moved |
| Backup.RemoveNamesGet | Master/Programas/Aplicacion/DescargaJSON_2.2.4.py:400-403 | A name is gone from the source exactly when one of the moved files carries it |
| Backup.PutEntriesGet | Master/Programas/Aplicacion/DescargaJSON_2.2.4.py:400-403 | A moved file is in the backup folder unless a later moved file has the same name |
| Backup.PutEntriesOthers | Master/Programas/Aplicacion/DescargaJSON_2.2.4.py:400-403 | Names no moved file carries keep what the backup folder held |
| Backup.Excluded | Master/Programas/Aplicacion/DescargaJSON_2.2.4.py:445-454 | At most one file is kept back: the newest `.json` file, and only in the snapshot categories |
| Backup.BackupOne | Master/Programas/Aplicacion/DescargaJSON_2.2.4.py:432-462 | One category of the backup loop, proved against the category specification |
| Backup.RunBackup | Master/Programas/Aplicacion/DescargaJSON_2.2.4.py:413-467 | The backup runs exactly when 00:00 <= now <= 00:10, end included; outside the window nothing changes and the totals are 0; inside it, each category is backed up and the totals add up |
| Backup.NewestSurvives | Master/Programas/Aplicacion/DescargaJSON_2.2.4.py:445-454 | In Antiguo, Nuevo, Comun, BaseCompletaJSON and Final, the newest `.json` file stays in place |
| Backup.EverythingElseMoves | Master/Programas/Aplicacion/DescargaJSON_2.2.4.py:454-457 | When no move fails, every other regular file leaves the directory and arrives unchanged in the dated backup folder |
| Backup.SkippedCategoriesUnchanged | Master/Programas/Aplicacion/DescargaJSON_2.2.4.py:433-442 | A category without a backup directory, or whose dated folder cannot be created, is left untouched and adds nothing to the totals |
| Pipeline.FirstValid | Master/Programas/Aplicacion/DescargaJSON_2.2.4.py:77-103 | The first attempt whose payload parses: every earlier attempt failed or did not parse |
| Pipeline.RunPipeline | Master/Programas/Aplicacion/DescargaJSON_2.2.4.py:470-617 | The stages run in order: download JSON, count, download XML, convert (its file written), combine (its file written), compare, write the three lists, write the final snapshot, write the report. The failure reported is exactly the first stage that raises, a failed write included; the run completes exactly when every stage and every write succeeds, and then it writes the three lists and the final snapshot from the comparison and backs up |
| Pipeline.CompareAndWrite | Master/Programas/Aplicacion/DescargaJSON_2.2.4.py:541-610 | Comparison against the newest final snapshot, or all products new when there is none; fails at the comparison exactly when it raises, then at the first of the three lists, the final snapshot and the report whose write raises; otherwise writes the files, the summary and the backup |
| Pipeline.JsonStage | Master/Programas/Aplicacion/DescargaJSON_2.2.4.py:480-491 | The main feed succeeds exactly when some attempt brings a parsing payload; the file is then renamed with its time stamp |
| Pipeline.CombineStage | Master/Programas/Aplicacion/DescargaJSON_2.2.4.py:524-533 | The combiner over the newest file of each feed directory, failing too when the combined file cannot be written; a result it returns is never empty |
| Pipeline.CombinedFileListed | Master/Programas/Aplicacion/DescargaJSON_2.2.4.py:541-549 | The combined file just written is listed, so the fallback to the written path is never taken |
| Tags.FilterChars | Master/Programas/Aplicacion/ShopifyActualizarProductos_1.4.2.py:276 | The character filter keeps only letters, digits, `-`, `_`, `.` and blanks, never adding anything |
| Tags.RemoveChar | Master/Programas/Aplicacion/ShopifyActualizarProductos_1.4.2.py:277 | After `replace(',', '')` no comma is left |
| Tags.ReplaceChar | Master/Programas/Aplicacion/ShopifyActualizarProductos_1.4.2.py:278 | `replace('_', '-')` rewrites exactly the underscores and keeps the length |
| Tags.CollapseSpaces | Master/Programas/Aplicacion/ShopifyActualizarProductos_1.4.2.py:279 | Every run of whitespace becomes one space: no two spaces are adjacent, and the result is empty only for an empty input |
| Tags.TrimmedShape | Master/Programas/Aplicacion/ShopifyActualizarProductos_1.4.2.py:276-280 | After the filter, the rewrites, the collapse and the strip: only tag characters, no leading space, no double space |
| Tags.TruncatedShape | Master/Programas/Aplicacion/ShopifyActualizarProductos_1.4.2.py:281-285 | Cutting to 255 characters keeps the tag well formed whenever it still has an alphanumeric character |
| Tags.CleanTagWellFormed | Master/Programas/Aplicacion/ShopifyActualizarProductos_1.4.2.py:270-285 | Each tag kept is well formed: 1 to 255 characters from `[A-Za-z0-9-. ]`, no comma or underscore, no leading or double space, at least one alphanumeric (the cut at 255 characters can leave a trailing space) |
| Tags.DashedFixesTagChars | Master/Programas/Aplicacion/ShopifyActualizarProductos_1.4.2.py:276-278 | A string of tag characters goes through the filter and the rewrites unchanged |
| Tags.CleanTagFixesCleanTags | Master/Programas/Aplicacion/ShopifyActualizarProductos_1.4.2.py:270-285 | A tag that is already clean and does not end in a space comes back unchanged: sanitising is idempotent on such tags |
| Tags.SinStockSurvives | Master/Programas/Aplicacion/ShopifyActualizarCero_1.1.py:379 | The "Sin Stock" tag passes through sanitising unchanged |
| Tags.FilterDeletes | Master/Programas/Aplicacion/ShopifyActualizarProductos_1.4.2.py:276 | A character outside the class is deleted wherever it stands |
| Tags.AccentsAreDropped | Master/Programas/Aplicacion/ShopifyActualizarProductos_1.4.2.py:47 | Accented letters are deleted, not transliterated: "Promoción" filters to "Promocin" |
| Tags.PromotionTagNotClean | Master/Programas/Aplicacion/ShopifyActualizarProductos_1.4.2.py:47 | "Promoción" itself is not a clean tag, so no sanitised tag equals it |
| Tags.PromotionTagRewritten | Master/Programas/Aplicacion/ShopifyActualizarProductos_1.4.2.py:47 | The promotion tag is kept, but it becomes "Promocin" |
| Tags.SanitizeTags | Master/Programas/Aplicacion/ShopifyActualizarProductos_1.4.2.py:258-286 | `sanitize_tags`, proved against the list specification; every tag it returns is well formed |
| Tags.SomeTags | Master/Programas/Aplicacion/ShopifyActualizarProductos_1.4.2.py:269 | The entries as the loop sees them: one per string, none missing |
| Tags.Collect | Master/Programas/Aplicacion/ShopifyActualizarProductos_1.4.2.py:549-562 | `list(filter(None, ...))`: fails exactly when a candidate raises; otherwise every tag kept is a non-empty candidate |
| Tags.UnchangedListSanitized | Master/Programas/Aplicacion/ShopifyActualizarProductos_1.4.2.py:258-286 | A list of tags that are each already clean comes out exactly as it went in |
| Tags.SanitizedAppend | Master/Programas/Aplicacion/ShopifyActualizarProductos_1.4.2.py:269-285 | Sanitising works entry by entry and keeps the input order |
| Tags.SanitizedMembers | Master/Programas/Aplicacion/ShopifyActualizarProductos_1.4.2.py:269-285 | A tag is in the result exactly when some kept entry cleans to it |
| Tags.BlankEntriesDropped | Master/Programas/Aplicacion/ShopifyActualizarProductos_1.4.2.py:270-274 | Missing, empty or all-blank entries never reach the result |
| Tags.OrDefault | Master/Programas/Aplicacion/ShopifyActualizarProductos_1.4.2.py:563-564 | An empty sanitised list becomes `['SinTag']`, which is well formed; a non-empty one is kept as is |
| Tags.ParseTags | Master/Programas/Aplicacion/ShopifyActualizarProductos_1.4.2.py:255 | Tags read back from a string have no comma and no surrounding whitespace; anything but a string reads as no tags |
| Tags.JoinedPieces | Master/Programas/Aplicacion/ShopifyActualizarProductos_1.4.2.py:289 | A `', '`-joined list splits back into one piece per tag |
| Tags.ParseJoinedTags | Master/Programas/Aplicacion/ShopifyActualizarProductos_1.4.2.py:255-289 | Writing clean tags with `', '.join` and reading them back with the comma split gives exactly the set of those tags |
| ActualizarProductos.TruncToward0 | Master/Programas/Aplicacion/ShopifyActualizarProductos_1.4.2.py:364 | `int(stock_total)` truncates toward zero, for negative stock as well |
| ActualizarProductos.StockTotal | Master/Programas/Aplicacion/ShopifyActualizarProductos_1.4.2.py:336-339 | A value that is not an object has no stock |
| ActualizarProductos.SumNumericAppend | Master/Programas/Aplicacion/ShopifyActualizarProductos_1.4.2.py:339 | The stock of two groups of warehouses is the sum of their stocks |
| ActualizarProductos.StockOfNewWarehouse | Master/Programas/Aplicacion/ShopifyActualizarProductos_1.4.2.py:339 | One more warehouse adds its count when it is a number, and nothing otherwise |
| ActualizarProductos.StockNonNegative | Master/Programas/Aplicacion/ShopifyActualizarProductos_1.4.2.py:336-339 | When every numeric count is non-negative, so is the stock |
| ActualizarProductos.WarehouseLabelsInMappingOrder | Master/Programas/Aplicacion/ShopifyActualizarProductos_1.4.2.py:542-546 | The labels are exactly those of the warehouses with stock, in the order Tlaxcala, Puebla, Hermosillo, Azcapotzalco; the loop raises exactly when one of the four checks does |
| ActualizarProductos.NumericCountsGiveLabels | Master/Programas/Aplicacion/ShopifyActualizarProductos_1.4.2.py:544-546 | With numeric counts the loop never raises, and a warehouse gives its label exactly when its count is above zero |
| ActualizarProductos.CollectWarehouseLabels | Master/Programas/Aplicacion/ShopifyActualizarProductos_1.4.2.py:543-546 | The label loop, proved against the label specification |
| ActualizarProductos.LabelsErrSticks | Master/Programas/Aplicacion/ShopifyActualizarProductos_1.4.2.py:545 | Once one warehouse check raises, the whole loop does |
| ActualizarProductos.PromotionActiveIff | Master/Programas/Aplicacion/ShopifyActualizarProductos_1.4.2.py:516-530 | Active iff the first promotion has a truthy value, a type that lower-cases to "porcentaje" or "importe", and a value that converts to a number; raises exactly when the first promotion is not an object or its type is not a string |
| ActualizarProductos.PromoTypeIgnoresCase | Master/Programas/Aplicacion/ShopifyActualizarProductos_1.4.2.py:524 | The type is lower-cased first, so "Porcentaje" activates a promotion |
| ActualizarProductos.TagInputs | Master/Programas/Aplicacion/ShopifyActualizarProductos_1.4.2.py:549-557 | `filter(None, ...)` keeps only truthy tag fields, at most one per field |
| ActualizarProductos.AsEntries | Master/Programas/Aplicacion/ShopifyActualizarProductos_1.4.2.py:561 | One entry per field value, in order |
| ActualizarProductos.CustomTagsWellFormed | Master/Programas/Aplicacion/ShopifyActualizarProductos_1.4.2.py:548-565 | The custom tag set is never empty and holds only well-formed tags; it is missing exactly when a truthy tag field is not a string |
| ActualizarProductos.SanitizedWellFormed | Master/Programas/Aplicacion/ShopifyActualizarProductos_1.4.2.py:561 | Every sanitised tag is well formed |
| ActualizarProductos.NewTagSetMeaning | Master/Programas/Aplicacion/ShopifyActualizarProductos_1.4.2.py:595-607 | The custom tags are always present; all promotion tags are present when the promotion is active, and otherwise only those a custom tag brings back; every other current tag is kept, and nothing else is added |
| ActualizarProductos.NewTagSetIdempotent | Master/Programas/Aplicacion/ShopifyActualizarProductos_1.4.2.py:595-607 | Running the tag step again on its own result changes nothing |
| ActualizarProductos.UpdateProduct | Master/Programas/Aplicacion/ShopifyActualizarProductos_1.4.2.py:499-655 | Each failure reason is returned exactly when the checks before it pass and its own fails, in the order SKU, numbers, inventory item, price errors, price response, tags, inventory; with an active promotion whose `vigencia` is not a dict or whose truthy `fin` is not a string, the `product_timer` step raises after the inventory call; otherwise the update carries the stock total, its truncation as the quantity sent, the promotion flag and the tags written |
| ActualizarProductos.UpdateTags | Master/Programas/Aplicacion/ShopifyActualizarProductos_1.4.2.py:609-612 | The tags are written exactly when the new set differs from the current one, and then they are the new set |
| ActualizarCero.SanitizedFromCurrent | Master/Programas/Aplicacion/ShopifyActualizarCero_1.1.py:377-381 | Every tag written is "Sin Stock" or the cleaned form of a current tag |
| ActualizarCero.CurrentReachesSanitized | Master/Programas/Aplicacion/ShopifyActualizarCero_1.1.py:377-381 | "Sin Stock" and every current tag that survives sanitising are written |
| ActualizarCero.ZeroStockTagsMeaning | Master/Programas/Aplicacion/ShopifyActualizarCero_1.1.py:322-330 | The tags written hold "Sin Stock", so the `SinTag` default never applies; all are well formed; and they are exactly "Sin Stock" plus the cleaned current tags that survive, whatever the set's iteration order |
| ActualizarCero.PromotionTagBecomesUnknown | Master/Programas/Aplicacion/ShopifyActualizarCero_1.1.py:377-381 | A product on promotion keeps "Promocin" instead of "Promoción", a tag the promotion tags of the update script do not name |
| ActualizarCero.SanitizeAndUpdateTags | Master/Programas/Aplicacion/ShopifyActualizarCero_1.1.py:322-330 | The sanitised list, or `['SinTag']`, is sent, and the call's success is returned |
| ActualizarCero.UpdateProduct | Master/Programas/Aplicacion/ShopifyActualizarCero_1.1.py:341-384 | Each failure reason is returned exactly when the checks before it pass and its own fails, in the order SKU, inventory item, inventory, tags; an update writes stock 0 and tags holding "Sin Stock" |
| NoExistentes.KeptRows | Master/Programas/Aplicacion/ShopifyNoExistentes_1.4.2.py:122-125 | The kept rows of a report are exactly its rows whose failure reason is 'sku no encontrado' in any case |
| NoExistentes.ProcessDirectory | Master/Programas/Aplicacion/ShopifyNoExistentes_1.4.2.py:93-131 | The list passed in is extended by the kept rows of every failure report that reads with the three columns, in walk order |
| NoExistentes.FailureRowsMeaning | Master/Programas/Aplicacion/ShopifyNoExistentes_1.4.2.py:99-126 | A row is collected exactly when it says 'SKU no encontrado' and some contributing report holds it |
| NoExistentes.UniqueDict | Master/Programas/Aplicacion/ShopifyNoExistentes_1.4.2.py:140-150 | The dict never has more entries than there were rows |
| NoExistentes.UniqueDictKeys | Master/Programas/Aplicacion/ShopifyNoExistentes_1.4.2.py:141-150 | The dict holds exactly the truthy SKUs of the rows |
| NoExistentes.UniqueIsFirstOccurrences | Master/Programas/Aplicacion/ShopifyNoExistentes_1.4.2.py:140-153 | The de-duplicated list keeps the first row of each truthy SKU, drops falsy SKUs, and keeps first-occurrence order |
| NoExistentes.FirstOccurrencesFromRows | Master/Programas/Aplicacion/ShopifyNoExistentes_1.4.2.py:141-150 | Every unique record comes from a row with a truthy SKU |
| NoExistentes.RemoveDuplicates | Master/Programas/Aplicacion/ShopifyNoExistentes_1.4.2.py:133-161 | The unique records are the first occurrences, and the reported duplicate count is the number of rows dropped, never negative |
| NoExistentes.BaseData | Master/Programas/Aplicacion/ShopifyNoExistentes_1.4.2.py:182-209 | No `.json` file in the base folder means no base data |
| NoExistentes.BaseProductsOk | Master/Programas/Aplicacion/ShopifyNoExistentes_1.4.2.py:234-243 | Building the clave map raises exactly when some entry is not a dict or its truthy clave cannot be hashed |
| NoExistentes.BaseProductsStored | Master/Programas/Aplicacion/ShopifyNoExistentes_1.4.2.py:235-239 | Every stored pair is an entry of the file under its own truthy clave |
| NoExistentes.BaseProductsLastWins | Master/Programas/Aplicacion/ShopifyNoExistentes_1.4.2.py:236-239 | Under a truthy clave the map holds the last entry carrying it |
| NoExistentes.BaseProductsAbsent | Master/Programas/Aplicacion/ShopifyNoExistentes_1.4.2.py:236-239 | A clave no entry carries is absent from the map |
| NoExistentes.Matches | Master/Programas/Aplicacion/ShopifyNoExistentes_1.4.2.py:246-251 | Each match is the stored record of a truthy SKU of the unique list, and there are no more matches than records |
| NoExistentes.CoincidenciasMeaning | Master/Programas/Aplicacion/ShopifyNoExistentes_1.4.2.py:211-262 | A missing or unloadable base file gives no match; every match is the last base entry carrying one of the unique SKUs |
| NoExistentes.MatchIsLastBaseEntry | Master/Programas/Aplicacion/ShopifyNoExistentes_1.4.2.py:235-251 | A match is the last base entry whose clave is one of the unique SKUs |
| NoExistentes.LastWithClave | Master/Programas/Aplicacion/ShopifyNoExistentes_1.4.2.py:236-239 | The index returned carries the clave and no later entry does |
| NoExistentes.CompareWithBase | Master/Programas/Aplicacion/ShopifyNoExistentes_1.4.2.py:211-262 | The two loops of the comparison compute the specified matches |
| NoExistentes.BuildBase | Master/Programas/Aplicacion/ShopifyNoExistentes_1.4.2.py:234-243 | The map-building loop computes the specified map or error |
| NoExistentes.BaseErrSticks | Master/Programas/Aplicacion/ShopifyNoExistentes_1.4.2.py:234-243 | Once building the map raises, the whole build raises with that error |
| NoExistentes.GetOrIfFalsy | Master/Programas/Aplicacion/ShopifyNoExistentes_1.4.2.py:499-502 | `d.get(key) or default` is the stored value when that is truthy, the default otherwise |
| NoExistentes.ProductFor | Master/Programas/Aplicacion/ShopifyNoExistentes_1.4.2.py:486-503 | Each field is read with its default when absent, and `upc`, `ean` and `especificaciones` fall back to '' and [] when falsy |
| NoExistentes.ProductsFor | Master/Programas/Aplicacion/ShopifyNoExistentes_1.4.2.py:478-505 | One product per match, in order |
| NoExistentes.StrippedTag | Master/Programas/Aplicacion/ShopifyNoExistentes_1.4.2.py:640-646 | A falsy field gives no tag; a truthy value that is not a string raises |
| NoExistentes.ModeloTag | Master/Programas/Aplicacion/ShopifyNoExistentes_1.4.2.py:644 | A modelo of just "-" gives no tag; otherwise the tag is the stripped modelo |
| NoExistentes.CreationTags | Master/Programas/Aplicacion/ShopifyNoExistentes_1.4.2.py:639-656 | The tag list is computed exactly when the field tags are; it is never empty and all tags are well formed |
| NoExistentes.SanitizedWellFormed | Master/Programas/Aplicacion/ShopifyNoExistentes_1.4.2.py:849-877 | Every tag sanitising keeps is well formed |
| NoExistentes.ModeloDashIgnored | Master/Programas/Aplicacion/ShopifyNoExistentes_1.4.2.py:644 | A modelo of "-" gives the tags of a product without modelo |
| NoExistentes.WordUnchanged | Master/Programas/Aplicacion/ShopifyNoExistentes_1.4.2.py:650-652 | Each unaccented promotion word passes sanitising untouched |
| NoExistentes.PromoWordsUnchanged | Master/Programas/Aplicacion/ShopifyNoExistentes_1.4.2.py:650-652 | The five unaccented promotion words pass sanitising untouched |
| NoExistentes.PromoTagsSanitized | Master/Programas/Aplicacion/ShopifyNoExistentes_1.4.2.py:650-652 | Sanitising the six promotion tags keeps all of them, with "Promoción" turned into "Promocin" |
| NoExistentes.CreationTagsPromotion | Master/Programas/Aplicacion/ShopifyNoExistentes_1.4.2.py:649-656 | With an active promotion the sanitised promotion tags follow the field tags; without one, the sanitised field tags or ['SinTag'] |
| NoExistentes.PromotionTagRenamed | Master/Programas/Aplicacion/ShopifyNoExistentes_1.4.2.py:649-652 | With the promotion active, "Promocin" reaches the shop and "Promoción" never does |
| NoExistentes.ExchangeRate | Master/Programas/Aplicacion/ShopifyNoExistentes_1.4.2.py:553-567 | The rate is `tipoCambio` when the stripped, upper-cased currency is "USD" and 1 otherwise; the conversions raise exactly when a value does not parse |
| NoExistentes.LowerCaseUsdApplies | Master/Programas/Aplicacion/ShopifyNoExistentes_1.4.2.py:556-563 | The case of the currency code and its surrounding whitespace do not matter |
| NoExistentes.StockSum | Master/Programas/Aplicacion/ShopifyNoExistentes_1.4.2.py:285-286 | The sum exists exactly when the stock is a dict of numbers |
| NoExistentes.SumValues | Master/Programas/Aplicacion/ShopifyNoExistentes_1.4.2.py:286 | Summing succeeds exactly when every value is a number |
| NoExistentes.Prepare | Master/Programas/Aplicacion/ShopifyNoExistentes_1.4.2.py:523-689 | 'Ya Existe' is reported exactly for a SKU the shop already has whose row can be built (string name, part number and model, a convertible price, a summable stock, a readable end date), and a shop SKU whose row raises is only logged; a prepared product has a truthy new SKU that is a string (any other truthy SKU makes `os.path.join` raise and is only logged), readable promotion dates, the specified rate, stock and non-empty tags, and a request body whose title, vendor, type and barcode are strings; a falsy SKU is skipped |
| NoExistentes.Reports | Master/Programas/Aplicacion/ShopifyNoExistentes_1.4.2.py:933-935 | Each product adds at most one row to the two reports together |
| NoExistentes.CreatedWereReady | Master/Programas/Aplicacion/ShopifyNoExistentes_1.4.2.py:690-842 | A SKU is listed as created only when the shop created it and its product was ready: a new truthy SKU with a buildable request body and report row |
| NoExistentes.CreatedButUnreported | Master/Programas/Aplicacion/ShopifyNoExistentes_1.4.2.py:788-846 | A product the shop creates whose part number is not a string lands in neither report, because building its row raises after the creation call |
| NoExistentes.ProcessCoincidences | Master/Programas/Aplicacion/ShopifyNoExistentes_1.4.2.py:926-942 | The loop computes the specified reports, each ready product by the shop's answer (created, throttled, rejected, malformed) and whether its row can be built, and the total is the number of products |
| NoExistentes.ExistingNeverCreated | Master/Programas/Aplicacion/ShopifyNoExistentes_1.4.2.py:529-550 | A product whose SKU is already in the shop is never created |
| NoExistentes.ProductsToCreateMeaning | Master/Programas/Aplicacion/ShopifyNoExistentes_1.4.2.py:973-998 | Each product handed to creation is a base entry whose clave is the truthy SKU of a 'SKU no encontrado' row of the common or old reports; no base file gives nothing |
| CrearProductos.EntryProducts | Master/Programas/Aplicacion/ShopifyCrearProductos_1.2.2.py:369-378 | A non-".json" entry adds nothing, a file the JSON parser rejects adds nothing, a parsed value is added as `list.extend` adds it, and opening a directory or reading bytes that are not UTF-8 raises |
| CrearProductos.ProductsOfMeaning | Master/Programas/Aplicacion/ShopifyCrearProductos_1.2.2.py:369-378 | The list is read exactly when every ".json" entry can be opened and extended with; it then holds every product of every decoded file and nothing else |
| CrearProductos.UnparsableSkipped | Master/Programas/Aplicacion/ShopifyCrearProductos_1.2.2.py:376-378 | A UTF-8 file the JSON parser rejects is skipped and the other files are still read |
| CrearProductos.NonUtf8EndsRead | Master/Programas/Aplicacion/ShopifyCrearProductos_1.2.2.py:371-376 | A `.json` file whose bytes are not UTF-8 raises `UnicodeDecodeError`, which `except json.JSONDecodeError` does not catch, so the read fails |
| CrearProductos.ReadProductsFromDirectory | Master/Programas/Aplicacion/ShopifyCrearProductos_1.2.2.py:363-381 | The reading loop computes the specified list, [] for a missing directory |
| CrearProductos.ReadStopsAt | Master/Programas/Aplicacion/ShopifyCrearProductos_1.2.2.py:369-376 | Once an entry raises, the whole read raises with that error |
| CrearProductos.SyncProducts | Master/Programas/Aplicacion/ShopifyCrearProductos_1.2.2.py:383-385 | Nothing is to update and every product is to create |
| CrearProductos.DefaultFor | Master/Programas/Aplicacion/ShopifyCrearProductos_1.2.2.py:472 | The default of a required key is a string, falsy only for `especificaciones` |
| CrearProductos.FillKeysMeaning | Master/Programas/Aplicacion/ShopifyCrearProductos_1.2.2.py:470-474 | Each listed key holds its own truthy value or its default, and every other key is untouched |
| CrearProductos.WithRequiredMeaning | Master/Programas/Aplicacion/ShopifyCrearProductos_1.2.2.py:469-474 | After defaulting, every required key but `especificaciones` is truthy and no other key changes |
| CrearProductos.FillRequired | Master/Programas/Aplicacion/ShopifyCrearProductos_1.2.2.py:469-474 | The defaulting loop computes the specified dict |
| CrearProductos.NormalizedSpecs | Master/Programas/Aplicacion/ShopifyCrearProductos_1.2.2.py:476-483 | A list is kept, a string becomes a one-entry list, anything else the empty list |
| CrearProductos.ProductSpecsMeaning | Master/Programas/Aplicacion/ShopifyCrearProductos_1.2.2.py:469-483 | The specifications are always a list: a truthy list is kept, a truthy string wrapped, and a missing or falsy value becomes one entry with an empty `valor` |
| CrearProductos.RawTag | Master/Programas/Aplicacion/ShopifyCrearProductos_1.2.2.py:485-497 | A falsy candidate is dropped and a non-string raises when sanitised |
| CrearProductos.ProductTags | Master/Programas/Aplicacion/ShopifyCrearProductos_1.2.2.py:485-499 | The tag list is computed exactly when the candidates are strings; it is never empty and all tags are well formed |
| CrearProductos.CreationWordUnchanged | Master/Programas/Aplicacion/ShopifyCrearProductos_1.2.2.py:494-497 | "Oferta" and "Descuentos" pass sanitising untouched |
| CrearProductos.CreationPromoSanitized | Master/Programas/Aplicacion/ShopifyCrearProductos_1.2.2.py:493-497 | The three promotion tags sanitise to "Promocin", "Oferta", "Descuentos" |
| CrearProductos.ProductTagsPromotion | Master/Programas/Aplicacion/ShopifyCrearProductos_1.2.2.py:485-499 | With an active promotion the sanitised field tags are followed by "Promocin", "Oferta", "Descuentos" and "Promoción" never reaches the shop; without one, the sanitised field tags or ['SinTag'] |
| CrearProductos.DefaultedFieldsAreCandidates | Master/Programas/Aplicacion/ShopifyCrearProductos_1.2.2.py:469-492 | Part number, brand and model are always tag candidates after defaulting |
| CrearProductos.TruthyFieldsAreCandidates | Master/Programas/Aplicacion/ShopifyCrearProductos_1.2.2.py:485-492 | Truthy part number, brand and model are tag candidates |
| CrearProductos.CreateProduct | Master/Programas/Aplicacion/ShopifyCrearProductos_1.2.2.py:397-667 | The run ends exactly when the SKU cannot be hashed, or the shop has it and its 'Ya Existe' row cannot be built (a price that is not a number, stock values that do not sum, an unreadable end date); 'Ya Existe' exactly for a SKU the shop has whose row can be built; a created product is new, has a string SKU and carries the normalised specifications and the specified tags; a new SKU that is not a string is never listed as created: once the shop has created it, `os.path.join` raises and it is reported nowhere |
| CrearProductos.Tally | Master/Programas/Aplicacion/ShopifyCrearProductos_1.2.2.py:408-423 | A created product goes to the created list, an existing SKU or a failed create call to the failures, a caught exception to neither, even after the shop created the product |
| CrearProductos.ReportStep | Master/Programas/Aplicacion/ShopifyCrearProductos_1.2.2.py:677-680 | One product adds at most one SKU to the two reports |
| CrearProductos.FoldNext | Master/Programas/Aplicacion/ShopifyCrearProductos_1.2.2.py:677-680 | One more product is one more step, unless the loop already raised |
| CrearProductos.ErrSticks | Master/Programas/Aplicacion/ShopifyCrearProductos_1.2.2.py:677-680 | Once the loop raised, later products do not run |
| CrearProductos.FoldBounded | Master/Programas/Aplicacion/ShopifyCrearProductos_1.2.2.py:677-680 | A loop whose step adds at most one SKU lists at most one SKU per product |
| CrearProductos.FoldCreatesOnlyNew | Master/Programas/Aplicacion/ShopifyCrearProductos_1.2.2.py:677-680 | A loop whose step creates only new SKUs never lists an existing SKU as created |
| CrearProductos.StepGrowsByOne | Master/Programas/Aplicacion/ShopifyCrearProductos_1.2.2.py:397-667 | One product adds at most one SKU to the reports |
| CrearProductos.StepCreatesOnlyNew | Master/Programas/Aplicacion/ShopifyCrearProductos_1.2.2.py:403-423 | Only SKUs not in the shop are reported as created |
| CrearProductos.ReportsBounded | Master/Programas/Aplicacion/ShopifyCrearProductos_1.2.2.py:669-684 | The reports never list more SKUs than products were read |
| CrearProductos.ProcessOne | Master/Programas/Aplicacion/ShopifyCrearProductos_1.2.2.py:678-680 | One loop body computes the specified step |
| CrearProductos.ProcessNew | Master/Programas/Aplicacion/ShopifyCrearProductos_1.2.2.py:669-684 | The loop computes the specified reports, and the total is the number of products read |
| CrearProductos.ExistingNeverCreated | Master/Programas/Aplicacion/ShopifyCrearProductos_1.2.2.py:403-423 | A product whose SKU the shop already has is never created |
| CrearProductos.ExistingRowEndsRun | Master/Programas/Aplicacion/ShopifyCrearProductos_1.2.2.py:403-422 | A product the shop already has whose 'Ya Existe' row raises ends the whole run, since nothing handles that exception (also Master/Programas/Aplicacion/ShopifyCrearProductos_1.2.2.py:669-684) |
| Images.ImageFiles | Master/Programas/Aplicacion/ShopifyCrearProductos_1.2.2.py:290-291 | The image files are exactly the names with an image extension, in listing order |
| Images.SplitAsWritten | Master/Programas/Aplicacion/ShopifyCrearProductos_1.2.2.py:297-303 | There is a primary exactly when the folder has images; it is one of them, and no remaining image holds "_full" |
| Images.SplitAsWrittenStep | Master/Programas/Aplicacion/ShopifyCrearProductos_1.2.2.py:299-303 | An image becomes the primary when it holds "_full" or none is chosen yet, and is appended to the remaining ones otherwise |
| Images.PartitionImages | Master/Programas/Aplicacion/ShopifyCrearProductos_1.2.2.py:297-303 | The loop computes the specified split |
| Images.PlaceImage | Master/Programas/Aplicacion/ShopifyCrearProductos_1.2.2.py:300-303 | One turn of the loop is one step of the split |
| Images.LastFull | Master/Programas/Aplicacion/ShopifyCrearProductos_1.2.2.py:300 | The index is the last image holding "_full", or -1 when none does |
| Images.NonFull | Master/Programas/Aplicacion/ShopifyCrearProductos_1.2.2.py:300-303 | Exactly the images without "_full", in order |
| Images.SplitAsWrittenMeaning | Master/Programas/Aplicacion/ShopifyCrearProductos_1.2.2.py:297-303 | The primary is the last "_full" image, or the first image when none is one; the remaining images are those after the first without "_full" |
| Images.NonFullDropsFull | Master/Programas/Aplicacion/ShopifyCrearProductos_1.2.2.py:300-303 | A folder with a "_full" image has fewer non-"_full" images than images |
| Images.FirstImageLost | Master/Programas/Aplicacion/ShopifyCrearProductos_1.2.2.py:297-303 | When the first image lacks "_full" and a later one has it, the first image is never posted and fewer images are posted than the folder holds |
| Images.SplitIntended | Master/Programas/Aplicacion/ShopifyCrearProductos_1.2.2.py:297-303 | There is a primary exactly when the folder has images |
| Images.SplitIntendedSamePrincipal | Master/Programas/Aplicacion/ShopifyCrearProductos_1.2.2.py:297-303 | The corrected split picks the same primary as the loop |
| Images.SplitIntendedPostsAll | Master/Programas/Aplicacion/ShopifyCrearProductos_1.2.2.py:297-306 | The corrected split posts every image of the folder exactly as often as it occurs |
| Images.IntendedStepPostsImage | Master/Programas/Aplicacion/ShopifyCrearProductos_1.2.2.py:299-303 | One corrected step posts the image once more |
| Images.Posts | Master/Programas/Aplicacion/ShopifyCrearProductos_1.2.2.py:308-343 | The primary is posted at position 1 and the remaining images from position 2 on, in order |
| Images.AcceptedCount | Master/Programas/Aplicacion/ShopifyCrearProductos_1.2.2.py:320-346 | No more images count as uploaded than were posted |
| Images.PassOf | Master/Programas/Aplicacion/ShopifyCrearProductos_1.2.2.py:317-353 | A pass is abandoned exactly when some post is answered 429; otherwise it counts exactly the accepted posts |
| Images.Upload | Master/Programas/Aplicacion/ShopifyCrearProductos_1.2.2.py:323-326 | The count is that of the first pass meeting no 429, every earlier pass having met one; none when every pass meets one; never more than the posts |
| Images.RunPass | Master/Programas/Aplicacion/ShopifyCrearProductos_1.2.2.py:308-353 | The loop over the posts computes the specified pass, stopping at the first 429 |
| Images.UploadImages | Master/Programas/Aplicacion/ShopifyCrearProductos_1.2.2.py:305-361 | The loop over the passes computes the specified upload: a 429 restarts from the first post |
| Images.RestartCountsOwnPass | Master/Programas/Aplicacion/ShopifyCrearProductos_1.2.2.py:346-349 | Posts accepted before a 429 are not added: when the restart accepts everything, the count is the number of posts, although the first post was accepted twice |
| Images.AsWrittenNeverUploadsAll | Master/Programas/Aplicacion/ShopifyCrearProductos_1.2.2.py:297-361 | With the loop as written, such a folder never reaches "all images uploaded", whatever the shop answers in however many passes |
| Images.IntendedUploadsAll | Master/Programas/Aplicacion/ShopifyCrearProductos_1.2.2.py:305-361 | With the corrected split, a first pass accepting every post gives "all images uploaded" |
| Images.AllAccepted | Master/Programas/Aplicacion/ShopifyCrearProductos_1.2.2.py:320-322 | When the shop accepts every post, every post counts |
| ImagenesFinal.ScaleSize | Master/Programas/Aplicacion/ShopifyImagenesFinalCompleto_2.3.4.py:190-213 | Up to 400 pixels gives 600; inside a band of a hundred the size is the band's lower hundred plus 300; a multiple of 100 from 500 to 1200, or 1300 and more, gives 1280 |
| ImagenesFinal.ScaleSizeHoleAt500 | Master/Programas/Aplicacion/ShopifyImagenesFinalCompleto_2.3.4.py:194-197 | A 500-pixel image scales to 1280 while its neighbours scale to 700 and 800 |
| ImagenesFinal.ScaleSizeIntendedMonotone | Master/Programas/Aplicacion/ShopifyImagenesFinalCompleto_2.3.4.py:190-211 | With each band's upper bound included, the size never decreases up to 1299 pixels |
| ImagenesFinal.ScaleSizeIntendedAgrees | Master/Programas/Aplicacion/ShopifyImagenesFinalCompleto_2.3.4.py:190-213 | The corrected bands agree with the written ones everywhere but at the multiples of 100 from 500 to 1200 |
| ImagenesFinal.IsSquare | Master/Programas/Aplicacion/ShopifyImagenesFinalCompleto_2.3.4.py:186-188 | An image is square exactly when the difference of its sides is at most `tol` times the larger; an image with no pixels divides by zero |
| ImagenesFinal.EqualSidesAreSquare | Master/Programas/Aplicacion/ShopifyImagenesFinalCompleto_2.3.4.py:186-188 | Equal sides always count as square |
| ImagenesFinal.JsonEntries | Master/Programas/Aplicacion/ShopifyImagenesFinalCompleto_2.3.4.py:330 | Exactly the `.json` entries, in listing order |
| ImagenesFinal.Pruned | Master/Programas/Aplicacion/ShopifyImagenesFinalCompleto_2.3.4.py:334-337 | Exactly the victims whose removal succeeds are gone; every other entry is unchanged |
| ImagenesFinal.EliminarJsonAntiguos | Master/Programas/Aplicacion/ShopifyImagenesFinalCompleto_2.3.4.py:329-345 | With at most one `.json` file nothing changes; otherwise every `.json` file but the newest is removed when removal succeeds |
| ImagenesFinal.NewestIsLatest | Master/Programas/Aplicacion/ShopifyImagenesFinalCompleto_2.3.4.py:333 | The first of the sorted `.json` files is a latest `.json` file of the folder |
| ImagenesFinal.NewestJsonSurvives | Master/Programas/Aplicacion/ShopifyImagenesFinalCompleto_2.3.4.py:329-345 | The newest `.json` file survives untouched and files of other kinds are never touched |
| ImagenesFinal.OnlyNewestJsonLeft | Master/Programas/Aplicacion/ShopifyImagenesFinalCompleto_2.3.4.py:333-337 | When every removal succeeds, the newest is the only `.json` file left |
| ImagenesFinal.RecordIds | Master/Programas/Aplicacion/ShopifyImagenesFinalCompleto_2.3.4.py:313 | The record IDs of image numbers 1..n, in order |
| ImagenesFinal.RecordIdsDistinct | Master/Programas/Aplicacion/ShopifyImagenesFinalCompleto_2.3.4.py:313 | The record IDs of one SKU are pairwise distinct |
| ImagenesFinal.ProcessProduct | Master/Programas/Aplicacion/ShopifyImagenesFinalCompleto_2.3.4.py:396-500 | The final row holds the number of stored images with the main and default flags, or the logo with count 1 when none was stored; the image rows get consecutive image numbers |
| ImagenesFinal.SecondaryImages | Master/Programas/Aplicacion/ShopifyImagenesFinalCompleto_2.3.4.py:443-456 | Each stored secondary image takes the next image number |
| ImagenesFinal.DefaultReplacesOnlyWhenLarger | Master/Programas/Aplicacion/ShopifyImagenesFinalCompleto_2.3.4.py:420-431 | The default image replaces a stored main image exactly when its processed area is strictly larger |
| ImagenesFinal.RowsOkAppend | Master/Programas/Aplicacion/ShopifyImagenesFinalCompleto_2.3.4.py:389-500 | Appending the row of a new SKU keeps the rows valid and adds its SKU and its image count |
| ImagenesFinal.ProcesarImagenes | Master/Programas/Aplicacion/ShopifyImagenesFinalCompleto_2.3.4.py:346-504 | The SKUs that get a row, and whether the run completes, are those of the product loop `ScanProducts`; every row's SKU is new to the table and appears once, with consecutive ids and its final values; the total counts their images |
| ImagenesFinal.ScanFresh | Master/Programas/Aplicacion/ShopifyImagenesFinalCompleto_2.3.4.py:370-391 | The table after the loop is the starting table plus the SKUs given a row; those SKUs were not in the starting table and are pairwise distinct |
| ImagenesFinal.ScanCovers | Master/Programas/Aplicacion/ShopifyImagenesFinalCompleto_2.3.4.py:366-383 | When the loop completes, every product is a dict and every string clave matches a row of the table under the column's collation |
| ImagenesFinal.CaseVariantSkipped | Master/Programas/Aplicacion/ShopifyImagenesFinalCompleto_2.3.4.py:107-115 | Under a case-insensitive collation, a clave that differs from a registered SKU only in case is skipped and gets no row |
| ImagenesFinal.NullClaveEndsLoop | Master/Programas/Aplicacion/ShopifyImagenesFinalCompleto_2.3.4.py:371-383 | A product without a clave matches no row, and `os.path.join` with None raises, so the run does not complete |
| ImagenesFinal.ScanStops | Master/Programas/Aplicacion/ShopifyImagenesFinalCompleto_2.3.4.py:366-383 | Once a product raises, the rest of the products change nothing |
| ImagenesFinal.ScanNext | Master/Programas/Aplicacion/ShopifyImagenesFinalCompleto_2.3.4.py:366-383 | The loop over one more product is one more step of the loop |
| ImagenesFinal.ScanSkips | Master/Programas/Aplicacion/ShopifyImagenesFinalCompleto_2.3.4.py:377-380 | A product whose clave the table already matches (`count > 0`) changes neither the rows nor the table |
| ImagenesFinal.ScanAdds | Master/Programas/Aplicacion/ShopifyImagenesFinalCompleto_2.3.4.py:377-391 | A product with a string clave the table does not match gets a row, and its SKU enters the table |
| ImagenesFinal.ScanRaises | Master/Programas/Aplicacion/ShopifyImagenesFinalCompleto_2.3.4.py:371-383 | A product that is not a dict, a clave the query cannot bind, or a new clave that is not a string ends the loop with the rows written so far |
| ImagenesFinal.NewSkuRow | Master/Programas/Aplicacion/ShopifyImagenesFinalCompleto_2.3.4.py:382-500 | The body for a new SKU appends exactly one valid row |
| DescargaSinToners.FoldChar | Master/Programas/Aplicacion/Centinela_Descarga_Sin_Toners.py:75 | The ASCII form of one character is ASCII, and an ASCII character is kept as is |
| DescargaSinToners.AsciiFold | Master/Programas/Aplicacion/Centinela_Descarga_Sin_Toners.py:75 | The ASCII form of a name holds only ASCII characters |
| DescargaSinToners.KeepNameChars | Master/Programas/Aplicacion/Centinela_Descarga_Sin_Toners.py:76 | Only letters, digits, ' ', '-' and '_' are kept |
| DescargaSinToners.SanitizeFilename | Master/Programas/Aplicacion/Centinela_Descarga_Sin_Toners.py:73-76 | The cleaned name holds only ASCII letters, digits, ' ', '-' and '_', and does not end in a space |
| DescargaSinToners.AsciiFoldOfAscii | Master/Programas/Aplicacion/Centinela_Descarga_Sin_Toners.py:75 | An ASCII name is its own ASCII form |
| DescargaSinToners.KeepNameCharsOfNameChars | Master/Programas/Aplicacion/Centinela_Descarga_Sin_Toners.py:76 | A name of allowed characters is kept whole |
| DescargaSinToners.SanitizeFilenameIdempotent | Master/Programas/Aplicacion/Centinela_Descarga_Sin_Toners.py:75-76 | Cleaning a cleaned name changes nothing |
| DescargaSinToners.AccentedLetterKept | Master/Programas/Aplicacion/Centinela_Descarga_Sin_Toners.py:75 | An accented letter keeps its base letter |
| DescargaSinToners.DirProductsFromFiles | Master/Programas/Aplicacion/Centinela_Descarga_Sin_Toners.py:214-231 | Every product read comes from a ".json" file of the folder |
| DescargaSinToners.TonerSkus | Master/Programas/Aplicacion/Centinela_Descarga_Sin_Toners.py:242 | The toner set holds exactly the truthy claves of the toner products |
| DescargaSinToners.FilteredMeaning | Master/Programas/Aplicacion/Centinela_Descarga_Sin_Toners.py:244-254 | The loop raises exactly when some main product cannot be read; else it keeps, in order, exactly the products with a truthy clave outside the database and the toner set |
| DescargaSinToners.FilterProducts | Master/Programas/Aplicacion/Centinela_Descarga_Sin_Toners.py:243-254 | The filtering loop computes the specified list |
| DescargaSinToners.FilteredStopsAt | Master/Programas/Aplicacion/Centinela_Descarga_Sin_Toners.py:245-250 | A product that cannot be read ends the whole loop with its error |
| DescargaSinToners.ReadAndFilterMeaning | Master/Programas/Aplicacion/Centinela_Descarga_Sin_Toners.py:233-254 | A product to scrape is a main-feed product with a truthy clave that is neither in the database nor the clave of any toner product |
| DescargaSinToners.PathSegment | Master/Programas/Aplicacion/Centinela_Descarga_Sin_Toners.py:263-264 | A cleaned category holds no space and no '/', and is as long as the cleaned name |
| DescargaSinToners.BuildProductUrl | Master/Programas/Aplicacion/Centinela_Descarga_Sin_Toners.py:259-271 | The URL is built exactly when the four named fields are strings and `idProducto` is present |
| DescargaSinToners.UrlSplitsIntoSegments | Master/Programas/Aplicacion/Centinela_Descarga_Sin_Toners.py:263-268 | The URL splits back on '/' into the site, the cleaned category, subcategory, brand, SKU and id, and category and subcategory hold no space |
| DescargaSinToners.SegmentsRoundTrip | Master/Programas/Aplicacion/Centinela_Descarga_Sin_Toners.py:268 | Joining the segments with '/' and splitting again gives them back |
| DescargaSinToners.CreateDirectories | Master/Programas/Aplicacion/Centinela_Descarga_Sin_Toners.py:273-292 | The SKU path is base/sku, and exactly the four sub-directories whose creation succeeds are added |
| SubirTabla.NormalizeIdempotent | Master/Programas/Aplicacion/Centinela_Subir_Tabla.py:251-281 | Normalising a key again leaves it as it is |
| SubirTabla.LookupKeyOfCode | Master/Programas/Aplicacion/Centinela_Subir_Tabla.py:251 | Stripping and upper-casing the SKU before the lookup does not change the key looked up (also Centinela_Subir_Tabla.py:492; Centinela_Subir_Tabla.py:504) |
| SubirTabla.ObtenerProductoPorSku | Master/Programas/Aplicacion/Centinela_Subir_Tabla.py:247-257 | A SKU whose normalised form is not indexed finds nothing |
| SubirTabla.Keys | Master/Programas/Aplicacion/Centinela_Subir_Tabla.py:281 | The keys are the normalised variant SKUs, one per variant |
| SubirTabla.AddProductsSnoc | Master/Programas/Aplicacion/Centinela_Subir_Tabla.py:278-283 | A page's products are indexed in order, each after the ones before it |
| SubirTabla.AddVariants | Master/Programas/Aplicacion/Centinela_Subir_Tabla.py:280-283 | The loop over a product's variants computes the specified index |
| SubirTabla.AddPage | Master/Programas/Aplicacion/Centinela_Subir_Tabla.py:277-283 | The loop over a page's products computes the specified index |
| SubirTabla.InsertKeys | Master/Programas/Aplicacion/Centinela_Subir_Tabla.py:280-283 | A key is present after one product exactly when it was before or it is one of the product's non-empty keys |
| SubirTabla.AddProductsKeys | Master/Programas/Aplicacion/Centinela_Subir_Tabla.py:278-283 | After a page the index holds exactly the earlier keys and the non-empty normalised SKUs of the page's variants |
| SubirTabla.AddProductsNormalized | Master/Programas/Aplicacion/Centinela_Subir_Tabla.py:281-283 | Indexing a page keeps every key non-empty and normalised |
| SubirTabla.LastProductWins | Master/Programas/Aplicacion/Centinela_Subir_Tabla.py:278-283 | A variant of the last product of a page maps to that product |
| SubirTabla.InsertedKeyHasId | Master/Programas/Aplicacion/Centinela_Subir_Tabla.py:282-283 | A non-empty key of a product maps to that product's id |
| SubirTabla.PySlice | Master/Programas/Aplicacion/Centinela_Subir_Tabla.py:290 | A slice with its start before its end is that part of the string |
| SubirTabla.FirstContaining | Master/Programas/Aplicacion/Centinela_Subir_Tabla.py:288-291 | The first segment holding the marker, with no earlier segment holding it, or none at all |
| SubirTabla.NextUrl | Master/Programas/Aplicacion/Centinela_Subir_Tabla.py:284-297 | A next-page URL is never empty |
| SubirTabla.NextUrlOfSegments | Master/Programas/Aplicacion/Centinela_Subir_Tabla.py:286-293 | A header of comma-free segments yields the bracketed text of its first segment holding `rel="next"` |
| SubirTabla.BracketedUrl | Master/Programas/Aplicacion/Centinela_Subir_Tabla.py:290 | The link of a segment written `pre<url>post` is `url` |
| SubirTabla.FirstCharAt | Master/Programas/Aplicacion/Centinela_Subir_Tabla.py:290 | `find` returns the first occurrence |
| SubirTabla.Paginate | Master/Programas/Aplicacion/Centinela_Subir_Tabla.py:265-297 | No more URLs are requested than answers were received |
| SubirTabla.ObtenerTodosSkus | Master/Programas/Aplicacion/Centinela_Subir_Tabla.py:259-299 | The pagination loop computes the specified index: no answer or a status other than 200 or 429 stops, 429 asks again, 200 indexes the page and follows the next link |
| SubirTabla.PaginateNormalized | Master/Programas/Aplicacion/Centinela_Subir_Tabla.py:259-299 | Every key of the SKU index is non-empty and normalised |
| SubirTabla.FindMetafield | Master/Programas/Aplicacion/Centinela_Subir_Tabla.py:312 | The first metafield with this namespace and key, or none when no metafield has them |
| SubirTabla.ActualizarMetafield | Master/Programas/Aplicacion/Centinela_Subir_Tabla.py:301-348 | Success needs a listing with status 200; then an existing (namespace, key) metafield is updated, with success exactly on status 200, and a missing one is created, with success exactly on status 201 |
| SubirTabla.ExtraerContenido | Master/Programas/Aplicacion/Centinela_Subir_Tabla.py:354-372 | The content is non-empty exactly when both selectors match |
| SubirTabla.ColumnOf | Master/Programas/Aplicacion/Centinela_Subir_Tabla.py:383-417 | Only tipo 'caracteristicas' or 'informacion' selects a column |
| SubirTabla.UpdateInfo | Master/Programas/Aplicacion/Centinela_Subir_Tabla.py:419 | Only the rows with this ID get the column set; every other row is unchanged |
| SubirTabla.UpsertDesplegable | Master/Programas/Aplicacion/Centinela_Subir_Tabla.py:392-399 | The named column holds the new value afterwards; an existing row keeps its SKU and other column; a new row gets the SKU and the other column's `DEFAULT 0` (also Master/Programas/Aplicacion/Centinela_Subir_Tabla.py:168-175); every other row is unchanged |
| SubirTabla.Database.constructor | Master/Programas/Aplicacion/Centinela_Subir_Tabla.py:146-158 | The connection starts on the given tables |
| SubirTabla.Database.ActualizarSubirdesplegable | Master/Programas/Aplicacion/Centinela_Subir_Tabla.py:378-403 | An unknown tipo or a write the database refuses changes nothing; otherwise the one row is upserted |
| SubirTabla.Database.ActualizarInformaciontablas | Master/Programas/Aplicacion/Centinela_Subir_Tabla.py:405-425 | An unknown tipo or a write the database refuses changes nothing; otherwise the row's column is set |
| SubirTabla.Subido | Master/Programas/Aplicacion/Centinela_Subir_Tabla.py:519-547 | The uploaded flag is 1 exactly when the upload was needed, the file is there, both elements are found and the metafield write succeeds, and 0 otherwise |
| SubirTabla.RecordOf | Master/Programas/Aplicacion/Centinela_Subir_Tabla.py:483-507 | A report line exists exactly when some upload is needed and the SKU is found in the index; it carries the row's ID and the stripped, upper-cased SKU (also Centinela_Subir_Tabla.py:580-599) |
| SubirTabla.RecordOfFlags | Master/Programas/Aplicacion/Centinela_Subir_Tabla.py:494-498 | Found means the file flag is 1; uploaded means the row needed the upload and the metafield write went through (also Centinela_Subir_Tabla.py:580-597) |
| SubirTabla.PendingIffNeedsUpload | Master/Programas/Aplicacion/Centinela_Subir_Tabla.py:494-502 | The pending query selects exactly the rows `procesar_sku` has something to upload for (also Centinela_Subir_Tabla.py:644-654) |
| SubirTabla.SubirAcordeon | Master/Programas/Aplicacion/Centinela_Subir_Tabla.py:519-547 | One accordion counts as uploaded exactly as `Subido` says, and then its two flag writes are applied as far as the database commits them |
| SubirTabla.ProcesarSku | Master/Programas/Aplicacion/Centinela_Subir_Tabla.py:483-604 | The report line is as specified, success is having one, and the tables change only by the uploads it records, each write as far as the database commits it |
| SubirTabla.FlagOnlyAfterWrite | Master/Programas/Aplicacion/Centinela_Subir_Tabla.py:535-569 | An uploaded flag changes only for the processed ID, only to 1, and only after that accordion's metafield was written and the database committed the write |
| SubirTabla.RefusedWriteStaysPending | Master/Programas/Aplicacion/Centinela_Subir_Tabla.py:405-425 | When the database refuses both flag writes, a pending row stays pending although its report line may say uploaded |
| SubirTabla.Pendientes | Master/Programas/Aplicacion/Centinela_Subir_Tabla.py:644-655 | The pending rows are exactly the rows of the table the query selects |
| SubirTabla.RecordsBounded | Master/Programas/Aplicacion/Centinela_Subir_Tabla.py:693-700 | At most one report line per pending row |
| SubirTabla.Count | Master/Programas/Aplicacion/Centinela_Subir_Tabla.py:710-713 | A count never exceeds the number of lines |
| SubirTabla.CountMonotone | Master/Programas/Aplicacion/Centinela_Subir_Tabla.py:710-713 | A property implied by another is counted at most as often |
| SubirTabla.RecordsUploadedWereFound | Master/Programas/Aplicacion/Centinela_Subir_Tabla.py:584-596 | Every report line says uploaded only where it says found |
| SubirTabla.SummaryOrdered | Master/Programas/Aplicacion/Centinela_Subir_Tabla.py:710-714 | In the summary, uploaded ≤ found ≤ processed ≤ pending, for both accordions |
| SubirTabla.ProcesarTodos | Master/Programas/Aplicacion/Centinela_Subir_Tabla.py:693-702 | The pool's calls produce the specified report lines and tables, each write applied only as far as the database commits it |
| SubirTabla.ProcesarSiguiente | Master/Programas/Aplicacion/Centinela_Subir_Tabla.py:695 | One task appends its line and applies the writes of its uploads that the database commits |
| SubirTabla.SubirDesplegables | Master/Programas/Aplicacion/Centinela_Subir_Tabla.py:610-720 | A summary is written exactly when something is pending and the index is not empty; then the lines and tables are those of processing every pending row, a refused write leaving its row as it was; otherwise nothing changes |
| SubirPdf.ObtenerSkus | Master/Programas/Aplicacion/Centinela_Subir_PDF.py:134-147 | The selected rows are exactly those with PDF_Archivo_Descargado = 1 and PDF_Archivo_Subido NULL or 0, in table order |
| SubirPdf.VerificarPdf | Master/Programas/Aplicacion/Centinela_Subir_PDF.py:152-168 | The path is base/sku/PDF/sku.pdf; found exactly when it is a regular file; the size is the byte size divided by 1024 rounded down, and 0 when missing |
| SubirPdf.OutcomeOf | Master/Programas/Aplicacion/Centinela_Subir_PDF.py:306-328 | A PDF is uploaded only when found, and a missing one records size 0 |
| SubirPdf.Register | Master/Programas/Aplicacion/Centinela_Subir_PDF.py:181-206 | Only the row with this ID takes the flag and the size; every other row is unchanged |
| SubirPdf.UploadAll | Master/Programas/Aplicacion/Centinela_Subir_PDF.py:296-328 | Every selected row is processed once: the counters are those of the outcomes, there is one `registros_subidos` entry per selected row, in order, with its uploaded flag, and the table holds the registered outcomes |
| SubirPdf.UploadEach | Master/Programas/Aplicacion/Centinela_Subir_PDF.py:302-328 | The loop computes the specified counters, entries and table |
| SubirPdf.UploadOne | Master/Programas/Aplicacion/Centinela_Subir_PDF.py:306-314 | Found bumps the found counter; an upload bumps the uploaded counter and adds its KB |
| SubirPdf.CountersSnoc | Master/Programas/Aplicacion/Centinela_Subir_PDF.py:308-314 | One more row adds its own outcome to the counters |
| SubirPdf.RegisteredSnoc | Master/Programas/Aplicacion/Centinela_Subir_PDF.py:315-323 | One more row registers its outcome when the commit succeeds |
| SubirPdf.CountersOrdered | Master/Programas/Aplicacion/Centinela_Subir_PDF.py:296-314 | pdf_subidos ≤ pdf_encontrados ≤ total_procesados |
| SubirPdf.CalcularTotalSubidos | Master/Programas/Aplicacion/Centinela_Subir_PDF.py:208-224 | A failed query, or no uploaded row, gives 0 |
| SubirPdf.NoUploadsSumZero | Master/Programas/Aplicacion/Centinela_Subir_PDF.py:213-219 | With no uploaded row the sum is 0 |
| SubirPdf.RegisterSum | Master/Programas/Aplicacion/Centinela_Subir_PDF.py:194-215 | Registering a row not yet uploaded adds its size to the uploaded total exactly when its flag is 1 |
| SubirPdf.RegisterInit | Master/Programas/Aplicacion/Centinela_Subir_PDF.py:194-199 | Registering commutes with dropping the last row |
| SubirPdf.HasIdInit | Master/Programas/Aplicacion/Centinela_Subir_PDF.py:197 | A last row with another ID does not change whether the ID occurs |
| SubirPdf.SelectedIdsDistinct | Master/Programas/Aplicacion/Centinela_Subir_PDF.py:139-142 | Selecting rows keeps the IDs distinct |
| SubirPdf.RegisteredFrame | Master/Programas/Aplicacion/Centinela_Subir_PDF.py:194-199 | Registering keeps every ID and leaves rows that were not processed untouched |
| SubirPdf.SumAfterRegistering | Master/Programas/Aplicacion/Centinela_Subir_PDF.py:311-315 | With every registration committed, the uploaded total grows by the KB uploaded in the run (also Centinela_Subir_PDF.py:194-199) |
| SubirPdf.TotalAfterRun | Master/Programas/Aplicacion/Centinela_Subir_PDF.py:296-331 | The total reported after a run with every registration committed is the earlier total plus `total_nuevos_subidos` |
| Reset.FirstLaterToday | Master/Programas/Aplicacion/RESET.py:11-14 | The first listed hour, in list order, whose time today is later than now; none only when every listed hour today is not later; no error when every hour is valid |
| Reset.CalcularProximaHora | Master/Programas/Aplicacion/RESET.py:9-17 | The result is strictly after now and on a whole hour; it is today at the first later listed hour, or tomorrow at the first listed hour when none is later; an empty list raises |
| Reset.AtHourWhole | Master/Programas/Aplicacion/RESET.py:12-16 | An hour boundary has zero minutes, seconds and microseconds |
| Reset.AfterToday | Master/Programas/Aplicacion/RESET.py:16 | Any hour tomorrow is later than now |
| Reset.NextRunWithinGap | Master/Programas/Aplicacion/RESET.py:9-17 | With sorted hours no more than g hours apart, across midnight too, the next run is at most g hours away |
| Reset.ScheduledWithinThreeHours | Master/Programas/Aplicacion/RESET.py:6-17 | With the configured hours the next run lies in (now, now + 3h] |
| Config.MustGet | Master/Programas/Aplicacion/config.py:13-17 | An unset or empty variable raises; otherwise the value is returned stripped, never longer than the variable's text |
| Config.MustGetIsSlice | Master/Programas/Aplicacion/config.py:17 | The value read is a contiguous piece of the variable's text |
| Config.BlankValueReadsEmpty | Master/Programas/Aplicacion/config.py:15-17 | A whitespace-only value passes the emptiness test and reads as "" |
| Config.Build | Master/Programas/Aplicacion/config.py:73-89 | A dict display of explicit entries has exactly their keys, each under the Master directory |
| Config.BackupKeysInjective | Master/Programas/Aplicacion/config.py:82 | Distinct names give distinct backup keys |
| Config.TableShape | Master/Programas/Aplicacion/config.py:73-89 | Every path of the table lies strictly under the Master directory and ends in an explicit entry's path or a working sub-directory name |
| Config.AllUnderMaster | Master/Programas/Aplicacion/config.py:58-89 | Every path of `DIRECTORIOS` lies strictly under `INSTALL_ROOT/Master` |
| Config.TableSubdirEntries | Master/Programas/Aplicacion/config.py:81-82 | Each working name maps to Resultado/name and name_respaldo to Respaldo/name |
| Config.ResultAndBackupEntries | Master/Programas/Aplicacion/config.py:67-82 | For each of the 11 working names, `DIRECTORIOS` maps name to Resultado/name and name_respaldo to Respaldo/name |
| Config.LastIndexOf | Master/Programas/Aplicacion/config.py:96 | The index of the last occurrence of the character, or -1 |
| Config.Targets | Master/Programas/Aplicacion/config.py:94-98 | The directories created are exactly the entries' paths without a suffix, with their ancestors |
| Config.CreateDirectories | Master/Programas/Aplicacion/config.py:94-98 | The loop succeeds exactly when every path without a suffix can be made, and then creates all of them; a failure ends it after the entries before it |
| Config.NoDotNoSuffix | Master/Programas/Aplicacion/config.py:96 | A path whose last component has no dot has no suffix |
| Config.OnlyIconHasSuffix | Master/Programas/Aplicacion/config.py:88-98 | The logo is the only entry whose path has a suffix, so it is the only entry not created |
| Config.TableSuffixes | Master/Programas/Aplicacion/config.py:73-98 | When only one explicit entry can end in a dotted component, only that entry can have a suffix |
| Html.StrippedSolid | Master/Programas/Aplicacion/Conversion_Caracteristicas_1.2.py:180 | Every string that `strip=True` keeps is non-empty with no whitespace at either end |
| Html.StrippedEmpty | Master/Programas/Aplicacion/Conversion_Caracteristicas_1.2.py:180 | Stripping drops every string exactly when all of them are blank |
| Html.GetTextShape | Master/Programas/Aplicacion/Conversion_Caracteristicas_1.2.py:180 | `get_text(strip=True)`, with or without a separator, is empty exactly when every string is blank, and otherwise stripping it again changes nothing (also Conversion_InfoAdicional_1.1.py:172) |
| Html.GetTextOne | Master/Programas/Aplicacion/Conversion_Caracteristicas_1.2.py:229 | The text of a single string is that string stripped |
| Html.Label | Master/Programas/Aplicacion/Conversion_Caracteristicas_1.2.py:236 | The label keeps no trailing colon |
| Html.LabelStripsColons | Master/Programas/Aplicacion/Conversion_Caracteristicas_1.2.py:236 | The label is the text of the `<strong>` up to its trailing colons, all of which are dropped (also Conversion_InfoAdicional_1.1.py:241) |
| Html.DtHasOneColon | Master/Programas/Aplicacion/Conversion_Caracteristicas_1.2.py:250 | However many colons a label ends with in the page, its `<dt>` ends in exactly one, and stripping it gives the label back (also Conversion_InfoAdicional_1.1.py:253) |
| ConversionCaracteristicas.SentenceCaseShape | Master/Programas/Aplicacion/Conversion_Caracteristicas_1.2.py:157-165 | A sentence-case title keeps the length of the heading, upper-cases its first character and lower-cases every other one; the empty heading stays empty |
| ConversionCaracteristicas.SentenceCaseIdempotent | Master/Programas/Aplicacion/Conversion_Caracteristicas_1.2.py:157-165 | Converting a title that is already in sentence case changes nothing |
| ConversionCaracteristicas.FirstIconAt | Master/Programas/Aplicacion/Conversion_Caracteristicas_1.2.py:174 | The icon that decides a cell's value is the first `<i>` in document order: everything before it is text, and the position is past the end when the cell has no icon |
| ConversionCaracteristicas.ReplaceIconsMeaning | Master/Programas/Aplicacion/Conversion_Caracteristicas_1.2.py:167-180 | Only the first icon of a cell decides its value: a green check gives "Sí", otherwise a red cross gives "No", and any other icon, or none, gives the stripped text of the cell |
| ConversionCaracteristicas.ReplaceIconsStripped | Master/Programas/Aplicacion/Conversion_Caracteristicas_1.2.py:180 | The value written for a cell never has surrounding whitespace |
| ConversionCaracteristicas.ValueRun | Master/Programas/Aplicacion/Conversion_Caracteristicas_1.2.py:240-246 | The value after a `<strong>` takes in exactly the siblings up to the first one that is neither a non-empty text node nor a `<br>` |
| ConversionCaracteristicas.StrongValueIsStripped | Master/Programas/Aplicacion/Conversion_Caracteristicas_1.2.py:236-246 | The value of a `<strong>` entry is the text gathered from its siblings, stripped |
| ConversionCaracteristicas.CollectValue | Master/Programas/Aplicacion/Conversion_Caracteristicas_1.2.py:239-246 | The sibling loop gathers the stripped text of each text node and a space for each `<br>`, over exactly the run that `ValueRun` delimits |
| ConversionCaracteristicas.StrongToEntry | Master/Programas/Aplicacion/Conversion_Caracteristicas_1.2.py:235-251 | The entry of a `<strong>` is its label without trailing colons and the value gathered after it, taken as text |
| ConversionCaracteristicas.ParagraphEntries | Master/Programas/Aplicacion/Conversion_Caracteristicas_1.2.py:235-251 | A titled paragraph gives one entry per `<strong>`, in document order |
| ConversionCaracteristicas.ElementStep | Master/Programas/Aplicacion/Conversion_Caracteristicas_1.2.py:220-260 | One `<h5>` or `<p>` moves the title, the entries in progress and the emitted blocks exactly as the paragraph-section state machine says |
| ConversionCaracteristicas.ParseParagraphSection | Master/Programas/Aplicacion/Conversion_Caracteristicas_1.2.py:206-265 | The paragraph section emits the blocks of its state machine run over the elements in order, closing the last block when it has a title and entries |
| ConversionCaracteristicas.StepSound | Master/Programas/Aplicacion/Conversion_Caracteristicas_1.2.py:220-264 | Each element keeps the invariant: entries in progress always have a title, and every emitted block has a title and at least one entry |
| ConversionCaracteristicas.WalkSound | Master/Programas/Aplicacion/Conversion_Caracteristicas_1.2.py:220-264 | The invariant holds after any number of elements |
| ConversionCaracteristicas.ParagraphBlocksFilled | Master/Programas/Aplicacion/Conversion_Caracteristicas_1.2.py:223-263 | No block of a paragraph section is emitted without a title or without entries |
| ConversionCaracteristicas.StepKeepsEntries | Master/Programas/Aplicacion/Conversion_Caracteristicas_1.2.py:220-264 | An element moves entries from the block in progress into an emitted block, or adds new ones, but never drops or repeats one |
| ConversionCaracteristicas.WalkKeepsEntries | Master/Programas/Aplicacion/Conversion_Caracteristicas_1.2.py:220-264 | After any number of elements, the emitted blocks followed by the entries in progress are exactly the entries the elements added, in order |
| ConversionCaracteristicas.EventsBare | Master/Programas/Aplicacion/Conversion_Caracteristicas_1.2.py:236 | Every label a `<strong>` of a paragraph gives has no trailing colon |
| ConversionCaracteristicas.AddedBare | Master/Programas/Aplicacion/Conversion_Caracteristicas_1.2.py:233-258 | What one element adds has bare labels, including the fixed "Acerca de" label of an untitled paragraph |
| ConversionCaracteristicas.GatheredBare | Master/Programas/Aplicacion/Conversion_Caracteristicas_1.2.py:233-258 | Every entry added by any number of elements has a bare label |
| ConversionCaracteristicas.ParagraphKeepsEveryEntry | Master/Programas/Aplicacion/Conversion_Caracteristicas_1.2.py:206-265 | The blocks of a paragraph section hold, in order, every entry its paragraphs add, none lost at a heading, and every label is bare, so its `<dt>` ends in exactly one colon |
| ConversionCaracteristicas.PlainParagraphIsCaracteristicas | Master/Programas/Aplicacion/Conversion_Caracteristicas_1.2.py:232-263 | A section that is a single paragraph of plain text gives one "Características" block whose single "Acerca de" entry is the paragraph's text |
| ConversionCaracteristicas.BareHeadingKeepsTitle | Master/Programas/Aplicacion/Conversion_Caracteristicas_1.2.py:221-231 | A heading without a `<strong>` closes the block in progress but leaves the old title in force, so the paragraphs after it open a second block under that same title |
| ConversionCaracteristicas.ParseTable | Master/Programas/Aplicacion/Conversion_Caracteristicas_1.2.py:267-302 | A table section gives nothing without an `<h5>`, and otherwise exactly one block titled by its heading in sentence case, holding the entries of its rows, even when no row survives |
| ConversionCaracteristicas.ParseTableSection | Master/Programas/Aplicacion/Conversion_Caracteristicas_1.2.py:267-302 | The row loop builds exactly the block `ParseTable` describes |
| ConversionCaracteristicas.TableEntriesFromRows | Master/Programas/Aplicacion/Conversion_Caracteristicas_1.2.py:283-297 | An entry is in a table's block if and only if some row with at least two cells and a `<strong>` in its first cell gives it, and every label is bare |
| ConversionCaracteristicas.TablesBlocksCount | Master/Programas/Aplicacion/Conversion_Caracteristicas_1.2.py:311-316 | The spec-sheet tables of a section give one block per table that has a heading |
| ConversionCaracteristicas.SectionModes | Master/Programas/Aplicacion/Conversion_Caracteristicas_1.2.py:304-319 | A section with spec-sheet tables ignores its paragraphs and gives one block per headed table; a section without them gives the blocks of its paragraphs |
| ConversionCaracteristicas.ParseSection | Master/Programas/Aplicacion/Conversion_Caracteristicas_1.2.py:304-319 | `parse_section` returns the blocks of its mode, table after table in table mode |
| ConversionCaracteristicas.ProcessHtmlFile | Master/Programas/Aplicacion/Conversion_Caracteristicas_1.2.py:321-343 | A file gives the blocks of its `panel-body` sections, section after section, and nothing when it cannot be read or parsed |
| ConversionCaracteristicas.ToProcessMarks | Master/Programas/Aplicacion/Conversion_Caracteristicas_1.2.py:405-415 | Every SKU to process has a truthy `clave`, there are no more of them than products, and a SKU is marked new exactly when it is not a string among the existing SKUs |
| ConversionCaracteristicas.CollectPending | Master/Programas/Aplicacion/Conversion_Caracteristicas_1.2.py:405-415 | The first loop collects exactly the pending SKUs `ToProcessMarks` describes, in product order |
| ConversionCaracteristicas.ErrorSticks | Master/Programas/Aplicacion/Conversion_Caracteristicas_1.2.py:433-583 | Once the run has stopped on an error, it stays stopped on that same error |
| ConversionCaracteristicas.HandleOne | Master/Programas/Aplicacion/Conversion_Caracteristicas_1.2.py:434-583 | One pending SKU: a `clave` that is not a string stops the run; a missing page is skipped; a page with no block counts as processed only; a failed load, render or save is skipped; so is a new SKU already held or whose insertion the database refuses, an existing one without a record, and one whose `CaracteristicasTabla` write is refused (a new SKU stays inserted); otherwise it is counted as converted (also Master/Programas/Aplicacion/Conversion_Caracteristicas_1.2.py:360-387) |
| ConversionCaracteristicas.ProcessPending | Master/Programas/Aplicacion/Conversion_Caracteristicas_1.2.py:433-583 | The second loop folds `HandleOne` over the pending SKUs in order, stopping at the first error |
| ConversionCaracteristicas.ProcessAllProducts | Master/Programas/Aplicacion/Conversion_Caracteristicas_1.2.py:389-585 | The corrected `process_all_products` gives the four results of the loop on every path, four zero results when there is nothing to process, or the error that stopped it |
| ConversionCaracteristicas.Unpack | Master/Programas/Aplicacion/Conversion_Caracteristicas_1.2.py:676 | Unpacking into four names succeeds exactly when four values come back, and then gives those values |
| ConversionCaracteristicas.EarlyExitCannotBeUnpacked | Master/Programas/Aplicacion/Conversion_Caracteristicas_1.2.py:399-423 | With nothing to process, the code as written returns three values, which `main` cannot unpack, where the corrected code returns four zero results (also Conversion_Caracteristicas_1.2.py:676) |
| ConversionCaracteristicas.LoopAgreesWithCorrected | Master/Programas/Aplicacion/Conversion_Caracteristicas_1.2.py:585 | When there is something to process, the code as written and the corrected one fail together and otherwise return the same counters (also Conversion_Caracteristicas_1.2.py:676) |
| ConversionCaracteristicas.RunTallied | Master/Programas/Aplicacion/Conversion_Caracteristicas_1.2.py:565-583 | At every step the SKU total, the converted count and the length of the SKU list agree and do not exceed the processed count, which grows by at most one per SKU |
| ConversionCaracteristicas.RunConvertsOnlyPages | Master/Programas/Aplicacion/Conversion_Caracteristicas_1.2.py:449-565 | A SKU is listed as converted only when its page exists, gave at least one block and was saved and its `CaracteristicasTabla` write committed, and it is then in `informaciontablas`, which only grows |
| ConversionCaracteristicas.RunFailsOnlyOnTypeError | Master/Programas/Aplicacion/Conversion_Caracteristicas_1.2.py:440 | The run stops exactly when some pending `clave` is not a string, and the error is then the `TypeError` of building its path |
| ConversionCaracteristicas.NewSkuConvertedOnce | Master/Programas/Aplicacion/Conversion_Caracteristicas_1.2.py:512-523 | A SKU marked new wherever it appears is converted at most once: the first conversion inserts it, and a later insert finds it there and is rejected |
| ConversionCaracteristicas.ProcessAllProductsReport | Master/Programas/Aplicacion/Conversion_Caracteristicas_1.2.py:389-585 | What the run reports: the counters agree, no more SKUs are processed than there are products, every listed SKU had a page that gave blocks and was saved and its conversion committed, a SKU not among the existing ones is listed at most once, and the run fails exactly when a pending `clave` is not a string |
| ConversionInfoAdicional.ReplaceIconsWithText | Master/Programas/Aplicacion/Conversion_InfoAdicional_1.1.py:153-172 | A missing node reads as the empty text; otherwise every green check icon in the node is replaced in place by "Si" and every red cross icon by "No", and the text is the node's strings, icons replaced, stripped and joined with spaces |
| ConversionInfoAdicional.ReplacedIsFinal | Master/Programas/Aplicacion/Conversion_InfoAdicional_1.1.py:164-169 | Replacing an icon leaves no check or cross icon, a second replacement changes nothing, and an element changes exactly when it is a check or cross icon |
| ConversionInfoAdicional.ReplacingTwiceChangesNothing | Master/Programas/Aplicacion/Conversion_InfoAdicional_1.1.py:163-172 | After the replacement no check or cross icon is left in the node, a second pass changes nothing, and the text read from the node is the same |
| ConversionInfoAdicional.IconTextShape | Master/Programas/Aplicacion/Conversion_InfoAdicional_1.1.py:172 | The value text has no surrounding whitespace, and it is empty exactly when every string of the node, icons replaced, is blank |
| ConversionInfoAdicional.LoneIconReads | Master/Programas/Aplicacion/Conversion_InfoAdicional_1.1.py:166-169 | A value that is a lone green check reads "Si" and a lone red cross reads "No", whatever the icon itself holds |
| ConversionInfoAdicional.GetTextOneWord | Master/Programas/Aplicacion/Conversion_InfoAdicional_1.1.py:172 | "Si" and "No" read back as themselves when joined with spaces and stripped |
| ConversionInfoAdicional.RowEntryMeaning | Master/Programas/Aplicacion/Conversion_InfoAdicional_1.1.py:227-254 | A row gives an entry exactly when it has at least two direct `div`s, a `<strong>` in the first, and a non-empty label; the entry's label is bare and non-empty, and its value is "N/A" exactly when the second cell's text is empty or is itself "N/A" |
| ConversionInfoAdicional.RowToEntry | Master/Programas/Aplicacion/Conversion_InfoAdicional_1.1.py:229-254 | One row of the loop gives the entry `RowEntryMeaning` describes, or is skipped |
| ConversionInfoAdicional.ColumnBlockMeaning | Master/Programas/Aplicacion/Conversion_InfoAdicional_1.1.py:208-261 | A `col-sm-6` column gives a sub-accordion exactly when it has an `<h5>` with non-empty text and some row gives an entry; the block is titled with that text and holds those entries in row order |
| ConversionInfoAdicional.ColumnEntries | Master/Programas/Aplicacion/Conversion_InfoAdicional_1.1.py:226-254 | The row loop collects the entries of the usable rows, in order |
| ConversionInfoAdicional.ParseSectionToSubaccordion | Master/Programas/Aplicacion/Conversion_InfoAdicional_1.1.py:198-263 | A `ficha_tecnica` section gives the sub-accordions of its columns, column after column, those that give none left out |
| ConversionInfoAdicional.ProcessHtmlFile | Master/Programas/Aplicacion/Conversion_InfoAdicional_1.1.py:265-289 | A page gives the sub-accordions of its `ficha_tecnica` sections in order, and nothing when it has none or cannot be read or parsed |
| ConversionInfoAdicional.RowsFull | Master/Programas/Aplicacion/Conversion_InfoAdicional_1.1.py:241-254 | Every entry a list of rows gives has a bare, non-empty label and a non-empty value |
| ConversionInfoAdicional.ColumnFilled | Master/Programas/Aplicacion/Conversion_InfoAdicional_1.1.py:256-259 | Every sub-accordion a column gives has a title and only full entries, at least one |
| ConversionInfoAdicional.ColumnsFilled | Master/Programas/Aplicacion/Conversion_InfoAdicional_1.1.py:207-263 | Every sub-accordion a section gives is filled |
| ConversionInfoAdicional.FichasFilled | Master/Programas/Aplicacion/Conversion_InfoAdicional_1.1.py:283-284 | Every sub-accordion of every section is filled |
| ConversionInfoAdicional.PageBlocksFilled | Master/Programas/Aplicacion/Conversion_InfoAdicional_1.1.py:265-289 | Each sub-accordion of a page has a title and at least one entry, each with a non-empty label without trailing colon and a non-empty value; a page that cannot be read or has no `ficha_tecnica` section gives none |
| ConversionInfoAdicional.HtmlFilesMeaning | Master/Programas/Aplicacion/Conversion_InfoAdicional_1.1.py:459 | The HTML files of a folder are exactly the names that end in `.html` in any letter case |
| ConversionInfoAdicional.HandleProduct | Master/Programas/Aplicacion/Conversion_InfoAdicional_1.1.py:430-552 | One product: skipped when its `clave` is falsy, not among the existing SKUs or without a record, or when the record is not read-and-unconverted, the folder is missing or holds no HTML file, or the template cannot be loaded, rendered or saved; a first HTML file with no sub-accordion counts as processed only; otherwise all three counters move, `informacionadicional` holds the SKU only if that write commits, and the record is marked converted only if its update commits (also Master/Programas/Aplicacion/Conversion_InfoAdicional_1.1.py:304-349) |
| ConversionInfoAdicional.ProcessProducts | Master/Programas/Aplicacion/Conversion_InfoAdicional_1.1.py:409-563 | No products means nothing is done and no report is written; otherwise the run folds `HandleProduct`, with its refusable writes, over the products from zero counters |
| ConversionInfoAdicional.ConvertingOne | Master/Programas/Aplicacion/Conversion_InfoAdicional_1.1.py:533-539 | Converting a record awaiting conversion takes exactly that SKU out of the awaiting ones |
| ConversionInfoAdicional.HandleKeeps | Master/Programas/Aplicacion/Conversion_InfoAdicional_1.1.py:430-552 | Each product keeps the run invariant: total equals converted and neither exceeds processed, which exceeds no product count; records keep their SKUs and read flags and are only ever set converted; a SKU leaves the awaiting ones only through a counted conversion, and when every update commits each conversion takes exactly one out |
| ConversionInfoAdicional.RunKeeps | Master/Programas/Aplicacion/Conversion_InfoAdicional_1.1.py:430-552 | The run invariant holds after any number of products |
| ConversionInfoAdicional.SummaryConsistent | Master/Programas/Aplicacion/Conversion_InfoAdicional_1.1.py:409-563 | The summary `main` writes is consistent: total equals converted and neither exceeds processed, no more processed than products, converted plus still-awaiting is at least the awaiting at the start and equals it when every update of `informaciontablas` commits, records keep their SKUs and a settled record is untouched; there is no summary exactly when there are no products |
| ConversionInfoAdicional.RunLeavesSettled | Master/Programas/Aplicacion/Conversion_InfoAdicional_1.1.py:450 | A record that is not awaiting conversion is never touched |
| ConversionInfoAdicional.ConvertedOnlyOnce | Master/Programas/Aplicacion/Conversion_InfoAdicional_1.1.py:450-539 | A product listed twice is converted once when its update commits: the first conversion marks its record, and the second finds it settled and changes nothing |
| ConversionInfoAdicional.RefusedUpdateConvertsAgain | Master/Programas/Aplicacion/Conversion_InfoAdicional_1.1.py:333-349 | When the update of `informaciontablas` is refused and rolled back, the record stays awaiting and the same product listed again is converted and counted again (also Master/Programas/Aplicacion/Conversion_InfoAdicional_1.1.py:541-545) |

## Left out

- Logging, console output and the `time.sleep` waits are left out, because they change no state the scripts read back. `Descarga` counts the pauses but does not model their length in time.
- FTP, HTTP, Shopify, the MySQL tables behind SQLAlchemy, the Selenium browser, Jinja templates and Pillow are external. Their answers are inputs to the model (`Shop`, `World`, `MetaAnswers`, `Response` and similar). The rendered HTML markup and the image pixels are therefore not modelled.
- Floating-point arithmetic is modelled with `real`, and parsing a number with `float()` is an input. Prices, exchange rates, sizes in KB computed by division and the squareness tolerance are exact here, with no rounding.
- Undefined names are parameters, because the scripts use them without defining them. These are `registrar_en_log`, `DIRECTORIOS_RESULTADOS`, `DIRECTORIOS_RESPALDO`, `crear_directorios`, `contar_productos_json` and `is_float` in `DescargaJSON_2.2.4.py`, `ARCHIVOS_ORGANIZADOS_DIR` in `Conversion_Caracteristicas_1.2.py`, `INPUT_BASE_DIR` in `Centinela_Subir_Tabla.py` and `FTP_DESTINATION_DIR` in `Centinela_Subir_PDF.py`.
- The thread pool of `Centinela_Subir_Tabla.py` (lines 693-700) is modelled as a sequential loop in row order. The order in which `as_completed` hands back the results, and with it the order of the report lines, is not modelled. Interleaved database writes are not modelled either.
- The `retry_on_429` decorator (`Centinela_Subir_Tabla.py:112-135`) is not modelled. Each metafield answer is the one the decorator finally returns, so the retry count and the back-off are left out. The 429 retry of the paginated SKU listing is modelled.
- The scraping itself in `Centinela_Descarga_Sin_Toners.py` is not modelled: the browser session, the 60-second per-product timeout and the files it saves. Only the product selection, the file-name cleaning, the product URL and the directory layout are.
- The CSV and TXT report files are not modelled. The counters and report records they are written from are.
- `Combination.FilingOf`: a truthy `clave` that is not a string, such as a number, is an error in the model. The script would file it under that value, and the sort by `clave` would then raise as soon as a string `clave` sits beside it.
- SortByClaveAsWritten: when it does not raise and the keys are numbers, or lists, Python orders them by value; the model gives the stable sort by the string key, which puts them all at "" and keeps their order. The falsy non-string claves that the combiner keeps (0, 0.0, false, []) are equal within their kind, so on those the two orders agree. A comparison of two list keys that raises on their elements is not modelled either.
- `ImagenesFinal.ScaleSizeIntended` is not used by the rest of the model, because the sizes the image job stores come from image processing, which is an input.
- `DescargaJSON_2.2.4.py`'s stage order is modelled in `Pipeline` except for the timestamps in file names and the pauses between stages.
- `Backup`: a dated backup folder that cannot be created skips its category. Which OS error occurred is not modelled.
- `Config`: file-system permissions and the directories that already exist are not modelled. The model is given whether `mkdir` succeeds for each path.
- UploadImages: the script calls itself again after each 429 with no bound, so a shop that always answers 429 recurses until Python's recursion limit. The model stops when the supplied passes run out and returns None. The images the shop accepted during abandoned passes, which end up on the product twice, are not counted.
- Combine sorts with the corrected key of the second finding below (`ClaveOrder.SortByClave`). A record whose `clave` is present but not a string (null, 0, false, [], {}; the combiner keeps the falsy ones under a synthetic key) makes the script's sort at `DescargaJSON_2.2.4.py:243` raise beside a string `clave`, and null or {} beside any other record. The model succeeds and sorts that record as if its `clave` were "". `ClaveOrder.SortByClaveAsWritten` and `ClaveOrder.FalsyClaveAbortsSort` model the failure.
- DifferenceFiles sorts each of the three lists with the corrected key, so the same records do not make it raise as the script does at `DescargaJSON_2.2.4.py:322`.
- FinalSnapshot sorts with the corrected key, so the same records do not make it raise as the script does at `DescargaJSON_2.2.4.py:340`.
- CombineStage inherits Combine's corrected sort: a `clave` that is not a string, beside a string one, does not fail the stage as it does in the script.
- CompareAndWrite writes its lists through the corrected sort, so the same input does not fail the write stages.
- RunPipeline goes on past the combine and write stages on such input, where the script's run ends.
- FoldChar folds only the Latin-1 block. NFKD at `Centinela_Descarga_Sin_Toners.py:75` also decomposes other characters ("™" to "TM", "ﬁ" to "fi", "ă" to "a"), which the model drops as non-ASCII, so `AsciiFold` and `SanitizeFilename` lose them where the script keeps them.
- LowerChar, UpperChar, Lower, Upper and Capitalize map only ASCII and Latin-1 letters, one character to one. Python's `str` methods map every cased Unicode letter, some to two characters ("ß".upper() is "SS") and some out of Latin-1 ("ÿ" to "Ÿ", "µ" to "Μ"). Every member built on them inherits this restriction.
- SentenceCaseShape: the kept length holds for the Latin-1 mapping only. In the script, `"ß".capitalize()` is "Ss", one character longer.
- IsDigits and DigitsValue accept ASCII digits only. `str.isdigit` also accepts "²", after which `int()` raises, and "٣", which `int()` reads as 3. The model gives no number for both.
- ObtenerTodosSkus: a Shopify variant whose `sku` is null makes the script raise at `Centinela_Subir_Tabla.py:281`. The model reads every variant's SKU as a string.
- SubirDesplegables: a CSV report file that cannot be opened for writing (`Centinela_Subir_Tabla.py:686-708`) makes the script return before any SKU is processed and without a summary. The model assumes it opens.
- The `os.makedirs` calls at `Conversion_Caracteristicas_1.2.py:436` and `Conversion_InfoAdicional_1.1.py:502` are assumed to succeed. A failure there raises in the script.
- `cargar_jsons` in `Conversion_Caracteristicas_1.2.py` and `Conversion_InfoAdicional_1.1.py` is not modelled: the products are given as JSON objects (`Product`). An entry of a product list that is not an object makes `producto.get` raise in the script and cannot be represented in the model.
- `SubirPdf`: a failure of the FTP or database connection, of the table creation or of `obtener_skus` ends `Centinela_Subir_PDF.py`'s `main` early (lines 262-294). The model assumes they succeed and starts from the selected rows.
- DownloadAndValidate: a transfer that fails after `open(archivo_local_temp, 'wb')` leaves a truncated temp file behind in the script. The model leaves the temp file as it was after a failed transfer.
- `Reset`: `RESET.py` reads `datetime.now()` twice (lines 10 and 24), so a run started just before a scheduled hour can aim at the following one. The model uses one clock reading for both.
- Prepare: exceptions raised by `calcular_precio_venta`, by loading the description template or by rendering it (`ShopifyNoExistentes_1.4.2.py:590-633`) are not modelled. The model takes them to succeed, so such a product is `Ready` where the script only logs it.
- The tenacity `@retry` decorators of `ShopifyNoExistentes_1.4.2.py` (lines 346, 387 and 522) are not modelled: each answer is the one the last attempt gives. The one on `crear_producto_sin_variantes` never fires, because that function catches every exception itself (line 844).
- StrongToEntry, StrongEntry and StrongValueIsStripped use the gathered value as it is. The script parses it again with html.parser (`Conversion_Caracteristicas_1.2.py:247-248`), which decodes entity text such as `&amp;reg` to "®" and turns escaped markup such as `&lt;br&gt;` into a tag that is then dropped (or, for an escaped `<i>` icon, replaced). The model agrees with the script on values holding no '<' and no '&'.
- ProcesarImagenes: the `WHERE SKU = %s` comparison of `ShopifyImagenesFinalCompleto_2.3.4.py:378` is given as a `Lookup`: the column's collation for a string clave, and MySQL's comparison of the column with a number or a boolean for such a clave. A SKU longer than the 50 characters of the column, which the insert rejects or truncates, is not modelled.

## Findings

| source | as written | input that shows it | evidently intended | confidence | as-written member | corrected member |
|---|---|---|---|---|---|---|
| Master/Programas/Aplicacion/ShopifyCrearProductos_1.2.2.py:297-303 | A primary image displaced by a later "_full" image is dropped (the same loop runs in ShopifyNoExistentes_1.4.2.py), because it is neither the primary nor among the remaining images | files `["a.jpg", "b_full.jpg"]`: only `b_full.jpg` is posted | the displaced primary is posted with the remaining images, so every image is uploaded | not executed | Images.FirstImageLost, Images.AsWrittenNeverUploadsAll | Images.SplitIntendedPostsAll, Images.IntendedUploadsAll |
| Master/Programas/Aplicacion/DescargaJSON_2.2.4.py:243 | `sorted(..., key=lambda x: x.get('clave', ''))` gives the `clave` itself when it is present, whatever its type. The combiner keeps a record with a falsy `clave` that is not a string (null, 0, false, [], {}) under a synthetic key (lines 215-218), so the sort compares that key with a string and raises `TypeError` | two records, `{"clave": null}` or `{"clave": 0}` and `{"clave": "A1"}` | a `clave` that is not a string sorts as `""`, like a missing one | not executed | ClaveOrder.SortByClaveAsWritten, ClaveOrder.FalsyClaveAbortsSort | ClaveOrder.SortByClave |
| Master/Programas/Aplicacion/ShopifyImagenesFinalCompleto_2.3.4.py:190-213 | The bands `401 <= m < 500`, `501 <= m < 600`, … leave out 500, 600, … 1200, which fall through to 1280 | an image 500 pixels wide scales to 1280, while 499 gives 700 and 501 gives 800 | each band includes its upper bound (401..500 → 700, …), so the size never decreases with the image up to 1299 pixels | not executed | ImagenesFinal.ScaleSizeHoleAt500 | ImagenesFinal.ScaleSizeIntendedMonotone, ImagenesFinal.ScaleSizeIntendedAgrees |
| Master/Programas/Aplicacion/Conversion_Caracteristicas_1.2.py:399-423 | The two early exits of `process_all_products` return three values, but `main` unpacks four, so it raises `ValueError` before writing any report | no product file, or no product with a truthy `clave` | four zero counters are returned, and `main` writes an empty report | not executed | ConversionCaracteristicas.EarlyExitCannotBeUnpacked | ConversionCaracteristicas.ProcessAllProducts, ConversionCaracteristicas.LoopAgreesWithCorrected |
