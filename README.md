# Barcode and QR code web application: a Dafny model of its core

The application is a Flask server (`app.py`; `fixed_function.py` is a copy
of its `generate_sequence` handler) with browser scripts under `static/js/`.
This project models the parts of it that decide something:

- **Batch page** (`batch-processor.js`), module `BatchProcessor`, file
  `batch_processor.dfy`.
  - CSV parsing. This includes the delimiter detection, which always picks
    the pipe character. The pipe is handed unescaped to `new RegExp` and so
    matches the empty string at every position.
  - The automatic choice of the barcode column.
  - The chained submission of rows in slices of ten. This is a class
    `BatchRun` whose fields are the state the callbacks update. The network
    is a list of per-slice outcomes.
  - The progress percentage and the CSV export.
- **Server** (`app.py`, `fixed_function.py`), module `AppServer`, file
  `app_server.dfy`.
  - The request merge and the length check of barcode data.
  - The rate-limit tier and the save decision.
  - The per-index loops of the two sequence endpoints, down to the exact
    item text, the failed list and the database commit.
  - The single-barcode and QR endpoints, and the owner check when an image
    is fetched.
  - Image rendering is an oracle function. The database is a value `Store`:
    a map from id to record, plus the next id it will hand out.
- **Main page** (`barcodeApp.js`), module `BarcodeApp`, file
  `barcode_app.dfy`: the `FormValidator` checks and `validateForm`, the
  sequence bounds, the rate-limit string parser, the download links and the
  sequence CSV export.
- **Sequence page** (`sequence_generator.js`), module `SequenceGenerator`,
  file `sequence_generator.dfy`: the payload conversion, `validateFormData`,
  the CSRF cookie reader, the quote-doubling CSV export and the choice of
  download path.
- **Bulk sequence page** (`bulk-sequence-generator.js`), module
  `BulkSequence`, file `bulk_sequence.dfy`.
  - The sequence-slot counter, modelled as a class.
  - Detection of `PREFIX[START-END]SUFFIX`.
  - The configuration defaults and the 5000 cap.
  - The range display, and the CSV and ZIP exports.
- **Authentication helper** (`auth-helper.js`), module `AuthHelper`, file
  `auth_helper.dfy`.
  - The status line, a class.
  - Phone number clean-up and the Firebase error texts.
  - The guards of code verification.
  - The auth tab strip, a class whose method clears and sets the `active`
    flags in a loop.
- **Label templates** (`label-templates.js`), module `LabelTemplates`, file
  `label_templates.dfy`.

Two shared modules hold the language built-ins these files rely on:

- `Text` (`text.dfy`): JavaScript and Python trimming, splitting on one
  character, joining, decimal rendering, `str.zfill`, Python's `int()` and
  JavaScript's `parseInt`.
- `JsValues` (`js_values.dfy`): JavaScript values, truthiness, `String(x)`
  and the barcode objects the scripts receive.

Where the code departs from what its own comments, branches or callers
intend, the model follows the code:

- **Delimiter.** The comment at `static/js/batch-processor.js:380` says
  "use the delimiter that appears most frequently", so `"a,b;c,d"` would
  give `,`. The code always yields the pipe character
  (`BatchProcessor.DetectDelimiterIsPipe`). A comma-separated file therefore
  parses into one column per line (`BatchProcessor.NoPipeOneColumn`).
- **Header flag.** `static/js/batch-processor.js:338` reads the checkbox
  with `|| true`, so the flag is always true and the no-header branch at
  lines 350-353 never runs. Both branches are modelled
  (`BatchProcessor.ParseLines`), and `BatchProcessor.ParseCsv` takes the
  one that runs.
- **Empty input.** `"".split` gives one empty line, so empty text yields one
  empty header rather than none (`BatchProcessor.EmptyTextTable`).
- **Sequence route.** `static/js/sequence_generator.js:118` posts to
  `/api/generate_sequence`; `app.py` only routes `/generate_sequence`
  (line 175).
- **Bulk endpoint.** `static/js/bulk-sequence-generator.js` sends
  `range_string` (line 235) or `sequences` (line 311).
  `generate_bulk_sequence` (`app.py:832`) reads neither. It builds
  one sequence from `prefix`, `start`, `count` and the other fields, with
  defaults for the ones missing.

## Model

| member | source | states |
|---|---|---|
| BatchProcessor.LiteralMatchCount | static/js/batch-processor.js:373-377 | a global regex of one literal character matches once per occurrence, so at most the line's length |
| BatchProcessor.EmptyMatchCount | static/js/batch-processor.js:373-377 | the pattern built from the pipe character matches the empty string at all len + 1 positions |
| BatchProcessor.MaxOf | static/js/batch-processor.js:381 | Math.max of the counts is one of them and no count exceeds it |
| BatchProcessor.FirstIndexOf | static/js/batch-processor.js:382 | find returns the first index holding the value |
| BatchProcessor.DetectedIndex | static/js/batch-processor.js:371-385 | the detected candidate has the maximal count and every earlier candidate a strictly smaller one |
| BatchProcessor.DetectDelimiterIsPipe | static/js/batch-processor.js:371-385 | whatever the text, the detected delimiter is the pipe character |
| BatchProcessor.ParseCsv | static/js/batch-processor.js:337-366 | the header flag is always on: headers are the trimmed cells of the first line, data the non-blank remaining lines split into trimmed cells |
| BatchProcessor.ParseLines | static/js/batch-processor.js:339-362 | the shift-then-filter procedure gives the parse for either value of the header flag |
| BatchProcessor.FilterRows | static/js/batch-processor.js:357-362 | the loop keeps the non-blank lines in order, each as its trimmed cells |
| BatchProcessor.EmptyTextTable | static/js/batch-processor.js:339-349 | empty text gives one empty header and no rows |
| BatchProcessor.DataRowsClean | static/js/batch-processor.js:357-362 | never more rows than lines; every cell is trimmed and free of the delimiter |
| BatchProcessor.CellsClean | static/js/batch-processor.js:360 | each cell of a split line is trimmed and free of the delimiter |
| BatchProcessor.ParsePipeSeparated | static/js/batch-processor.js:337-366 | round trip: pipe-separated text of clean cells, with no blank data line, parses back to exactly its headers and rows |
| BatchProcessor.NoPipeOneColumn | static/js/batch-processor.js:347-348 | a text without a pipe gets a single header: the whole trimmed first line |
| BatchProcessor.AutoSelectColumn | static/js/batch-processor.js:486-490 | the first header whose lower-case form contains a keyword; none exactly when no header does |
| BatchProcessor.WidthBeatsBarcode | static/js/batch-processor.js:486-490 | "Width" contains "id", so it is chosen over a later "Barcode" column |
| BatchProcessor.CellAt | static/js/batch-processor.js:600 | the cell is defined exactly when the column index is a number inside the row |
| BatchProcessor.Settle | static/js/batch-processor.js:617-648 | only a reply with status 'success' yields results; a non-ok status and a failed reply become the messages shown |
| BatchProcessor.ChunkItems | static/js/batch-processor.js:599-615 | a slice posts min(start + 10, n) - start items |
| BatchProcessor.ChunkIsSlice | static/js/batch-processor.js:599-600 | the slice at start posts the items of rows start up to its end |
| BatchProcessor.SlicesCoverRows | static/js/batch-processor.js:592-600 | the first k slices are contiguous and in order: together they post the first min(10k, n) items |
| BatchProcessor.SliceSizes | static/js/batch-processor.js:583-600 | every slice has 1 to 10 rows and every slice but the last exactly 10 |
| BatchProcessor.ChunkStep | static/js/batch-processor.js:593-600 | slice k starts at 10k, and it is the last exactly when its end reaches n |
| BatchProcessor.RunStep | static/js/batch-processor.js:617-648 | slice k appends its request and its progress, and adds results or one message depending on how it settled |
| BatchProcessor.AllFailed | static/js/batch-processor.js:641-648 | when every slice fails no result survives and one message per slice is shown |
| BatchProcessor.Percentage | static/js/batch-processor.js:663 | the rounded percentage is within half a point of the exact ratio, between 0 and 100, and undefined for a total of 0 |
| BatchProcessor.RoundingBounds | static/js/batch-processor.js:663 | the integer rounding formula lies within half a unit of 100 current / total |
| BatchProcessor.BatchRun.constructor | static/js/batch-processor.js:583-589 | a run starts with nothing processed and one progress update of 0 |
| BatchProcessor.BatchRun.ProcessChunk | static/js/batch-processor.js:599-648 | a slice adds its length to processedItems whether it succeeds or fails; only success appends results, failure appends its message |
| BatchProcessor.BatchRun.Finalize | static/js/batch-processor.js:742-753 | the last progress update is 1 of 1 and the completion text counts the results |
| BatchProcessor.BatchRun.Run | static/js/batch-processor.js:582-653 | processedItems reaches n; the requests post every row's cell once, in order; results are the successful slices' results in slice order |
| BatchProcessor.ExportBatchToCsv | static/js/batch-processor.js:780-792 | the export is the data-URI prefix, the header and one newline-ended line per result |
| BatchProcessor.ExportStep | static/js/batch-processor.js:788-792 | one more result appends its line and a newline |
| BatchProcessor.ExportLines | static/js/batch-processor.js:785-792 | the exported text splits back into the header, one line per result and a final empty piece |
| BatchProcessor.ResultLineColumns | static/js/batch-processor.js:791 | a result without commas reads back as its three columns |
| AppServer.PyIntOf | app.py:203-216 | int() of an int, a bool, None and a string |
| AppServer.IntOrOfText | app.py:203-206 | a number sent as text reads back as itself; the empty text falls back to the default |
| AppServer.ExtractRequestData | app.py:93-108 | every key of defaults or body is present, the body's value wins, and a default shows only where the body is silent |
| AppServer.EmptyRequestGivesDefaults | app.py:93-108 | a request without a usable body yields the defaults unchanged |
| AppServer.GetUserRateLimits | app.py:85-91 | the visitor, member and premium tiers each get their own limit string |
| AppServer.EffectiveSave | app.py:221-227 | a save happens exactly when it was requested and the user is signed in; a string must read 'true' ignoring case |
| AppServer.SaveStrings | app.py:446-448 | 'false' is no request to save, 'TRUE' is one, and neither saves for a visitor |
| AppServer.ValidateBarcodeData | app.py:110-122 | valid exactly when non-empty and of an accepted length (EAN-13 12 or 13, EAN-8 7 or 8, UPC-A 11 or 12, others any), with the matching message |
| AppServer.LettersPassAsEan13 | app.py:110-122 | the check looks only at length: twelve letters pass as EAN-13 |
| AppServer.ParseSequenceParams | app.py:194-227 | a missing prefix, suffix, type, start, count or padding takes '', '', code128, 1, the form default and 0; a start, count or padding that int() refuses takes the same fallback; a missing save flag means no save, and nothing is saved for a visitor |
| AppServer.SequenceNumbersReadBack | app.py:203-216 | a start, count or pad_length sent as decimal text is read as that number |
| AppServer.DefaultTextsRead | app.py:203-216 | the default texts '1' and '0' convert to 1 and 0 |
| AppServer.NumberTextReadsBack | app.py:261-279 | the padded number text reads back as the number and is at least pad_length long |
| AppServer.ItemDataShape | app.py:258-281 | item i is prefix, then a number text that reads back as start + i and is at least pad_length long, then suffix |
| AppServer.StandaloneWidthReached | app.py:268-279 | with empty prefix and suffix, an EAN-13, EAN-8 or UPC-A item is as long as the largest of 12, 7 or 11, the padding and the number's own width |
| AppServer.StandaloneItemsPassValidation | app.py:268-285 | a standalone number no wider than the GS1 width always passes the length check |
| AppServer.PaddedItemExample | app.py:258-281 | prefix TEST, start 1, padding 3, suffix -TEMP gives TEST001-TEMP |
| AppServer.ZFillTwice | app.py:263-271 | padding to a then to b is padding to the larger of the two |
| AppServer.OutcomeOf | fixed_function.py:85-177 | index i fails exactly when its data fails the length check or, when not saving, cannot be rendered; otherwise it is queued for the signed-in user when saving, and rendered as temp_i when not |
| AppServer.Outcomes | fixed_function.py:85 | one outcome per index |
| AppServer.PartitionCounts | app.py:258-350 | every index lands in exactly one of failed, saved or rendered |
| AppServer.FailuresInOrder | app.py:286-292 | the failed list is exactly the rejected indices, in increasing order |
| AppServer.ModesExclusive | app.py:294-350 | nothing is rendered when saving and nothing is queued otherwise |
| AppServer.OutcomesIndexed | app.py:287-291 | each failed entry carries its own index |
| AppServer.StepLists | app.py:258-350 | one more index adds its outcome to exactly one list |
| AppServer.ProcessIndex | fixed_function.py:112-177 | the loop body appends the outcome of index i to its list |
| AppServer.GenerateItems | fixed_function.py:85-177 | the loop over indices from..to leaves the lists of the first to indices |
| AppServer.Commit | app.py:352-354 | a commit advances the next id by the number of records |
| AppServer.CommitStores | app.py:352-364 | old records are kept, the k-th new record gets id nextId + k, no other id appears, the store stays valid |
| AppServer.CommitTwice | app.py:1023-1026 | committing in two batches is committing once |
| AppServer.SavedEntries | app.py:356-364 | one entry per saved record, with consecutive ids from the first one |
| AppServer.Reported | app.py:370 | failed is None exactly when the list is empty |
| AppServer.BoundsError | app.py:231-238 | no error exactly when the count is in 1..max and the padding in 0..20; the count check comes first |
| AppServer.BoundsMessages | app.py:895-901 | the messages name the limits 1000, 5000 and 20 |
| AppServer.GenerateSequence | fixed_function.py:4-213 | a bounds error, or the saved answer and a commit when records were made, or the temporary answer with the store unchanged; only members get the saved answer |
| AppServer.BatchSizeOf | app.py:875-879 | the batch size is at most 50, and 10 when the value is not a number |
| AppServer.GenerateBulkSequence | app.py:834-1069 | as generate_sequence with limit 5000; a batch size of 0 is a 500, a negative one makes no item; saving always gives the saved answer |
| AppServer.RunBatches | app.py:924-1036 | the batches together make the items of all indices in order, and the commits add up to one commit of all records |
| AppServer.RunBatch | app.py:925-1034 | one batch adds its indices and commits what the session holds |
| AppServer.AllRejectedSavesNothing | app.py:284-350 | when every index is rejected nothing is saved or rendered and every index is reported failed |
| AppServer.GenerateBarcode | app.py:424-539 | missing or invalid data is a 400 with its message; saved exactly when valid and the member asked to save, under the next id with the image route's URL; otherwise the store is unchanged, and valid unsaved data gets the rendered PNG as a base64 data URI, or a 500 with the renderer's text or 'Failed to generate barcode image' |
| AppServer.GenerateQrcode | app.py:545-655 | no length check; a dynamic code needs a redirect URL; saved as type qrcode under the next id with the image route's URL exactly when a member asked to save; otherwise the rendered PNG as a base64 data URI, or a 500 with the renderer's text or 'Failed to generate QR code image' |
| AppServer.GetBarcodeImage | app.py:660-706 | 404 exactly for an unknown id, 403 exactly when the record is owned by someone else; a permitted request is served the rendered bytes, or a 500 with the renderer's text or the fixed message; an attachment named by the record's filename exactly when download reads 'true' |
| AppServer.OwnerOnly | app.py:670-675 | an owned barcode is served to its owner and refused to everyone else |
| BarcodeApp.ValidateText | static/js/barcodeApp.js:1480-1504 | valid exactly when required, min length, max length and pattern all pass; the message is the first failing check's ('This field is required', 'Minimum length is n characters', 'Maximum length is n characters', 'Invalid format') and empty when valid |
| BarcodeApp.TextWithinBoundsPasses | static/js/barcodeApp.js:1480-1504 | a non-blank value within the bounds that matches the pattern passes |
| BarcodeApp.BlankTextRequired | static/js/barcodeApp.js:1481-1486 | white space only fails a field whose rule omits required |
| BarcodeApp.ValidateNumber | static/js/barcodeApp.js:1512-1544 | valid exactly when required, a number, whole if asked, and within the inclusive bounds; a missing optional value is NaN and refused; the message is the first failing check's ('This field is required', 'Must be a valid number', 'Must be a whole number', 'Minimum value is n', 'Maximum value is n') |
| BarcodeApp.NumberBoundsInclusive | static/js/barcodeApp.js:1533-1541 | min and max themselves pass |
| BarcodeApp.ValidateUrl | static/js/barcodeApp.js:1552-1572 | optional by default; otherwise valid exactly when the URL pattern matches; 'URL is required' for a blank required value, 'Must be a valid URL' for a mismatch, empty when valid |
| BarcodeApp.ValidateEmail | static/js/barcodeApp.js:1580-1600 | required by default; otherwise valid exactly when the e-mail pattern matches; 'Email is required' for a blank required value, 'Must be a valid email address' for a mismatch, empty when valid |
| BarcodeApp.Check | static/js/barcodeApp.js:1661-1676 | an unknown rule type always passes |
| BarcodeApp.ValidateForm | static/js/barcodeApp.js:1652-1692 | the loop records each failing field's message; the form is valid exactly when every rule passes |
| BarcodeApp.RuleStep | static/js/barcodeApp.js:1679-1688 | one more rule adds its field's failure, if any |
| BarcodeApp.FormErrorsNameFailures | static/js/barcodeApp.js:1656-1689 | the errors name exactly the fields that fail a rule |
| BarcodeApp.FormErrorMessages | static/js/barcodeApp.js:1679-1681 | with distinct field names each failing field carries its own rule's message |
| BarcodeApp.ValidIffNoErrors | static/js/barcodeApp.js:1652-1692 | valid exactly when the errors object is empty |
| BarcodeApp.SequenceFormError | static/js/barcodeApp.js:508-516 | no error exactly when count is in 1..1000 and padding in 0..20, NaN passing both |
| BarcodeApp.ClientBoundsMatchServer | static/js/barcodeApp.js:508-516 | for numbers the page refuses exactly what generate_sequence refuses, with the same message |
| BarcodeApp.SequenceFormDefaults | static/js/barcodeApp.js:497-499 | the form's defaults pass |
| BarcodeApp.UnreadableCountPasses | static/js/barcodeApp.js:498-510 | a count that is not a number is NaN and is let through |
| BarcodeApp.ParseLimit | static/js/barcodeApp.js:150-158 | both parts are non-empty: a token or its default |
| BarcodeApp.ParseLimitOfServerForm | static/js/barcodeApp.js:155-157 | "N per FRAME, ..." reads back as N and FRAME |
| BarcodeApp.DailyLimitParses | static/js/barcodeApp.js:155-157 | the server's "N per day, M per hour" reads as N a day |
| BarcodeApp.AnonymousLimitParses | static/js/barcodeApp.js:155-157 | the visitor tier reads as 100 a day |
| BarcodeApp.MemberLimitParses | static/js/barcodeApp.js:155-157 | the member tier reads as 500 a day |
| BarcodeApp.PremiumLimitParses | static/js/barcodeApp.js:155-157 | the premium tier reads as 1000 a day |
| BarcodeApp.WithDownloadParam | static/js/barcodeApp.js:739 | the URL is kept as a prefix, with ?download=true when it has no query and &download=true otherwise |
| BarcodeApp.DownloadLinkForSavedImage | static/js/barcodeApp.js:811 | a saved image URL gets exactly ?download=true, which the server serves as an attachment |
| BarcodeApp.ShowResult | static/js/barcodeApp.js:734-749 | shown as saved exactly when id > 0, then from the image URL; otherwise from the inline image data |
| BarcodeApp.SavedBarcodeShownAsSaved | static/js/barcodeApp.js:721-749 | a barcode the server saved is shown as saved with its URL; a temporary one from its image data |
| BarcodeApp.SequenceDownloadHref | static/js/barcodeApp.js:936-945 | inline data first, then the URL with the download flag, then the barcode page |
| BarcodeApp.SequenceCsvLines | static/js/barcodeApp.js:640-643 | one line per barcode |
| BarcodeApp.ExportSequenceToCsv | static/js/barcodeApp.js:630-644 | nothing for an empty list; otherwise the prefix, the header and one newline-ended line per barcode |
| BarcodeApp.SequenceCsvSplits | static/js/barcodeApp.js:637-643 | with no newline in the fields the export splits back into the header and the lines |
| SequenceGenerator.Converted | static/js/sequence_generator.js:99-103 | start, count and pad_length become numbers (0 for NaN); other fields stay text |
| SequenceGenerator.BuildPayload | static/js/sequence_generator.js:96-104 | the loop builds the payload of the form's entries |
| SequenceGenerator.PayloadKeys | static/js/sequence_generator.js:97-104 | the payload has exactly the form's keys |
| SequenceGenerator.LastEntryWins | static/js/sequence_generator.js:97-104 | a key holds its last entry's value |
| SequenceGenerator.NumericKeysHoldNumbers | static/js/sequence_generator.js:99-100 | the numeric keys always hold numbers |
| SequenceGenerator.ValidateFormData | static/js/sequence_generator.js:162-173 | no message exactly when all checks pass; otherwise the first failing one in the order start, count, padding |
| SequenceGenerator.BoundsAgreeWithServer | static/js/sequence_generator.js:166-171 | count and padding bounds agree with generate_sequence |
| SequenceGenerator.UnreadableCountRefused | static/js/sequence_generator.js:100-168 | a count that is not a number becomes 0 and is refused |
| SequenceGenerator.GetCsrfToken | static/js/sequence_generator.js:703-717 | the loop returns the token of the cookie string |
| SequenceGenerator.TokenFromFirstMatch | static/js/sequence_generator.js:709-713 | the token comes from the first cookie that starts with the name |
| SequenceGenerator.NoTokenCookie | static/js/sequence_generator.js:715-716 | without such a cookie the token is empty |
| SequenceGenerator.CsrfTokenReadsBack | static/js/sequence_generator.js:703-713 | a token set as csrf_token=TOKEN is read back |
| SequenceGenerator.CsrfTokenBehindOther | static/js/sequence_generator.js:703-713 | also when it follows another cookie |
| SequenceGenerator.DoubleQuotes | static/js/sequence_generator.js:347 | doubling never shortens the text |
| SequenceGenerator.QuotesRoundTrip | static/js/sequence_generator.js:347 | reading a doubled field back (RFC 4180, section 2, rule 7) gives the original data |
| SequenceGenerator.NoQuotesUnchanged | static/js/sequence_generator.js:347 | text without quotes is unchanged |
| SequenceGenerator.ObjectsIn | static/js/sequence_generator.js:338 | the filter keeps at most as many entries |
| SequenceGenerator.ExportLinesAt | static/js/sequence_generator.js:340-349 | line i is the i-th kept barcode's line, numbered i |
| SequenceGenerator.WriteLines | static/js/sequence_generator.js:340-350 | the loop fails exactly when a kept barcode's data has no replace; otherwise it writes the header and one line per barcode |
| SequenceGenerator.ExportToCsv | static/js/sequence_generator.js:322-366 | an empty list exports nothing; a member goes to the server export; a visitor gets either the client CSV of the kept barcodes or the failure, and the failure exactly when some kept barcode's fields cannot be quoted |
| SequenceGenerator.NullsTakeNoIndex | static/js/sequence_generator.js:338-341 | a null entry takes no number: the first object is temp_0 |
| SequenceGenerator.DownloadAllBarcodes | static/js/sequence_generator.js:473-540 | nothing for an empty list; the client path exactly when some image URL is a data URI; otherwise the truthy ids to the member or the query endpoint |
| SequenceGenerator.IdsOfMembers | static/js/sequence_generator.js:493-495 | the ids sent are exactly the truthy ids |
| SequenceGenerator.IdQuerySplits | static/js/sequence_generator.js:536 | the query splits back into one id= parameter per id, in order |
| SequenceGenerator.SavedSequenceDownloadsItsIds | static/js/sequence_generator.js:493-537 | a saved sequence from the server is downloaded by exactly its ids |
| SequenceGenerator.TemporaryItemsMissTheTemporaryPath | static/js/sequence_generator.js:480-488 | the server's temporary items carry image_data, not a data-URI image_url, so the client path is never taken for them |
| SequenceGenerator.DownloadableIn | static/js/sequence_generator.js:547-549 | every kept entry has an image and data |
| SequenceGenerator.FetchUrl | static/js/sequence_generator.js:589-590 | the download flag is added exactly to a root-relative URL without a query |
| SequenceGenerator.TemporaryDownloadPlan | static/js/sequence_generator.js:547-611 | nothing to do exactly when no entry is kept; otherwise one ZIP entry per kept barcode, in order |
| SequenceGenerator.ZipFilenameNumber | static/js/sequence_generator.js:569 | a file name carries its position plus one |
| SequenceGenerator.ZipFilenamesDistinct | static/js/sequence_generator.js:569 | no two ZIP entries share a file name |
| SequenceGenerator.DataUriPayload | static/js/sequence_generator.js:574-576 | splitting the server's data URI on ',' gives the base64 payload (RFC 2397, section 3) |
| SequenceGenerator.TemporaryItemGoesInline | static/js/sequence_generator.js:571-577 | a temporary item goes into the ZIP inline under its numbered name |
| BulkSequence.IncreasingBelow | static/js/bulk-sequence-generator.js:8-9 | distinct increasing ids below the counter bound how many items there can be |
| BulkSequence.RemoveFirst | static/js/bulk-sequence-generator.js:175-177 | removing an id present shortens the list by one; an absent id changes nothing |
| BulkSequence.SpliceIncreasing | static/js/bulk-sequence-generator.js:177 | removal keeps the ids increasing and adds none |
| BulkSequence.SequenceSlots.constructor | static/js/bulk-sequence-generator.js:8-9 | the counter starts at 1 with no items |
| BulkSequence.SequenceSlots.ItemsWithinCounter | static/js/bulk-sequence-generator.js:72-77 | there are always fewer items than the counter's value |
| BulkSequence.SequenceSlots.AddNewSequence | static/js/bulk-sequence-generator.js:71-171 | refused once the counter reaches 10; otherwise a fresh id, never issued before, is appended and the counter grows |
| BulkSequence.SequenceSlots.RemoveSequence | static/js/bulk-sequence-generator.js:174-185 | the item leaves, the counter stays, and the button is enabled below ten items |
| BulkSequence.SequenceSlots.AddNewSequenceBounded | static/js/bulk-sequence-generator.js:72-77 | the evident intent: refused exactly when ten items are on the page; ids still fresh |
| BulkSequence.TenthSequenceRefused | static/js/bulk-sequence-generator.js:72-77 | as written, the tenth addition is refused with nine items on the page |
| BulkSequence.RemovalFreesNoSlot | static/js/bulk-sequence-generator.js:174-185 | as written, removing every item frees no place |
| BulkSequence.TenthSequenceAcceptedWhenBounded | static/js/bulk-sequence-generator.js:72-77 | bounded by items, the tenth is accepted and the eleventh refused |
| BulkSequence.RangeBodyOf | static/js/bulk-sequence-generator.js:214 | a-b]rest is a range body whose bounds are the values of a and b |
| BulkSequence.RangePatternRecognised | static/js/bulk-sequence-generator.js:214-215 | every PREFIX[START-END]SUFFIX without line breaks matches |
| BulkSequence.NoBracketNoRange | static/js/bulk-sequence-generator.js:214-215 | a text without '[' never matches |
| BulkSequence.LastWhere | static/js/bulk-sequence-generator.js:209-223 | the last index satisfying p, none exactly when no element does |
| BulkSequence.LastRange | static/js/bulk-sequence-generator.js:209-223 | a range is found exactly when some item's prefix field holds one, and the last such item wins, its prefix sent verbatim |
| BulkSequence.LastRangeStep | static/js/bulk-sequence-generator.js:216-219 | one more item holds the last range or leaves it |
| BulkSequence.DetectRange | static/js/bulk-sequence-generator.js:205-223 | the loop's flag, range string and type are those of the last range item, or the defaults |
| BulkSequence.ConfigReadsNumbers | static/js/bulk-sequence-generator.js:288-289 | a typed number is sent as typed, except 0: a start of 0 becomes 1 and a count of 0 becomes 10 |
| BulkSequence.BlankItemDefaults | static/js/bulk-sequence-generator.js:285-292 | blank fields take the defaults |
| BulkSequence.TotalBound | static/js/bulk-sequence-generator.js:298 | with every count at most m the total is at most m per configuration |
| BulkSequence.ConfigsAt | static/js/bulk-sequence-generator.js:283-295 | configuration i is item i's |
| BulkSequence.BuildConfigs | static/js/bulk-sequence-generator.js:283-295 | the loop builds one configuration per item in order |
| BulkSequence.GenerateAllSequences | static/js/bulk-sequence-generator.js:188-310 | none exactly for no items; a range request when a range is found; otherwise refused exactly when the total exceeds 5000 (and then the total is reported), else the configurations with the login flag |
| BulkSequence.TenOfFiveHundredFit | static/js/bulk-sequence-generator.js:298-299 | ten configurations of at most 500 are never refused |
| BulkSequence.RangeEnd | static/js/bulk-sequence-generator.js:383-387 | the shown range spans count numbers, downwards for a negative direction |
| BulkSequence.DisplayedRangeIsPattern | static/js/bulk-sequence-generator.js:383-387 | a displayed range of non-negative numbers is itself a range the prefix field accepts, reading back as its bounds |
| BulkSequence.NatRangeIsPattern | static/js/bulk-sequence-generator.js:384-386 | [x-y] for naturals matches and reads back as x and y |
| BulkSequence.RowEndsWithId | static/js/bulk-sequence-generator.js:479 | every CSV line ends with its barcode's id |
| BulkSequence.SequenceRows | static/js/bulk-sequence-generator.js:478-480 | one row per barcode of a sequence, under its number |
| BulkSequence.AllRows | static/js/bulk-sequence-generator.js:477-481 | one row per barcode across all sequences |
| BulkSequence.AllRowsAt | static/js/bulk-sequence-generator.js:477-481 | barcode j of sequence k is the row after all earlier ones, numbered k + 1 |
| BulkSequence.ExportAllToCsv | static/js/bulk-sequence-generator.js:473-481 | the prefix, the header and one newline-ended line per barcode, sequence by sequence |
| BulkSequence.AppendSequenceRows | static/js/bulk-sequence-generator.js:478-480 | the inner loop appends the rows of one sequence |
| BulkSequence.CsvAppendRow | static/js/bulk-sequence-generator.js:479 | one more row appends its line and a newline |
| BulkSequence.CollectIds | static/js/bulk-sequence-generator.js:495-500 | one id per barcode |
| BulkSequence.IdsFollowRows | static/js/bulk-sequence-generator.js:495-500 | the ZIP ids come in the order of the CSV rows |
| BulkSequence.CsvLineNamesZipId | static/js/bulk-sequence-generator.js:479-498 | CSV line i ends with the id the ZIP request lists at place i |
| BulkSequence.DownloadAllBarcodes | static/js/bulk-sequence-generator.js:493-520 | refused exactly when there is no barcode; otherwise all ids in order to the ZIP endpoint |
| AuthHelper.StatusStyleIff | static/js/auth-helper.js:29-41 | success and error each get their own colours; every other type gets the info colours |
| AuthHelper.StatusBox.constructor | static/js/auth-helper.js:25-26 | the status line as found on the page |
| AuthHelper.StatusBox.Show | static/js/auth-helper.js:28-43 | the classes are reset, the type's colours added, the text set and the line shown |
| AuthHelper.StatusBox.Expire | static/js/auth-helper.js:46-48 | after five seconds the line is hidden and the text kept |
| AuthHelper.PhoneAcceptedIff | static/js/auth-helper.js:179-195 | a number is sent exactly when the trimmed value starts with '+' or a digit |
| AuthHelper.EmptyPhoneIff | static/js/auth-helper.js:179-183 | the empty alert appears exactly for white space only |
| AuthHelper.AcceptedNumberShape | static/js/auth-helper.js:187-191 | the number sent starts with '+', followed by the characters typed without their own '+' |
| AuthHelper.NormalisePhoneIdempotent | static/js/auth-helper.js:179-195 | cleaning a number already sent changes nothing |
| AuthHelper.InternationalStable | static/js/auth-helper.js:187 | a trimmed number with a leading '+' is sent as it is |
| AuthHelper.SendCodeIff | static/js/auth-helper.js:167-207 | an SMS is requested exactly when Firebase is loaded, the field exists, the number is accepted and the key is usable, then for the cleaned number |
| AuthHelper.RefusedStaysOnPhoneTab | static/js/auth-helper.js:179-195 | a refused number raises one of its two alerts and keeps the phone tab |
| AuthHelper.KnownCodeDecides | static/js/auth-helper.js:265-276 | a named error code decides the text whatever the message says |
| AuthHelper.KnownTextsDistinct | static/js/auth-helper.js:265-276 | different codes give different texts |
| AuthHelper.SmsFallbackIff | static/js/auth-helper.js:263-277 | the generic text is used exactly for unnamed codes without api-key-not-valid in the message, and it carries the whole message |
| AuthHelper.KnownTextNotGeneric | static/js/auth-helper.js:265-276 | no fixed text starts like the generic one |
| AuthHelper.ConfirmIff | static/js/auth-helper.js:309-326 | confirmation is attempted exactly with a pending result and a non-blank code, and with the trimmed code |
| AuthHelper.RefusalsAreReported | static/js/auth-helper.js:310-323 | a refusal raises an alert, and only a confirmation shows the verifying status |
| AuthHelper.ActivatedExactly | static/js/auth-helper.js:491-498 | after activation an element carries active exactly when it is present and of that type; nothing else changes |
| AuthHelper.ActivatedIdempotent | static/js/auth-helper.js:487-498 | activating twice is activating once |
| AuthHelper.ActivatedLastWins | static/js/auth-helper.js:487-498 | only the last activation matters |
| AuthHelper.AtMostOneActiveTab | static/js/auth-helper.js:416-431 | with one entry per type at most one tab is active |
| AuthHelper.AuthTabs.constructor | static/js/auth-helper.js:416-431 | the strip holds the email, phone and password entries |
| AuthHelper.AuthTabs.SetActiveAuthTab | static/js/auth-helper.js:487-498 | the clearing loop then the marking leave exactly the chosen type's present elements active |
| AuthHelper.InitialTabChoice | static/js/auth-helper.js:360-411 | the first tab is never the phone tab, and it is the password tab exactly when Firebase is not ready |
| LabelTemplates.FindById | static/js/label-templates.js:17 | find returns a template with the id, none exactly when no template has it |
| LabelTemplates.TemplateIdsDistinct | static/js/label-templates.js:2-13 | no two templates share an id |
| LabelTemplates.GetTemplateByIdKnown | static/js/label-templates.js:16-18 | a template's own id gives that template back |
| LabelTemplates.GetTemplateByIdResult | static/js/label-templates.js:16-18 | the result is always a template: the one with the id, or the default |
| JsValues.Or | static/js/sequence_generator.js:342-344 | `v or fallback` gives the fallback for exactly the falsy values (undefined, null, '', 0, false), and otherwise the value's text, which is then non-empty |
| JsValues.OrFallsBack | static/js/bulk-sequence-generator.js:479 | the result equals the fallback exactly when the value is falsy or its text is the fallback; an empty result needs an empty fallback and a falsy value |
| Text.Trim | static/js/auth-helper.js:179 | trim is empty exactly for white space only, and otherwise starts and ends with a non-space |
| Text.TrimIdempotent | static/js/auth-helper.js:319 | trimming twice is trimming once |
| Text.Split | static/js/batch-processor.js:348 | split never returns an empty list and no piece holds the separator |
| Text.JoinSplit | static/js/batch-processor.js:348 | joining the pieces gives back the text |
| Text.SplitJoin | static/js/batch-processor.js:360 | splitting a join of separator-free pieces gives back the pieces |
| Text.SplitLinesNoCarriageReturn | static/js/batch-processor.js:339 | without carriage returns the line split is the split on line feeds |
| Text.CrlfLinesRoundTrip | static/js/batch-processor.js:339 | lines joined with Windows line endings split back into the same lines |
| Text.TerminatedLines | static/js/barcodeApp.js:638-643 | newline-terminated lines split back into the lines and a final empty piece |
| Text.Lower | app.py:224 | ASCII lower-casing: each character maps through A-Z to a-z, all others unchanged |
| Text.NatToDecimalValue | app.py:265 | the decimal digits of n have the value n |
| Text.ZFill | app.py:263 | zfill pads to the width and leaves a longer string alone |
| Text.PyParseIntRoundTrip | app.py:204 | int(str(i)) is i |
| Text.PyParseIntZFill | app.py:263 | int(str(i).zfill(w)) is i: padding keeps the value |
| Text.ParseIntRoundTrip | static/js/sequence_generator.js:100 | parseInt(String(i)) is i |
| Text.ParseIntIgnoresTail | static/js/bulk-sequence-generator.js:288 | parseInt stops at the first character that is not a digit |

## Left out

- The DOM, event listeners, `innerHTML`, timers and redirects. Where a
  script writes to the page, the model returns or stores what it would
  show (a message, a URL, a class list).
- The network (`fetch`), Firebase, reCAPTCHA, `FileReader`, `alert`,
  `prompt` and `localStorage`. Their answers are parameters: per-slice
  outcomes, a render oracle, whether Firebase is loaded, the API key.
- `encodeURI` of the CSV data URIs. The exports are modelled as the text
  before encoding.
- JavaScript numbers as floating point. Numbers are integers, and the
  progress percentage is computed on exact rationals.
- Strings as UTF-16: one character stands for one code unit. `Number()`
  and the URL and e-mail regular expressions are oracle parameters.
- `generate_barcode_image`: an oracle from data and type to PNG bytes or
  an error text. Its `is_dynamic` and `unique_id` arguments do not reach
  the model's renderer.
- The ZIP fallback without JSZip, and the concurrent fetches inside
  `downloadTemporaryBarcodes`. The planned entries are modelled, not the
  race between them.
- Metadata and encryption of saved records, `total_generated`, and the
  rollback of a failing bulk commit. These are database details that
  decide no response field.
- JSON fields of other types than the model's values. Template ids that
  are not strings.
- Email sign-in, `handleEmailSignInLink`, the form submit handlers and
  `addFirebaseErrorHandler`: Firebase and form-submission glue.
- Ids the server hands out are what the store says. Concurrent requests
  are not modelled.
- AuthHelper.AuthTabs.SetActiveAuthTab: requires a tab type the strip
  holds. The source would throw a TypeError on an unknown type, and the
  page never passes one.
- BarcodeApp.ValidateNumber: `Number()` of a non-empty text is an oracle,
  so "Must be a valid number" and the later messages are stated relative
  to what that oracle returns.
- BarcodeApp.ValidateText: an option passed explicitly as `null` is not
  modelled. JavaScript destructuring defaults apply only to `undefined`,
  so such a `null` would reach the comparisons; the model only has
  absent options, which take their defaults. The same holds for
  BarcodeApp.ValidateNumber, BarcodeApp.ValidateUrl and
  BarcodeApp.ValidateEmail.
- AppServer.PyIntOf: Python's `int()` also accepts underscores between
  digits ("1_000") and non-ASCII decimal digits. The model accepts ASCII
  digits only, so it refuses those texts and takes the fallback.
- Text.Lower: lowers ASCII letters only. Python's `str.lower` and
  JavaScript's `toLowerCase` also map other letters, some of them to
  more than one character (U+0130), and map U+212A (Kelvin sign) to 'k'.
  A header or save flag spelt with such letters can compare differently.
- BatchProcessor.Percentage: rounds the exact ratio. It does not model the
  floating-point error of `current / total * 100`.
- Text.ParseInt: does not model the precision loss past 2^53.
- AppServer.GenerateBulkSequence: does not model a database error during
  a batch commit. That error rolls back and answers 500.
- AppServer.GenerateSequence, AppServer.GenerateBarcode,
  AppServer.GenerateQrcode, AppServer.GetBarcodeImage: the store never
  fails. In the source a failing `db.session.commit()` or
  `Barcode.query.get` falls to the handler's `except Exception` and answers
  500 with the error text (`fixed_function.py:181-211`, `app.py:354-384`,
  `app.py:490-537`, `app.py:606-653`, `app.py:664-704`). The model has no
  such answer.
- BarcodeApp.PositiveId: JavaScript's `data.id > 0` also holds for a
  numeric string such as "5", which the predicate refuses. The server
  always sends a number or null as the id, and `BarcodeApp.ClientReply`
  only builds such ids, so no reply the model can produce is affected.

## Findings

| source | as written | input that shows it | evidently intended | confidence | as-written member | corrected member |
|---|---|---|---|---|---|---|
| static/js/bulk-sequence-generator.js:72-77 | `addNewSequence` refuses once the id counter reaches 10, and removal never lowers it, so at most nine sequences can ever be added on one page | on a fresh page, add nine sequences, then try a tenth (or remove all nine first) | at most ten sequences on the page at once, with removal freeing a place and ids never reused | high (not executed) | BulkSequence.TenthSequenceRefused | BulkSequence.SequenceSlots.AddNewSequenceBounded |
