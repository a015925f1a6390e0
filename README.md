# Pdf2Mine pipeline core in Dafny

Pdf2Mine downloads payment-voucher PDFs from a Google Drive folder and asks
Gemini to turn each PDF into JSON. It then merges every JSON document into
one spreadsheet sheet named `combined`. This project models the part of
`pipeline.py` that does not talk to the outside world:

- `extract_folder_id`: the Drive folder id out of a folder URL, or the
  trimmed argument itself (module `FolderId`).
- `EXCEL_COLUMNS`: the 23 column headings (`VoucherRows.Columns`).
- `build_rows_from_parsed`: one parsed document of unknown shape to
  fixed-width rows. It finds the voucher root and its sections through
  Python `or` fallback chains. It resolves the project number and title and
  the payment fields. Then it projects one row for a document without
  items, or one row per item. `VoucherRows` holds the reference functions.
  `RowBuilder` holds the source's step-by-step procedure (variables
  reassigned one after another, append loops), and each method there is
  proved equal to its reference function.
- `aggregate_to_excel`, without the file I/O: the fold over the sorted file
  listing. Each file's text is loaded, or kept as text. Its rows are built,
  each cell is sanitised, and the rows are appended and counted. A file
  whose normalising raises adds nothing. The column-width pass follows
  (module `Workbook`).

JSON values are the datatype `PyJson.Json`. A dict is an ordered list of
(key, value) pairs. Python's truthiness, `dict.get`, `in`, iteration and the
`a or b or c` chain are defined there. `FirstTruthy` gives the first truthy
operand, otherwise the last operand. An operand that raises matters only
when the chain reaches it. Exceptions are the `Fail` case of
`Wrappers.Result` (`AttributeError` or `TypeError`).

`json.loads`, `json.dumps` and `str` of a number are parameters of type
`string -> Option<Json>`, `Json -> string` and `real -> string`. The file
listing is a sequence of `JsonFile(stem, text)`. Its `text` is `None` when
reading the file raised.

The lemmas about the fold (`Aggregate`, `FileRows` and their properties)
are stated for any normaliser `(Json, string) -> Result<seq<Row>>`.
`BuildRowsWith(parse)` instantiates them with `build_rows_from_parsed`,
and `BuildRowsFixedWidth` proves that it always produces fixed-width rows.

The model follows the code of `pipeline.py` as written:

- The sheet has 23 columns and no date column.
- This code keeps no ingestion ledger and does not merge into an existing
  workbook.
- An item that names itself under `item_description` gets an empty
  Description cell, because that key is not among the five name keys.
- A chain whose operands are all falsy yields its last operand, not a fixed
  default. So an empty `{}` section stays `{}`, and a missing section with
  a `[]` default stays `[]`.

## Model

| member | source | states |
|---|---|---|
| FolderId.FindMatch | pipeline.py:84 | the leftmost position of `folders/` followed by an id character, or no such position |
| FolderId.Strip | pipeline.py:88 | the result is a slice of the input with only whitespace cut from either end, and neither end of the result is whitespace |
| FolderId.ExtractFolderId | pipeline.py:82-88 | with a match: the longest run of id characters after `folders/`, taken from the input in place; without one: the stripped input |
| FolderId.ExtractFolderIdIdempotent | pipeline.py:82-88 | extracting from an extracted id gives that id again |
| PyJson.Lookup | pipeline.py:302 | `key in d` exactly when the lookup finds a value, and the value is stored under that key |
| PyJson.Get | pipeline.py:258 | `.get` raises AttributeError exactly on a non-dict, and otherwise gives the stored value or the default |
| PyJson.Iterate | pipeline.py:303 | iterating a list gives its elements, a dict its keys and a string its characters; anything else raises TypeError |
| PyJson.FalsyValues | pipeline.py:234 | `Truthy` is false exactly for `None`, `False`, `0`, `''`, `[]` and `{}`, the values Python's `not` accepts |
| PyJson.FirstTruthy | pipeline.py:250-254 | `a or b or c` gives one of its operands: the first truthy one, or else the last one; an exception propagates only from an operand that was reached |
| PyJson.FirstTruthyAt | pipeline.py:257-264 | the chain stops exactly at the first operand that raises or is truthy, or at the last operand |
| PyJson.Pick | pipeline.py:258-264 | a chain of lookups in one dict that comes out falsy has the value of its last lookup |
| PyJson.PickFalsy | pipeline.py:258-264 | a chain of lookups is falsy exactly when every lookup in it is falsy |
| PyJson.PickSource | pipeline.py:258-264 | a chain of lookups gives its default or a value stored in the dict under one of its keys |
| PyJson.PickPrefix | pipeline.py:258-264 | keys added after a chain that already found a truthy value change nothing |
| PyJson.PickIsFirstTruthy | pipeline.py:300-301 | a chain of lookups in one dict is the fallback chain over those lookups |
| PyJson.PickAt | pipeline.py:362-383 | a chain of lookups settles on the first key whose value is truthy, or on the last key |
| PyJson.Chase | pipeline.py:267-290 | a chain of one- and two-level lookups raises only AttributeError, and when it comes out falsy it is its last operand |
| PyJson.ChaseSource | pipeline.py:267-290 | a chain of paths gives the value or the exception of one of its operands |
| PyJson.ChaseIsFirstTruthy | pipeline.py:267-277 | a chain of one- and two-level lookups is the fallback chain over them, including the exception of an inner `.get` on a non-dict |
| VoucherRows.Preview | pipeline.py:242 | newlines become spaces and the text is cut to 300 characters |
| VoucherRows.ParseFailedRow | pipeline.py:242-243 | 23 cells: the source name, `PARSE_FAILED: ` plus the preview in the Remarks column, and empty strings everywhere else |
| VoucherRows.VoucherRoot | pipeline.py:250-254 | `payment_voucher` when truthy, else `PaymentVoucher` when truthy, else the document itself |
| VoucherRows.FirstTruthyOfLookups | pipeline.py:280 | the unwrapping chain `items or BillsClaimed or items_claimed or []` is the first truthy value among those keys, or `[]` |
| VoucherRows.UnwrapItems | pipeline.py:279-280 | a dict found where the item list was expected is replaced by its first truthy nested list; any other value is kept |
| VoucherRows.ResolveSections | pipeline.py:249-297 | the sections are read from the voucher root, and a root that is not a dict raises AttributeError; any exception is AttributeError |
| VoucherRows.ResolveSectionsSucceeds | pipeline.py:250-297 | resolving raises exactly when the root is not a dict, or the item chain (lines 270-272, 275) or the amount chain (lines 287-288) looks up through a non-dict |
| VoucherRows.ProjectHeading | pipeline.py:300-301 | the project number and title of a dict project section; a non-dict raises AttributeError |
| VoucherRows.ScanProjectRows | pipeline.py:303-307 | the scan of the project's `items` raises exactly when some entry is not a dict |
| VoucherRows.ProjectNoAndTitle | pipeline.py:300-307 | a non-dict project section raises AttributeError; the `items` rows are consulted only when no number was found and `items` is present; failures are AttributeError or TypeError |
| VoucherRows.TickedKeys | pipeline.py:318 | a key is kept exactly when its value in the tick-box map is truthy |
| VoucherRows.TickedKeysAppend | pipeline.py:318 | the kept keys of a map are those of its first part followed by those of the rest, so the map's order is kept |
| VoucherRows.TickedKeysOne | pipeline.py:318 | one pair contributes its key exactly when its value is truthy |
| VoucherRows.JoinAppend | pipeline.py:318 | `sep.join` of two non-empty lists is the two joins with one separator between them |
| VoucherRows.JoinTickedAppend | pipeline.py:318 | the joined ticked keys of a map are those of its parts joined by `", "`, and a part with no ticked key adds nothing |
| VoucherRows.AdminSection | pipeline.py:314 | the admin section is `administrative_approvals` when that is truthy, and otherwise `AccountingClassification` |
| VoucherRows.CategorizationSection | pipeline.py:315 | the categorisation is the value stored under `categorization_of_expense`, or `{}` when the key is absent |
| VoucherRows.PaymentAndHead | pipeline.py:310-327 | succeeds exactly when the admin section is a dict and a truthy categorisation is a dict; each field then has the precedence: categorisation `selected` wrapper, then ticked admin keys, then the project's own field |
| VoucherRows.NoItemsRow | pipeline.py:329-356 | the single row of an item-less document: 23 cells, columns 7, 8, 9 and 11 empty, Net Amount equal to Net Amount Payable (figure), the project and payment fields in place; it raises exactly when a section is not a dict |
| VoucherRows.ItemRow | pipeline.py:359-384 | the row of one item: columns 7 to 11 come from the item, every other column is the document's shared cell; it raises exactly when the item or a section is not a dict |
| VoucherRows.ItemCell | pipeline.py:368-372 | an item's own cell is `''` or a value stored in the item |
| VoucherRows.ItemRows | pipeline.py:358-385 | one row per item, in item order, each the row of that item; it raises exactly when some item row raises |
| VoucherRows.SharedOf | pipeline.py:300-327 | the shared fields of a document's rows carry its source name and its sections |
| VoucherRows.RowsOf | pipeline.py:329-385 | a falsy item section gives exactly the single item-less row; a truthy one gives as many rows as iterating it yields; every row is 23 wide and starts with the source name |
| VoucherRows.DocumentRows | pipeline.py:249-387 | every row of a dict document is 23 wide and names the source in column 0 |
| VoucherRows.Document | pipeline.py:237-240 | a string is loaded as JSON text and may fail to parse; anything else is the document itself |
| VoucherRows.BuildRows | pipeline.py:230-387 | a falsy input gives no rows; a value that is neither a string nor a dict gives no rows; unparsable text gives the single PARSE_FAILED row; text that parses to a non-dict gives no rows; every row is 23 wide and names the source in column 0 |
| VoucherRows.BuildRowsFixedWidth | pipeline.py:230-387 | `build_rows_from_parsed` never returns a row of another width or another source name, for any input |
| RowBuilder.ResolveProjectNoAndTitle | pipeline.py:300-307 | the for loop that overwrites the number and title row by row computes `ProjectNoAndTitle` |
| RowBuilder.ResolvePaymentAndHead | pipeline.py:310-327 | the successive reassignments of the two fields compute `PaymentAndHead` |
| RowBuilder.AppendItemRows | pipeline.py:358-385 | the per-item append loop computes `ItemRows` |
| RowBuilder.AppendDocumentRows | pipeline.py:249-387 | the procedure for a dict document computes `DocumentRows` |
| RowBuilder.BuildRowsFromParsed | pipeline.py:230-387 | `build_rows_from_parsed` computes `BuildRows` |
| VoucherProperties.GeneralDetailsPrecedence | pipeline.py:257-264 | a truthy `general_details` is the general section; `HeaderInfo` is used only when the five keys before it are all falsy |
| VoucherProperties.NetAmountZeroIsBlank | pipeline.py:371 | an item whose only amount is `net_amount: 0` gets an empty Net Amount cell |
| VoucherProperties.UnlistedNameAndFallbackAmount | pipeline.py:370-371 | an item named only under a key outside the five name keys gets an empty Description cell; an amount only under `net_amount_inr` shows in Net Amount |
| VoucherProperties.LastLabelled | pipeline.py:303-307 | the position of the last dict entry labelled with a tag, with no later entry carrying that label |
| VoucherProperties.ScanProjectRowsLastWins | pipeline.py:302-307 | the project number and title are the details of the last `Project No` and the last `Project Title` rows, or the values read before when there is none |
| VoucherProperties.ItemRowsAgreeOutsideItemCells | pipeline.py:359-385 | all rows of one document agree on every column outside 7 to 11 |
| VoucherProperties.NoItemsCellAgreesWithShared | pipeline.py:331-384 | for the same resolved sections, each candidate list of the item-less row is a prefix of the per-item list, so a truthy item-less cell equals the cell item rows would have; columns 0, 17, 18, 21 and 22 are always equal |
| VoucherProperties.GeneralCellsAgree | pipeline.py:333-367 | the same agreement for columns 1 to 6, read from the general section |
| VoucherProperties.AmountCellsAgree | pipeline.py:343-377 | the same agreement for columns 12 to 16, read from the amount section |
| VoucherProperties.PayableCellsAgree | pipeline.py:346-377 | the same agreement for columns 15 and 16, the net amount payable in figures and in words |
| VoucherProperties.PickEmpty | pipeline.py:257-264 | every chain of lookups in an empty dict yields the default |
| VoucherProperties.ChaseEmpty | pipeline.py:267-290 | every chain of paths into an empty dict yields the default |
| VoucherProperties.EmptyDocumentSections | pipeline.py:249-297 | an empty document is its own root, general, amount and project section, and has the item section `[]` |
| VoucherProperties.EmptyDocumentShared | pipeline.py:300-327 | an empty document's project number, title, source of payment and head of expense are all empty strings |
| VoucherProperties.EmptyDocumentRow | pipeline.py:329-356 | the item-less row of an empty document is empty after the source name |
| VoucherProperties.ItemlessDocumentRows | pipeline.py:329-356 | a dict document whose item section is falsy gives exactly one row, its item-less row |
| VoucherProperties.RowsOfTruthy | pipeline.py:358-385 | a truthy item section gives the rows of the items it iterates to, one per item in order; a section that cannot be iterated raises TypeError |
| VoucherProperties.SharedOfFields | pipeline.py:300-327 | the project number and title, source of payment and head of expense of a document's rows are the resolved pairs; the rows raise exactly when resolving either pair raises |
| VoucherProperties.ItemizedDocumentRows | pipeline.py:249-387 | a dict document with a truthy item section gives exactly the item rows of its items, one per item in order |
| VoucherProperties.EmptyDocumentRows | pipeline.py:249-356 | an empty dict read as a voucher gives exactly one row, empty after the source name |
| VoucherProperties.EmptyObjectStringVsDict | pipeline.py:234-247 | the dict `{}` is falsy and gives no rows, but text that parses to `{}` gives one blank row |
| Workbook.HeaderRow | pipeline.py:52-76 | the first row holds the 23 headings in order, all scalars |
| Workbook.SanitizeCell | pipeline.py:420-436 | a scalar is kept; a list, or a dict without `selected`, becomes its JSON text; a dict with `selected` becomes the value stored under it |
| Workbook.SanitizeRow | pipeline.py:419-436 | the row keeps its length and each cell is sanitised in place |
| Workbook.SanitizeCellSettles | pipeline.py:420-436 | a sanitised cell is a scalar unless a `selected` wrapper held a list or a dict; sanitising a scalar again changes nothing |
| Workbook.SanitizeRowProperties | pipeline.py:419-437 | a row without `selected` wrappers is appendable once sanitised; sanitising an appendable sanitised row is the identity |
| Workbook.FirstRefused | pipeline.py:417-439 | the append loop stops at the first row whose sanitised form the sheet refuses, and every earlier row was accepted |
| Workbook.AppendedRows | pipeline.py:417-438 | the rows a batch adds are the sanitised rows before the first refused one, all appendable |
| Workbook.FileRows | pipeline.py:409-440 | an unreadable file or a raising normaliser adds nothing; otherwise the file adds its appended rows |
| Workbook.UnparsableFileRow | pipeline.py:410-414 | a file whose non-empty text is not JSON is kept as text and adds exactly the single `PARSE_FAILED` row |
| Workbook.AggregateAppendable | pipeline.py:405-440 | whatever the normaliser returns, every data row the sheet receives holds only scalars |
| Workbook.AggregateSplit | pipeline.py:405-440 | the rows of a listing are the rows of any prefix followed by the rows of the rest |
| Workbook.AggregateStep | pipeline.py:405-440 | one more file adds its own rows at the end |
| Workbook.FailingFileContributesNothing | pipeline.py:439-440 | a file that cannot be read or whose normaliser raises adds no rows and does not stop the files after it |
| Workbook.FileRowsWellFormed | pipeline.py:416-437 | with a fixed-width normaliser, every row a file adds is 23 wide, all scalars, and names the file |
| Workbook.AggregateRowsWellFormed | pipeline.py:404-440 | with a fixed-width normaliser, every data row is 23 wide, all scalars, and names one of the files |
| Workbook.SheetRowsWellFormed | pipeline.py:404-440 | every data row of the sheet is 23 wide, all scalars, and names one of the files |
| Workbook.MaxCellLength | pipeline.py:444-450 | no truthy cell of the column is longer than the result, and the result is 0 or the length of some cell |
| Workbook.ClampWidth | pipeline.py:451 | the width is between 10 and 50, and it is the padded length when that lies between them |
| Workbook.ClampWidthMonotone | pipeline.py:451 | a longer cell never makes a column narrower |
| Workbook.Widths | pipeline.py:443-451 | one width per column, each the clamp of that column's longest cell |
| Workbook.HeadingFits | pipeline.py:443-451 | every column is at least as wide as its padded heading, up to 50 |
| Workbook.TextCellFits | pipeline.py:446-451 | a non-empty string cell makes its column at least as wide as the padded string, up to 50 |
| Workbook.ColumnWidths | pipeline.py:443-451 | the nested width loop computes `Widths` |
| Workbook.SanitizeCells | pipeline.py:419-436 | the cell loop computes `SanitizeRow` |
| Workbook.AppendBatch | pipeline.py:417-438 | the sheet gains exactly the appended rows of the batch, and the count equals the sheet's data rows |
| Workbook.AppendFile | pipeline.py:405-440 | one file extends the sheet by exactly its `FileRows`, and the count stays equal to the data rows |
| Workbook.AppendFiles | pipeline.py:404-440 | the loop over the listing yields the heading row followed by every file's rows in order, and the count of data rows |
| Workbook.AggregateToExcel | pipeline.py:390-454 | an empty listing saves nothing; otherwise the sheet is the headings followed by every file's rows, the count is the number of data rows, and the widths are computed from the final sheet |

## Left out

- Downloading from Google Drive, the Gemini extraction functions, `main` and the command-line arguments are not part of this model: they are network I/O and process setup.
- File I/O is not modelled. Globbing and sorting `*.json` are an input: the listing arrives already sorted. A file whose read raises becomes `text == None`. Saving the workbook becomes `saved`, and the progress messages are dropped.
- JSON text syntax is not modelled: `json.loads` and `json.dumps` are parameters.
- Workbook.CellText: how a number is written by `str` is a parameter `render`, and JSON integers and floats are both `real`, so `50` and `50.0` are not told apart.
- Workbook.SanitizeCell: the `str(v)` fallback after a failing `json.dumps` is not modelled, because `json.dumps` never raises on a value `json.loads` produced.
- Workbook.Appendable: the sheet is modelled as refusing only list and dict cells. openpyxl also refuses strings with control characters, and that case is not modelled.
- Workbook.AppendBatch: a refused row is modelled as adding nothing. openpyxl actually leaves the cells before the refused one in an unfinished row, which the next append overwrites; that residue is not modelled.
- The 32,767-character cell limit of the spreadsheet format and the column letters of openpyxl are not modelled.
- Numbers are opaque reals, and only their truthiness is used. Infinity and NaN are not modelled.
- A dict with duplicate keys is not modelled: lookups take the first pair, which is the dict lookup for the distinct keys `json.loads` produces.
- FolderId.IsSpace: Python's `str.strip()` whitespace is written out as a fixed set of characters. Its agreement with the Unicode database is not proved.
