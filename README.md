# Factory entry system — a Dafny model of its core

The factory entry system is a small Next.js application. Warehouse staff use
it to record receipts, issuances and production runs, and to look at the
raw-material inventory. This project models its core in Dafny and proves
properties of that model:

- **Product-list upload** (`POST /api/admin/update-products`). The request
  checks come in a fixed order: method, fields, sheet, column reference,
  form type. An A1-style column name or a `parseInt` number is resolved to
  an index into each row array, as the spreadsheet library returns the
  rows. The rows are scanned for the trimmed, non-blank cells at that
  index. The list the form type maps to is then overwritten.
  Files: `product_upload.dfy`, `columns.dfy`, `parse_int.dfy`,
  `sheet.dfy`.
- **Product-list lookup** (`GET /api/products?type=…`). Each form type maps
  to one of two stored lists. An unknown type, or a list not uploaded yet,
  gets the empty list. File: `product_lookup.dfy`.
- **Settings endpoint** (`/api/settings`). A GET finds nothing stored on
  first use, so it writes and returns a default. A POST overwrites the
  stored endpoint when `endpoint` is a string. File: `settings_api.dfy`.
- **Inventory endpoint** (`/api/rm-inventory`). A POST of an array replaces
  the stored snapshot and stamps it with the request time. A GET returns the
  snapshot, or an empty default before the first upload. File:
  `inventory_api.dfy`.
- **Inventory page** (`pages/rm-inventory.tsx`). The category drop-down
  lists the sentinel first, then the distinct material groups in sorted
  order. Four filters select the rows shown. The page state is updated by
  the fetch and by the filter controls. File: `inventory_view.dfy`.
- **Entry form** (`components/EntryForm.tsx`). It holds the list of items
  with add, remove and update. Submit checks the form in order (user, date,
  then each item's product and quantity) and resets the form when every
  check passes. File: `entry_form.dfy`.
- **Item row** (`components/ProductSection.tsx`). The product drop-down has
  a case-insensitive search. The quantity box shows a warning, decided by
  the pattern `/^-?\d*\.?\d*$/`. File: `product_section.dfy`.

Supporting modules:

- `text.dfy`: the JavaScript string operations used here. These are
  `trim`, `includes`, ASCII case mapping, the default `sort` order and
  decimal numerals.
- `seqs.dfy`: the filters over sequences.
- `json.dfy`: parsed request bodies.
- `wrappers.dfy`: `Option`.

Every handler is modelled as a pure function from the stored state and the
request to the response and the new state (`Decide`/`Apply`, `Lookup`,
`Handle`). The lookup handler only reads, so that function is its whole
model.

Each handler that writes is also modelled as a class. Its method mutates the
stored state as the handler does (`ProductStore.Upload`,
`SettingsStore.Serve`, `InventoryStore.Serve`).

Each method's contract ties it to its function. The lemmas then state what
the handler promises.

The React components become classes too. Their `useState` variables are the
fields, and each event handler is a method with a `modifies` clause.

## Model

| member | source | states |
|---|---|---|
| ProductLookup.LookupFile | pages/api/products.ts:21-30 | receipt and issuance read the receipt list; production and dc-entry read the production list; every other type reads no list |
| ProductLookup.ValidType | pages/api/products.ts:17 | definition: `type` is sent once (not as an array) and is not the empty string |
| ProductLookup.LookupStatus | pages/api/products.ts:11-45 | definition: the status of each answer: 405 for the method, 400 for the type, 500 for an unreadable file, 200 for a list |
| ProductLookup.LookupRejects | pages/api/products.ts:11-19 | status 405 exactly for a method other than GET; 400 exactly for a GET whose `type` is missing, empty or repeated |
| ProductLookup.UnknownTypeIgnoresStore | pages/api/products.ts:27-30 | a non-empty type with no list gets 200 with the empty list, whatever is stored |
| ProductLookup.LookupReadsOnlyMappedFile | pages/api/products.ts:32-38 | two stores that agree on the mapped file give the same answer |
| ProductLookup.LookupVerbatim | pages/api/products.ts:32-46 | a missing file reads as the empty list; a parsed file is returned as stored; an unparsable one gives 500 |
| ProductLookup.SiblingsShareList | pages/api/products.ts:23-26 | receipt and issuance always get the same answer, and so do production and dc-entry |
| ProductLookup.Lookup | pages/api/products.ts:11-46 | the handler: 405 off GET, 400 for a bad `type`, the empty list for an unknown type or a missing file, the stored list, or 500 for an unparsable file; a 200 answer needs a GET with a valid `type`, and a non-empty answer is the mapped file's stored list |
| ProductUpload.UploadFile | pages/api/admin/update-products.ts:98-105 | receipt and issuance write the receipt list, production writes the production list, and no other type is written |
| ProductUpload.UploadStatus | pages/api/admin/update-products.ts:19-118 | definition: the status of each answer: 405 for the method, 500 for a server error, 200 for an update, 400 for every other refusal |
| ProductUpload.Present | pages/api/admin/update-products.ts:38 | definition: a text field is sent and is not the empty string, as JavaScript truthiness tests it |
| ProductUpload.FieldsPresent | pages/api/admin/update-products.ts:33-40 | definition: the file is sent and the type, sheet name and column reference are all present |
| ProductUpload.SheetFound | pages/api/admin/update-products.ts:43-48 | definition: the workbook can be read and has a sheet of the given name |
| ProductUpload.Decide | pages/api/admin/update-products.ts:19-108 | the checks in the handler's order and the list it would write; a refusal never carries the success body, and a write goes to the file its form type maps to |
| ProductUpload.Apply | pages/api/admin/update-products.ts:107-108 | the store after a decision: the target list replaced wholesale, or nothing changed (its properties are `ApplyFrame` and `UploadThenLookup`) |
| ProductUpload.Respond | pages/api/admin/update-products.ts:110-114 | a refusal is answered as decided; a write reports the length of the list and its first min(3, length) entries |
| ProductUpload.NonPostRefused | pages/api/admin/update-products.ts:19-21 | a request is refused as method-not-allowed if and only if its method is not POST, and that answer has status 405 |
| ProductUpload.MissingFieldsRefused | pages/api/admin/update-products.ts:33-40 | a parsed POST is refused as missing fields, with status 400, exactly when the file is absent or a text field is absent or empty |
| ProductUpload.MissingSheetRefused | pages/api/admin/update-products.ts:43-48 | with all fields present, the sheet is reported not found exactly when the workbook lacks it; the reply names the sheet and has status 400 |
| ProductUpload.BadColumnRefused | pages/api/admin/update-products.ts:54-71 | once the sheet is found, the request is refused as an invalid column exactly when the reference does not resolve |
| ProductUpload.TypeCheckedLast | pages/api/admin/update-products.ts:98-105 | "Invalid type" (status 400) is answered exactly when every earlier check passed and the type has no list |
| ProductUpload.WriteIff | pages/api/admin/update-products.ts:19-108 | a list is written exactly when every check passes; the list is the row scan of the named sheet at the resolved column, written to the type's list |
| ProductUpload.SuccessIffWrite | pages/api/admin/update-products.ts:104-114 | the answer has status 200 exactly when a list is written; every refusal has an error status |
| ProductUpload.ApplyFrame | pages/api/admin/update-products.ts:107-108 | a refused request changes no list; a write changes no list but its own |
| ProductUpload.WrittenListWellFormed | pages/api/admin/update-products.ts:79-90 | every written entry is a non-empty trimmed string, and there are no more entries than rows |
| ProductUpload.MappingsAgree | pages/api/admin/update-products.ts:98-105 | the upload and lookup maps agree wherever the upload accepts a type; the only type the lookup serves but the upload refuses is dc-entry |
| ProductUpload.UploadThenLookup | pages/api/products.ts:21-38 | after a write, every type mapped to the written file looks up exactly the uploaded list |
| ProductUpload.UploadedTypeReadsBack | pages/api/admin/update-products.ts:98-108 | the uploaded type itself maps to the written file and reads the uploaded list back |
| ProductUpload.UploadKeepsOtherList | pages/api/admin/update-products.ts:107-108 | after a write, a type mapped to the other file looks up what it did before |
| ProductUpload.ProductStore.Upload | pages/api/admin/update-products.ts:19-114 | the handler as it runs: its response and the new store are those of the decision function |
| ColumnRef.AllLetters | pages/api/admin/update-products.ts:57 | definition: the pattern `/^[A-Za-z]+$/`, a non-empty run of ASCII letters |
| ColumnRef.ColumnName | pages/api/admin/update-products.ts:60 | the name of a column index is non-empty and upper-case |
| ColumnRef.DecodeColumnName | pages/api/admin/update-products.ts:60 | decoding the name of a column gives its index back |
| ColumnRef.ColumnNumberPositive | pages/api/admin/update-products.ts:60 | an upper-case name has a column number of at least 0, and the number is 0 only for the empty name |
| ColumnRef.DecodeCol | pages/api/admin/update-products.ts:60 | `decode_col` as bijective base 26 minus one; `DecodeColumnName` and `ColumnNameOfDecoded` prove it inverse to `ColumnName` |
| ColumnRef.ColumnNameOfDecoded | pages/api/admin/update-products.ts:60 | every non-empty upper-case name decodes to an index of at least 0, whose name is the name itself |
| ColumnRef.DecodeExamples | pages/api/admin/update-products.ts:60 | A is 0, Z is 25, AA is 26, AZ is 51, BA is 52 |
| ColumnRef.ColumnIndex | pages/api/admin/update-products.ts:55-71 | an all-letter reference resolves to the column named by its upper-case form; any other reference resolves exactly when `parseInt` reads a number of at least 0, and then to that number |
| ColumnRef.ColumnIndexIgnoresCase | pages/api/admin/update-products.ts:57-60 | letters in either case name the same column as the upper-case form |
| ColumnRef.ColumnIndexLetters | pages/api/admin/update-products.ts:57-60 | "aB" is column 27 |
| ColumnRef.ColumnIndexNumeric | pages/api/admin/update-products.ts:61-71 | a reference that is not all letters resolves to the number `parseInt` reads when it is at least 0, and is refused otherwise |
| ColumnRef.ColumnIndexOfNumeral | pages/api/admin/update-products.ts:61-71 | a decimal numeral followed by any non-digit text is that zero-based column |
| ColumnRef.ColumnIndexOfNegative | pages/api/admin/update-products.ts:69-71 | a minus sign before a positive numeral is refused |
| ColumnRef.ColumnIndexOfMixed | pages/api/admin/update-products.ts:57-71 | a reference that starts with a letter but is not all letters reads as NaN and is refused |
| IntParse.DigitPrefixOfNumeral | pages/api/admin/update-products.ts:62 | the digit run `parseInt` reads from a numeral followed by a non-digit is exactly the numeral |
| IntParse.ParseInt | pages/api/admin/update-products.ts:62 | `parseInt(s, 10)`: skip white space, an optional sign, the longest digit run, NaN without digits; the `ParseInt…` lemmas below state its behaviour |
| IntParse.NumeralDigits | pages/api/admin/update-products.ts:62 | a numeral followed by a non-digit starts with a digit, and its leading digits read as the number |
| IntParse.ParseIntDigitFirst | pages/api/admin/update-products.ts:62 | text that starts with a digit reads as the value of its leading digits |
| IntParse.ParseIntMinusDigit | pages/api/admin/update-products.ts:62 | a minus sign before a digit negates the value of the digits after it |
| IntParse.ParseIntNumeral | pages/api/admin/update-products.ts:62 | `parseInt` reads back every decimal numeral, whatever non-digit text follows it |
| IntParse.ParseIntNegativeNumeral | pages/api/admin/update-products.ts:62 | a minus sign before a numeral gives the negated number |
| IntParse.ParseIntSkipsSpace | pages/api/admin/update-products.ts:62 | leading white space does not change what `parseInt` reads |
| IntParse.ParseIntNaN | pages/api/admin/update-products.ts:62 | text with no digit first, and no digit right after a leading sign, reads as NaN |
| Sheet.Picked | pages/api/admin/update-products.ts:80-88 | a row contributes exactly when its cell in the column is defined and its trimmed string is not empty; what it contributes is non-empty and trimmed |
| Sheet.ExtractedEntries | pages/api/admin/update-products.ts:79-90 | the list has at most one entry per row, and every entry is non-empty and trimmed |
| Sheet.ExtractColumn | pages/api/admin/update-products.ts:74-90 | the loop with `push` builds exactly the row-order list of the rows' contributions |
| Sheet.ExtractedAppend | pages/api/admin/update-products.ts:79-90 | scanning two blocks of rows in turn gives their lists one after the other |
| Sheet.ExtractedLength | pages/api/admin/update-products.ts:79-90 | the list has one entry per contributing row |
| Sheet.ExtractedMembership | pages/api/admin/update-products.ts:79-90 | a string is in the list exactly when some row contributes it |
| Sheet.ExtractedSingle | pages/api/admin/update-products.ts:79-90 | one row gives its contribution, or nothing |
| Sheet.PickedText | pages/api/admin/update-products.ts:85-88 | a trimmed text cell is kept as it is when not blank, and dropped when blank |
| Sheet.CellString | pages/api/admin/update-products.ts:85 | `String(val)` of a cell: text as is, a number by its shown form, a boolean as "true" or "false" |
| Sheet.Extracted | pages/api/admin/update-products.ts:79-90 | the product list as the row-order contributions of the rows; `ExtractColumn` is proved to build it and the `Extracted…` lemmas state its properties |
| Sheet.BlankDroppedRepeatKept | pages/api/admin/update-products.ts:79-90 | a blank row is skipped and a repeated value is kept |
| Sheet.ExtractedOne | pages/api/admin/update-products.ts:79-90 | a single trimmed text cell gives itself, or nothing when blank |
| Sheet.WidgetExample | pages/api/admin/update-products.ts:79-90 | the column Widget, Gadget, blank, Widget gives [Widget, Gadget, Widget] |
| Text.IsSpace | pages/api/admin/update-products.ts:85 | definition: the JavaScript white space and line terminators that `trim` removes and `parseInt` skips |
| Text.TrimStart | pages/api/admin/update-products.ts:85 | the result is a suffix of the input that does not start with white space, and only white space was dropped |
| Text.TrimEnd | pages/api/admin/update-products.ts:85 | the result is a prefix of the input that does not end with white space, and only white space was dropped |
| Text.Trim | pages/api/admin/update-products.ts:85 | the result neither starts nor ends with white space |
| Text.TrimIsFactor | pages/api/admin/update-products.ts:85 | `trim` keeps one contiguous factor of the input, with only white space on either side |
| Text.TrimmedIsFixed | pages/api/admin/update-products.ts:85 | a trimmed string is left unchanged by `trim` |
| Text.ToUpper | pages/api/admin/update-products.ts:60 | same length; each character is upper-cased |
| Text.ToLower | pages/rm-inventory.tsx:83-85 | same length; each character is lower-cased |
| Text.Contains | pages/rm-inventory.tsx:83-85 | `includes`, scanning start positions from the left; `ContainsIff` ties it to an occurrence position |
| Text.ContainsIff | pages/rm-inventory.tsx:83-85 | `includes` holds exactly when the term occurs at some position |
| Text.ContainsEmpty | pages/rm-inventory.tsx:83-85 | every string includes the empty string |
| Text.Below | pages/rm-inventory.tsx:74 | the default `sort` order, lexicographic by character with a proper prefix first; the four `Below…` lemmas prove it a strict total order |
| Text.BelowIrreflexive | pages/rm-inventory.tsx:74 | no string sorts before itself |
| Text.BelowTransitive | pages/rm-inventory.tsx:74 | the sort order is transitive |
| Text.BelowTotal | pages/rm-inventory.tsx:74 | of two different strings, one sorts before the other |
| Text.BelowAsymmetric | pages/rm-inventory.tsx:74 | no two strings each sort before the other |
| Text.Decimal | components/EntryForm.tsx:65-69 | the numeral of a number is a non-empty run of digits |
| Text.DecimalValue | components/EntryForm.tsx:65-69 | reading the numeral back gives the number |
| Seqs.Filter | pages/rm-inventory.tsx:79-91 | at most as long as the input; every kept element passes the test |
| Seqs.FilterIsSubsequence | pages/rm-inventory.tsx:79-91 | the kept elements are a subsequence of the input |
| Seqs.FilterMembership | pages/rm-inventory.tsx:79-91 | an element is kept exactly when it occurs in the input and passes the test |
| Seqs.FilterKeepsAll | pages/rm-inventory.tsx:79-91 | when every element passes, the input is returned unchanged |
| Seqs.FilterCongruent | components/ProductSection.tsx:47-49 | two tests that agree everywhere keep the same elements |
| Seqs.FilterMap | pages/api/admin/update-products.ts:79-90 | at most one output per input element |
| Seqs.FilterMapSnoc | pages/api/admin/update-products.ts:79-90 | one more element at the end adds its pick at the end |
| Seqs.FilterMapAppend | pages/api/admin/update-products.ts:79-90 | the picks of a concatenation are the concatenation of the picks |
| Seqs.FilterMapMembership | pages/api/admin/update-products.ts:79-90 | a value is picked exactly when some element yields it |
| Seqs.FilterMapSkipRepeat | pages/api/admin/update-products.ts:79-90 | an element yielding nothing is skipped, and a repeated element is picked again |
| Seqs.FilterMapLength | pages/api/admin/update-products.ts:79-90 | the number of picks is the number of elements that yield a value |
| Json.Property | pages/api/settings.ts:34 | destructuring throws exactly on `undefined` and `null`; a defined result is the object's own property |
| SettingsApi.Handle | pages/api/settings.ts:17-51 | the handler; whenever it answers with settings (GET or accepted POST) those are exactly what is stored afterwards |
| SettingsApi.SettingsStatus | pages/api/settings.ts:17-51 | definition: the status of each answer: 200 for settings read or saved, 400 for an invalid endpoint, 500 for a server error, 405 for the method |
| SettingsApi.FirstGetWritesDefault | pages/api/settings.ts:19-23 | a GET with nothing stored answers 200 with the empty endpoint and stores that same default |
| SettingsApi.OtherMethodsRefused | pages/api/settings.ts:48-51 | a method other than GET and POST gets 405 naming the method, and the store is unchanged |
| SettingsApi.StatusCodes | pages/api/settings.ts:17-47 | a GET answers 200; a POST answers 200 for a string `endpoint`, 500 when the body is undefined or null, and 400 otherwise |
| SettingsApi.StoreChangesOnlyWhen | pages/api/settings.ts:17-51 | the file changes only on a GET that finds nothing, which writes the default, and on an accepted POST of a new value |
| SettingsApi.PostAcceptsStrings | pages/api/settings.ts:32-43 | a POST is accepted exactly when `endpoint` is a string, the empty string included, and the value is stored and echoed as sent |
| SettingsApi.PostRejectsOthers | pages/api/settings.ts:37-39 | a parsed body whose `endpoint` is missing or not a string gets 400, and nothing is stored |
| SettingsApi.GetIsIdempotent | pages/api/settings.ts:17-27 | a GET returns what is stored after it, and a second GET changes nothing |
| SettingsApi.PostThenGet | pages/api/settings.ts:17-43 | after a POST of endpoint x, a GET returns endpoint x |
| SettingsApi.SettingsStore.Serve | pages/api/settings.ts:17-51 | the handler as it runs: its response and the new file are those of the handler function |
| InventoryApi.OnlyArrayPostWrites | pages/api/rm-inventory.ts:40-87 | only a POST of an array changes the file, and it stores exactly that array and the request time; a POST of anything else gets 400, and any other method 405 |
| InventoryApi.EmptyBeforeFirstUpload | pages/api/rm-inventory.ts:42-45 | before any upload, a GET answers a null timestamp and no items |
| InventoryApi.PostReportsStored | pages/api/rm-inventory.ts:64-77 | the POST response reports the stored timestamp and the number of stored items |
| InventoryApi.PostThenGet | pages/api/rm-inventory.ts:40-77 | a GET after a POST of an array returns that array and the POST's timestamp |
| InventoryApi.InventoryStore.Serve | pages/api/rm-inventory.ts:40-87 | the handler as it runs: its response and the new file are those of the handler function |
| InventoryApi.Handle | pages/api/rm-inventory.ts:40-87 | the handler; a data answer writes nothing, and a saved answer means the snapshot is now the posted array with the time `now`, its count the number of items |
| InventoryApi.InventoryStatus | pages/api/rm-inventory.ts:40-87 | definition: the status of each answer: 200 for data or a save, 400 for a body that is not an array, 405 for the method |
| InventoryView.Insert | pages/rm-inventory.tsx:71-74 | inserting into a strictly sorted list keeps it strictly sorted, with the new element added to its elements |
| InventoryView.SortedDistinct | pages/rm-inventory.tsx:71-74 | the distinct groups, strictly sorted, with exactly the input's elements |
| InventoryView.Categories | pages/rm-inventory.tsx:70-75 | "All Categories" first, then the material groups strictly sorted, each present group exactly once |
| InventoryView.StrictlySortedUnique | pages/rm-inventory.tsx:71-74 | two strictly sorted lists with the same elements are equal |
| InventoryView.CategoriesCanonical | pages/rm-inventory.tsx:70-75 | the category list is the one strictly sorted arrangement of the groups |
| InventoryView.FilteredItems | pages/rm-inventory.tsx:78-92 | every shown item passes all four filters, and there are no more than in the inventory |
| InventoryView.FilteredIsSubsequence | pages/rm-inventory.tsx:78-92 | the shown items keep the inventory's order |
| InventoryView.FilteredMembership | pages/rm-inventory.tsx:78-92 | an item is shown exactly when it is in the inventory and passes all four filters |
| InventoryView.InitialKeepsAll | pages/rm-inventory.tsx:36-39 | with the initial filters every item is shown |
| InventoryView.Keeps | pages/rm-inventory.tsx:79-91 | the four tests of an item: category (or the sentinel), case-folded description search, in-today, out-today |
| InventoryView.InventoryPage.Visible | pages/rm-inventory.tsx:78-92 | the table never shows more rows than the inventory holds |
| InventoryView.InventoryPage.constructor | pages/rm-inventory.tsx:36-43 | initial filters, empty inventory, no timestamp, loading, no error |
| InventoryView.InventoryPage.FetchSucceeded | pages/rm-inventory.tsx:46-63 | a missing `items` becomes the empty list; the timestamp is taken as sent; loading ends with no error; the filters are kept |
| InventoryView.InventoryPage.FetchFailed | pages/rm-inventory.tsx:52-63 | the error shows the failure's message, or the generic one when it has none; the data and filters are kept |
| InventoryView.InventoryPage.SetSearchTerm | pages/rm-inventory.tsx:174 | the search term is set; the other filters, the data, the timestamp, the loading flag and the error are kept |
| InventoryView.InventoryPage.ClearSearch | pages/rm-inventory.tsx:181-183 | the search term becomes empty; the other filters, the data, the timestamp, the loading flag and the error are kept |
| InventoryView.InventoryPage.SelectCategory | pages/rm-inventory.tsx:201 | the category is set; the other filters, the data, the timestamp, the loading flag and the error are kept |
| InventoryView.InventoryPage.ToggleIn | pages/rm-inventory.tsx:228 | the in-today filter flips; the other filters, the data, the timestamp, the loading flag and the error are kept |
| InventoryView.InventoryPage.ToggleOut | pages/rm-inventory.tsx:240 | the out-today filter flips; the other filters, the data, the timestamp, the loading flag and the error are kept |
| InventoryView.InventoryPage.ResetAll | pages/rm-inventory.tsx:251-258 | all four filters return to their initial values, so every item is shown again; the data, the timestamp, the loading flag and the error are kept |
| InventoryView.InventoryPage.ClearAllFilters | pages/rm-inventory.tsx:317-323 | the same four defaults, so every item is shown again; the data, the timestamp, the loading flag and the error are kept |
| EntryForms.WithField | components/EntryForm.tsx:26-30 | setting one field changes that field only |
| EntryForms.Alert | components/EntryForm.tsx:54-71 | the alert of each problem, numbering items from 1; no failure alert is the success message of line 86 |
| EntryForms.FirstItemProblem | components/EntryForm.tsx:63-72 | no problem exactly when every item from the start point has a product and a quantity; otherwise the first incomplete item is named, with the product checked before the quantity |
| EntryForms.Validate | components/EntryForm.tsx:54-72 | the checks in their order: user, date, then the items; a reported item number lies between 1 and the number of items |
| EntryForms.ValidatePassesIff | components/EntryForm.tsx:54-72 | a submit passes exactly when a user and a date are chosen and every item has a product and a quantity |
| EntryForms.ValidateReportsFirst | components/EntryForm.tsx:63-72 | the reported item is the lowest-numbered incomplete one, counted from 1, with the product reported when it is missing |
| EntryForms.UserThenDate | components/EntryForm.tsx:54-61 | the user is checked first and the date second, whatever the items |
| EntryForms.EntryForm.constructor | components/EntryForm.tsx:19-24 | no user, today's date, one blank item, not submitting |
| EntryForms.EntryForm.SetUser | components/EntryForm.tsx:103-108 | only the user changes |
| EntryForms.EntryForm.SetDate | components/EntryForm.tsx:103-108 | only the date changes |
| EntryForms.EntryForm.UpdateProductData | components/EntryForm.tsx:26-30 | one field of one item changes; the length and every other item stay as they were |
| EntryForms.EntryForm.AddProductSection | components/EntryForm.tsx:32-34 | one blank item is appended after the unchanged items |
| EntryForms.EntryForm.RemoveProductSection | components/EntryForm.tsx:36-41 | the item is removed and the rest keep their order, unless it is the only item; the form never has fewer than one item |
| EntryForms.EntryForm.CheckForm | components/EntryForm.tsx:54-72 | the loop that stops at the first problem reports exactly the problem of the validation function |
| EntryForms.EntryForm.Submit | components/EntryForm.tsx:52-93 | a failed check shows its alert and changes nothing; a pass shows the success alert and resets the form to no user, today and one blank item |
| ProductSections.FilteredProducts | components/ProductSection.tsx:47-49 | every option matches the search, and there are no more options than products |
| ProductSections.Matches | components/ProductSection.tsx:47-49 | definition: the lower-cased product name contains the lower-cased term |
| ProductSections.FilteredProductsIsSubsequence | components/ProductSection.tsx:47-49 | the options keep the products' order |
| ProductSections.FilteredProductsMembership | components/ProductSection.tsx:47-49 | a product is offered exactly when it is available and its lower-cased name contains the lower-cased term |
| ProductSections.EmptySearchKeepsAll | components/ProductSection.tsx:47-49 | an empty search offers every product |
| ProductSections.SearchIgnoresCase | components/ProductSection.tsx:47-49 | ASCII upper-casing of the term offers the same products |
| ProductSections.ScanAfterDot | components/ProductSection.tsx:59 | after the dot the pattern accepts exactly digits |
| ProductSections.ScanBeforeDot | components/ProductSection.tsx:59 | without the sign, the pattern accepts exactly digits, or digits, one dot and digits |
| ProductSections.IsNumeric | components/ProductSection.tsx:59 | the test `/^-?\d*\.?\d*$/`, read as an optional minus then a left-to-right scan that allows one dot; `IsNumericIff` characterises it |
| ProductSections.IsNumericIff | components/ProductSection.tsx:59 | the pattern accepts exactly an optional leading minus followed by such an unsigned number |
| ProductSections.NumericExamples | components/ProductSection.tsx:58-59 | "", "-", ".", "12", "-3.5", "3." and ".5" are accepted; "1.2.3", "1-2", "+1" and "abc" are not |
| ProductSections.ProductSection.constructor | components/ProductSection.tsx:29-31 | closed, empty search, no warning |
| ProductSections.ProductSection.Options | components/ProductSection.tsx:47-49 | no more options than products |
| ProductSections.ProductSection.ToggleOpen | components/ProductSection.tsx:112 | the drop-down flips, nothing else changes |
| ProductSections.ProductSection.ClickOutside | components/ProductSection.tsx:35-45 | the drop-down closes, nothing else changes |
| ProductSections.ProductSection.SetSearchTerm | components/ProductSection.tsx:138 | only the search term changes |
| ProductSections.ProductSection.SelectProduct | components/ProductSection.tsx:51-55 | the product goes into this row's item and every other item is kept; the search is cleared and the drop-down closes; the form's user, date and submitting flag are kept |
| ProductSections.ProductSection.QuantityChange | components/ProductSection.tsx:57-68 | the value is stored as typed either way; the warning shows exactly when it does not have the shape of a number; every other item and the form's user, date and submitting flag are kept |
| ProductSections.ProductSection.NotesChange | components/ProductSection.tsx:211 | the notes go into this row's item; every other item and the form's user, date and submitting flag are kept |

## Left out

- Multipart parsing (formidable) and workbook decoding (the XLSX reader) are
  not modelled. The request arrives already parsed: a form with optional
  fields, and a workbook as a map from sheet name to rows. A body that cannot
  be parsed, and a file the reader cannot open, are the two `ServerError`
  cases of `Decide`.
- File-system effects are modelled as the stored state: the existence
  checks, the reads and the writes. The `data` directory creation is not
  modelled.
- A write that fails is not modelled. Every modelled write succeeds, so the
  500 answers that follow a failed write are left out. These are at
  `pages/api/admin/update-products.ts` lines 108 and 116-119,
  `pages/api/settings.ts` lines 22, 28-31, 42 and 44-47, and
  `pages/api/rm-inventory.ts` lines 71 and 79-82.
- A settings or inventory file that exists but does not parse (500 on GET)
  is not modelled. The stored value is always well-formed.
- The request body of `/api/settings` is modelled as a `Json` value.
  `undefined`/`null` bodies make the destructuring throw, which is the 500
  case.
- `formatPKT` (the Asia/Karachi timestamp) is not modelled. The time is the
  `now` parameter of `InventoryApi.Handle`.
- Console logging, `setTimeout`, the HTML and the styling are not modelled,
  and neither are React's rendering and effect scheduling.
- The page's date text (`toLocaleDateString`) is not modelled.
- `pages/api/submit-entry.ts` and the other pages and components are not
  part of this model. The entry form's submit only simulates the call:
  `EntryForms.EntryForm.Submit` models the checks, the alerts and the reset.
- The upload's header-row detection is not modelled, because the code
  keeps every row (the comments only mention it).
- Text.ToUpper: maps only the ASCII letters; `toUpperCase` also maps
  other letters. This does not affect column references, which pass
  `/^[A-Za-z]+$/` first. It does limit
  `ProductSections.SearchIgnoresCase` to ASCII upper-casing: with full
  case mapping a term such as "ß" upper-cases to "SS" and can offer other
  products.
- Text.ToLower: maps only the ASCII letters; the searches' `toLowerCase`
  also maps other letters.
- Text.Below: compares whole code points, where JavaScript's `sort`
  compares UTF-16 code units. The two orders differ only for characters
  outside the Basic Multilingual Plane.
- Numbers are `int`:
  - Stock figures and JSON numbers have no fractions, no NaN and no
    infinity. Only the sign of "Today's In"/"Today's Out" is used.
  - `parseInt` of a numeral too long for a double is read exactly; the
    source rounds it. `decode_col` also computes in doubles, and the model
    decodes exactly. This changes no outcome: a reference long enough to
    lose precision (12 or more letters, or 16 or more digits) is refused
    as negative, or lies past every row, either way.
- Sheet.Row: the rows are the arrays `sheet_to_json` returns with
  `header: 1`, and index 0 is the first column of the sheet's used range.
  So a column name or number names the sheet's own column only when that
  range starts in column A. The used range itself is not modelled.
- Sheet.Cell: a number cell carries its `String()` form as given, and the
  model does not compute it. Error and date cells, and `null` cells, are not
  modelled.
- Sheet names that are `Object.prototype` keys (for example `constructor`)
  are not modelled. The model treats them as sheets the workbook lacks.
- EntryForms.EntryForm.UpdateProductData: requires an index inside the
  list. Every caller passes its own row's index, so the source's write past
  the end cannot happen there.
- The `isSubmitting` flag, which disables the button during the 1.5-second
  wait, is set and cleared within `Submit`. The wait is not modelled.
- Concurrent requests on the same file are not modelled. Each handler runs
  to completion before the next.
- A failed fetch on the inventory page is modelled through its message
  only. A `res.ok` that is false is one such failure.
