# Expense bot core, modelled in Dafny

A Telegram bot (`api/index.js`) records one user's expenses in an Excel workbook per chat. Each month's
expenses sit in a sheet named `T{MM}-{YYYY}`, and each row holds an ID, a name, an amount, a
category and a `dd-mm-yyyy` date. This project models the bot's core with the workbook as a value:
a map from sheet name to the sequence of rows under the sheet's header row. The files of all chats
make up the state of a `UserFiles` object. The model covers four things:

- **Sheet-name derivation** (`sheet_names.dfy`, module `SheetNames`). `getSheetNameFromDate`,
  the `/stats` key and the raw `T` + text key of `/view` and `/delete` are modelled.
  - JavaScript's `split('-')` and `padStart(2, '0')` are written out over sequences of characters
    (see "## Left out" for how lengths differ from JavaScript's). So are the `undefined` that
    destructuring gives for a missing part and the `TypeError` thrown when the month itself is
    missing.
  - The lemmas show that `/add` and `/stats` agree on the key.
  - They also show that `/view` and `/delete` reach the same sheet only when the month was typed
    with two or more characters. `/stats 3-2024` reads `T03-2024`, where `/add` filed a
    `5-3-2024` record, but `/view 3-2024` reads `T3-2024`.
- **Record store** (`record_store.dfy`, module `RecordStore`).
  - Functions state what `ensureUserFileExists`, `readUserExpenses`, `writeUserExpenses` and the
    delete filter do to one workbook.
  - Class `UserFiles` implements those operations step by step over the map of all files.
  - The invariant `Valid` says every row sits in the sheet its own date names, and that the
    `Template` sheet exists and stays empty. Every command preserves it. The store methods
    preserve it under the condition the commands meet: `WriteUserExpenses` when the record's date
    names the sheet, and `RewriteWithoutId` when every row of the snapshot belongs in the sheet.
- **Aggregation** (`expenses.dfy`, module `Expenses`). `calculateTotalExpenses` is a loop proved
  against `Sum(Matching(...))`. The distinct-category list is proved duplicate-free, complete and
  in first-occurrence order. The `/stats` computation is proved to yield the total plus one line
  per category other than `'all'`. The lines plus the amounts filed under a literal `'all'`
  category add up to the total.
- **Command handlers** (`commands.dfy`, module `Commands`). `/add`, `/view`, `/delete` and
  `/stats` are modelled once their follow-up message has arrived, together with two end-to-end
  scenarios.

`Wrappers` (`wrappers.dfy`) holds the `Option` type. A `None` sheet name stands for the exception
that `getSheetNameFromDate` throws.

## Model

| member | source | states |
|---|---|---|
| SheetNames.Split | api/index.js:42 | `split` on one separator always yields at least one part |
| SheetNames.SplitPartsHaveNoSeparator | api/index.js:42 | no part of a split contains the separator |
| SheetNames.SplitIsSingleIff | api/index.js:42 | a split has exactly one part if and only if the text has no separator |
| SheetNames.JoinSplit | api/index.js:42 | joining the parts with the separator gives back the original text |
| SheetNames.SplitOfSeparatorFree | api/index.js:42 | text without a dash splits into itself alone |
| SheetNames.SplitJoin | api/index.js:42 | splitting a join of dash-free parts gives those parts back |
| SheetNames.SplitAfterPrefix | api/index.js:42 | a dash-free prefix followed by a dash becomes exactly the first part, and the rest splits on its own |
| SheetNames.PadStart | api/index.js:43 | `padStart(n, '0')` result has length max(\|s\|, n), ends with `s` and is `'0'` before it |
| SheetNames.SheetNameFromDate | api/index.js:41-44 | `getSheetNameFromDate`: fails (month undefined, `padStart` throws) exactly when the date has no dash; otherwise a name starting with `T`, of at least four characters |
| SheetNames.StatsSheetName | api/index.js:173-175 | the `/stats` key starts with `T`; text without a dash is all month, giving `T` + padded text + `-undefined` (so `/stats ""` reads `T00-undefined`) |
| SheetNames.RawSheetName | api/index.js:127 | the `/view` and `/delete` key is `T` followed by the text exactly as typed, unpadded |
| SheetNames.PaddedMonthKeepsLongMonth | api/index.js:43 | a month of two or more characters is not changed by the padding |
| SheetNames.DateKeyShape | api/index.js:41-44 | for `day-month-rest` the key is `T` + padded month + `-` + first dash-free part of `rest` |
| SheetNames.DateKeyOfThreeFields | api/index.js:41-44 | for three dash-free fields the key is `T` + padStart(month, 2, '0') + `-` + year |
| SheetNames.DayIsIgnored | api/index.js:42 | two dates that differ only in the day give the same key |
| SheetNames.PaddedSingleCharMonth | api/index.js:174 | a one-character month gains exactly one leading `'0'` |
| SheetNames.SingleCharMonthKey | api/index.js:41-44 | `day-m-year` with a one-character month is filed under `T0m-year` (so `5-3-2024` gives `T03-2024`) |
| SheetNames.SingleCharMonthStatsKey | api/index.js:173-175 | `/stats m-year` reads `T0m-year` (so `3-2024` gives `T03-2024`), while the raw key is `Tm-year` |
| SheetNames.AddKeyMatchesStatsKey | api/index.js:173-175 | the sheet `/add` files `day-t` under is the sheet `/stats t` reads, for every `t` |
| SheetNames.RawKeyMatchesStatsKeyIff | api/index.js:127 | the `/view` and `/delete` key of `month-year` equals the `/stats` key if and only if the month has at least two characters |
| Expenses.Selects | api/index.js:84 | the `'all'` filter selects every record; any other filter selects exactly the records of that category |
| Expenses.Matching | api/index.js:84 | the selected records are exactly those whose category matches or when the filter is `'all'`, and there are no more of them than records |
| Expenses.MatchingAll | api/index.js:84 | the `'all'` filter selects every record, in order |
| Expenses.MatchingAppend | api/index.js:83-84 | selection over a record list plus one record is the selection over the list, plus that record if it is selected |
| Expenses.SumAppend | api/index.js:85 | adding a record adds its amount to the sum |
| Expenses.CalculateTotal | api/index.js:81-87 | the accumulator loop returns the sum of the amounts of the selected records |
| Expenses.TotalOfAll | api/index.js:81-87 | the `'all'` total is the sum of every amount; any category totals 0 on no records |
| Expenses.DistinctCategories | api/index.js:187 | the category list has no duplicates, lists every record's category, and lists only categories that occur |
| Expenses.FirstSeenBeforeExtend | api/index.js:187 | appending a record keeps the first-occurrence order of categories already seen |
| Expenses.FirstSeenBeforeNew | api/index.js:187 | a category new in the appended record comes after every category already seen |
| Expenses.DistinctInFirstOccurrenceOrder | api/index.js:187 | categories are listed in the order of their first occurrence, as a `Set` keeps them |
| Expenses.Lines | api/index.js:194-198 | one line per listed category at most; every line names a listed category other than `'all'` |
| Expenses.Breakdown | api/index.js:187-198 | every line names a category some record has, other than `'all'`, with that category's exact total; every record whose category is not `'all'` has its category's line |
| Expenses.LinesStep | api/index.js:194-198 | handling one more category of the list appends its line, with that category's total, unless it is `'all'` |
| Expenses.Statistics | api/index.js:183-199 | the `/stats` loop yields the sum of all amounts and one line per distinct category other than `'all'`, in list order, each with that category's total |
| Expenses.LinesDescribeCategories | api/index.js:194-199 | every line names a listed category other than `'all'` with its exact total, every such category has its line, and there are no more lines than categories |
| Expenses.LinesTotalSnoc | api/index.js:194-198 | one more category adds its total to the sum of the lines, unless it is `'all'` |
| Expenses.LinesTotalAppend | api/index.js:194-198 | one more record adds its amount to the line total when its category is listed and is not `'all'` |
| Expenses.SumMatchingAppend | api/index.js:84-85 | for a real category, one more record adds its amount exactly when its category matches |
| Expenses.FiledUnderAll | api/index.js:195 | the records filed under the literal category `'all'` are exactly those of the sheet with that category |
| Expenses.NothingFiledUnderAll | api/index.js:195 | a sheet without a record of category `'all'` has nothing filed under it |
| Expenses.LinesCoverSum | api/index.js:194-198 | lines over distinct categories covering every record, plus the amounts filed under `'all'`, add up to the sum of all amounts |
| Expenses.LinesOfEmptySheet | api/index.js:194-198 | over no records the lines add up to 0 |
| Expenses.BreakdownPlusFiledUnderAll | api/index.js:184-199 | for every sheet, the per-category lines plus the amounts filed under the literal category `'all'` (which get no line) add up to the overall total |
| Expenses.BreakdownAddsUpToTotal | api/index.js:184-199 | when no record's category is literally `'all'`, the per-category lines add up to the overall total |
| RecordStore.EnsureFile | api/index.js:28-38 | the chat gains a file holding only the empty `Template` sheet when it had none; every existing file is kept |
| RecordStore.EnsureFileIdempotent | api/index.js:28-38 | ensuring a file twice is ensuring it once |
| RecordStore.NewWorkbook | api/index.js:31-34 | a new workbook has exactly one sheet, `Template`, holding no data rows |
| RecordStore.SheetRows | api/index.js:50-51 | a present sheet reads as its rows, an absent one as `[]` |
| RecordStore.Appended | api/index.js:55-67 | a write adds the sheet name if it was absent and keeps every other sheet name |
| RecordStore.ReadAfterWrite | api/index.js:55-67 | after a write the sheet reads as its old rows followed by the new one (just the new one if the sheet was absent); every other sheet reads and exists as before |
| RecordStore.AfterWrite | api/index.js:55-67 | after a write the chat has a file, and every other chat's file is kept |
| RecordStore.WriteToNewWorkbook | api/index.js:55-67 | a first write to a new file leaves the empty `Template` sheet and a one-row sheet |
| RecordStore.WithoutId | api/index.js:153 | the filter keeps exactly the rows whose ID differs, never adds rows, and returns the rows unchanged if and only if none has the ID |
| RecordStore.WithoutIdConcat | api/index.js:153 | filtering a concatenation filters each part, so order is kept |
| RecordStore.WithoutIdKeepsAll | api/index.js:153 | filtering rows none of which has the ID keeps them all |
| RecordStore.WithoutIdIdempotent | api/index.js:153 | filtering twice by the same ID is filtering once |
| RecordStore.Deleted | api/index.js:153-156 | the delete step keeps the workbook's sheet names: an existing sheet is rewritten, an absent one is not saved |
| RecordStore.DeleteEffect | api/index.js:153-156 | the sheet keeps exactly its rows with another ID, every other sheet is unchanged, and the workbook is unchanged when no row of the sheet has the ID (including when the sheet is absent) |
| RecordStore.DeleteUndoesWrite | api/index.js:153-156 | deleting the ID of a record just written, when no earlier row had it, restores the sheet (and the workbook if the sheet existed) |
| RecordStore.NoDateNamesTemplate | api/index.js:34 | no date string derives the name `Template` |
| RecordStore.TemplateHoldsNoRows | api/index.js:28-38 | in a workbook whose rows sit in their dates' sheets, `Template` holds no data rows |
| RecordStore.NewWorkbookWellFormed | api/index.js:31-34 | a new workbook satisfies the store invariant |
| RecordStore.WriteKeepsWellFormed | api/index.js:115-117 | writing a record to the sheet its own date names preserves the invariant |
| RecordStore.RewriteKeepsWellFormed | api/index.js:155 | replacing a sheet by rows that all belong in it preserves the invariant |
| RecordStore.DeleteKeepsWellFormed | api/index.js:153-156 | deleting preserves the invariant |
| RecordStore.WriteKeepsFilesWellFormed | api/index.js:55-67 | a write to the sheet the record's own date names keeps every file well formed, including a file it creates |
| RecordStore.UserFiles.ValidTemplateEmpty | api/index.js:28-38 | in a store satisfying the invariant, every file's `Template` sheet holds no data rows |
| RecordStore.UserFiles.constructor | api/index.js:17-20 | the user directory starts with no files, and the invariant holds |
| RecordStore.UserFiles.EnsureUserFileExists | api/index.js:28-38 | the files become `EnsureFile` of the old files; the invariant is preserved |
| RecordStore.UserFiles.ReadUserExpenses | api/index.js:47-52 | ensures the file, then returns the sheet's rows, or `[]` when the sheet is absent |
| RecordStore.UserFiles.WriteUserExpenses | api/index.js:55-67 | the chat's file becomes its ensured workbook with the record appended to the sheet; other files unchanged; invariant kept when the sheet is the record's date's sheet |
| RecordStore.UserFiles.RewriteWithoutId | api/index.js:153-156 | for an existing sheet of the chat's file, the sheet is replaced by the filtered snapshot; nothing else changes; the invariant is kept when every snapshot row belongs in that sheet |
| Commands.Add | api/index.js:110-120 | the record is written to the sheet its date names; a date without a dash writes nothing; invariant kept |
| Commands.View | api/index.js:123-139 | reads the rows of sheet `T` + text, unpadded, after ensuring the file |
| Commands.Delete | api/index.js:142-161 | with no rows in `T` + text nothing is written; otherwise the sheet is filtered and success is reported even when no row had the ID |
| Commands.Stats | api/index.js:169-204 | reads the padded sheet; no rows gives no report, otherwise the total of all rows and the per-category breakdown |
| Commands.TwoCategories | api/index.js:187 | two records of different categories list both categories in order |
| Commands.TwoMatches | api/index.js:81-87 | over two records of different categories each category totals its own record |
| Commands.TwoRecordReport | api/index.js:183-199 | the `/stats` numbers of two records in different categories |
| Commands.TwoWritesOneSheet | api/index.js:55-67 | two writes to the same sheet of a new workbook leave both rows, in order |
| Commands.TwoWritesFromNothing | api/index.js:28-38 | two writes by a chat without a file leave one file with the template and both rows |
| Commands.AddBoth | api/index.js:113-117 | two `/add` commands dated in the same month, by a new chat, leave one file with both rows in that month's sheet |
| Commands.RowsAfterTwoWrites | api/index.js:47-52 | after those two writes, reading the sheet gives both rows and ensuring the file changes nothing |
| Commands.StatsOfTwoRows | api/index.js:180-199 | `/stats` over two rows of different categories reports their sum and one line each |
| Commands.StatsScenario | api/index.js:169-204 | after two `/add`s in one month, `/stats` of that month reports both amounts' sum and one line per category, in the order added |
| Commands.OneWriteFromNothing | api/index.js:55-67 | one write by a chat without a file: its sheet holds the record, every other sheet reads empty |
| Commands.ViewScenario | api/index.js:126-128 | after one `/add`, `/view` of the same month finds the record if and only if the raw key equals the padded key |

## Left out

- Telegram I/O is not modelled: the webhook, `onText`, `sendMessage`, `sendDocument`, `/export`, and the fixed `/start` and `/help` texts. Handlers are modelled from the point where the follow-up message has arrived, and replies are returned as values.
- The global one-shot `bot.once('message', ...)` listeners depend on event order across chats and are not modelled. In `/delete` the row snapshot read before the ID prompt can be stale by the time the ID arrives; `RewriteWithoutId` takes that snapshot as a parameter, but the model does not produce interleavings.
- `generateId` reads the clock, so the ID is a parameter of `Commands.Add`.
- `parseFloat` and the `vi-VN` currency formatting are floating point and locale code. Amounts are integers taken as already parsed, and totals are returned as numbers, not formatted strings.
- The reply texts of `/view` and `/stats` are not modelled.
- Splitting the `/add` message on `', '` is not modelled: `Commands.Add` takes the four fields directly, so a message with fewer fields (whose date would be `undefined`) is not represented.
- Token and environment handling, and `process.exit`, are not modelled.
- The file system and the `xlsx` library are replaced by the `files` map. Each sheet's header row is implicit: a sheet's value is its data rows. The order of the sheets in a workbook file is not represented. Neither are the library's limits on sheet names (length, forbidden characters).
- SheetNames.PadStart: string lengths count Unicode characters, while JavaScript's `length` and `padStart` count UTF-16 code units. So the keys of months holding a character outside the Basic Multilingual Plane are not modelled: JavaScript pads such a one-character month not at all, while `SheetNames.PadStart` pads it to two characters, and the length condition of `SheetNames.RawKeyMatchesStatsKeyIff` is off for them in the same way.
- `readUserExpenses` returns the rows `sheet_to_json` would give back. The model assumes that conversion round-trips the rows `json_to_sheet` wrote.
- Commands.StatsScenario: stated for any two records whose dates name the month's sheet, rather than for the concrete dates `01-03-2024` and `15-03-2024`. Commands.ViewScenario is stated the same way; the concrete keys are covered by `SheetNames.SingleCharMonthKey` and `SheetNames.SingleCharMonthStatsKey`.
