# csi3 Excel import and name checks, modelled in Dafny

This project models three sequential pieces of the csi3 shot-management web
server.

- **The naming and vocabulary validators of `check.go`.**
  - The four identifier formats are image size, shot name, asset name and roll-media code. The Go code writes them as regular expressions. Here each is a hand-written predicate over ASCII character classes. Image size, shot name and roll-media code are each proved equal to a direct statement of their pattern; the asset name predicate is written directly as its pattern, a non-empty alphanumeric run.
  - The task-name normaliser `renameTask`.
  - `validTask`, `validAssettype`, `validShottype` and `str2bool`.
- **The report loop of `handleReportExcel`.** A sheet is a sequence of rows of cells.
  - A row whose cell count is not 15 ends the batch with an error.
  - A header row (cell 0 is `샷네임`) is skipped.
  - Every other row is decoded by position into an `Excelrow`, checked, and appended. Its error count is added to the total.
- **The apply loop of `handleExcelSubmit`.** Every data row writes its non-empty cells into the metadata store, column by column. Failures are recorded as `ErrorItem`s.

The files are:

- `wrappers.dfy`: `Option`, `Outcome` (pass or an error text) and `Result`.
- `text.dfy`: ASCII character classes, `strings.ToLower` restricted to ASCII, and `strings.Split`/`strings.Join` for a one-character separator, with their round trips.
- `strconv.dfy`: `strconv.Atoi` and `strconv.Itoa` on the 64-bit range.
- `check.dfy`: `check.go`.
- `excel.dfy`: the row classifier, the `Excelrow` record and the report loop (`ReportExcel`, a method with loop invariants).
- `apply.dfy`: the apply loop. It has two parts.
  - **The specification.**
    - `Plan` lists, for one row, the actions its cells ask for, in column order. An empty cell asks for nothing.
    - `Exec` runs a plan against the store. A store call's failure, or a cell that does not parse, records one error item and ends the row. A failed source line records an item and the next line runs. A source line without `:` panics.
    - `RunRows` is the row loop.
  - **The imperative code.**
    - A `Store` class keeps the trace of calls made; its answers come from an oracle that sees the calls made before.
    - `ApplyCell` holds the handler's fourteen per-cell blocks. `ApplySources` holds the inner loop over source lines.
    - `ApplyCells`, `ApplyRow`, `ApplyRows` and `HandleExcelSubmit` put them together.
    - Each method is proved to do exactly what the specification says.

The handler's `continue` inside a cell block leaves the row. In the model it is a `return` with `Failed` from `ApplyCell`, which ends the row in `ApplyCells`. The `continue` of the inner source loop moves on to the next line.

## Model

| member | source | states |
|---|---|---|
| Text.Lower | check.go:95 | lower-casing keeps the length, turns every ASCII capital into its small letter and leaves every other character alone |
| Text.LowerIdempotent | check.go:95-103 | lower-casing twice is lower-casing once |
| Text.Split | http_excel.go:346-347 | strings.Split with a one-character separator gives at least one piece, and no piece contains the separator |
| Text.JoinSplit | http_excel.go:408 | joining the pieces of strings.Split with the separator gives the original text back |
| Text.FirstTwoPieces | http_excel.go:347-349 | when the separator occurs, piece 0 is the text before its first occurrence and piece 1 the text up to the next occurrence or the end |
| Strconv.Atoi | http_excel.go:424 | a text is accepted exactly when it is an optional sign and one or more decimal digits whose signed value lies in the 64-bit range, and then that value is the result; the error is "value out of range" exactly when the leading digits already pass 2^64-1 or the text is well formed but out of range, and "invalid syntax" otherwise |
| Strconv.ScanUintLeading | http_excel.go:424 | ParseUint's left-to-right scan gives a range error exactly when the leading digits pass 2^64-1, otherwise a syntax error when a non-digit follows them, otherwise their value |
| Strconv.AtoiRangeBeforeSyntax | http_excel.go:424-426 | digits worth more than 2^64-1 make a range error whatever follows them, since the scan overflows before it meets a later non-digit |
| Strconv.AtoiOverflowExample | http_excel.go:424-426 | the handle cell "99999999999999999999x" is rejected with "value out of range", not "invalid syntax" |
| Strconv.AtoiItoa | http_excel.go:424 | Atoi reads back the decimal text of every 64-bit number |
| Check.ImageSizeMatchesPattern | check.go:11 | the hand-written image-size test holds exactly when the string ends with 2 to 5 digits, an 'x' or 'X', and 2 to 5 digits, with any prefix before them |
| Check.ImageSizeExamples | check.go:10-11 | "2048x1080" is accepted, and so is "render_2048X1080" |
| Check.ImageSizeCounterexamples | check.go:11 | "2048-1080" (no x) and "2048x123456" (six digits after the x) are rejected |
| Check.ShotNameMatchesPattern | check.go:14 | the shot-name test holds exactly when the string is a non-empty alphanumeric run, one '_', and a non-empty alphanumeric run, with nothing else |
| Check.ShotNameExample | check.go:13-14 | "SS_0010" is a shot name |
| Check.ShotNameCounterexample | check.go:14 | "SS_0010_extra" (a third group) is not a shot name |
| Check.ShotNameIsNotAssetName | check.go:14-17 | no string is both a shot name and an asset name (a non-empty alphanumeric run) |
| Check.RollMediaMatchesPattern | check.go:20 | the roll-media test holds exactly when the string is digits, '_', capitals/digits, '_', digits, '_', capitals/digits, every group non-empty |
| Check.RollMediaExample | check.go:19-20 | "00_A03C001_180113_A001" is a roll-media code |
| Check.RollMediaAlphabet | check.go:20 | a roll-media code holds only digits, capitals and '_', so no lower-case letter |
| Check.Str2Bool | check.go:38-43 | the result is true exactly for "true" and "True" |
| Check.ValidAssettype | check.go:63-69 | success exactly for the nine asset types, case-sensitive; otherwise the error text is the input followed by the fixed message |
| Check.ValidShottype | check.go:72-78 | success exactly for "2d" and "3d"; otherwise the error text is the input followed by the fixed message |
| Check.RenameTask | check.go:91-105 | the normalised task name has no capital letter |
| Check.RenameTaskByTable | check.go:95-104 | renameTask is lower-casing followed by the alias table fursim→fur, lookdev→light, look→light, rig→sim, other names unchanged |
| Check.RenameTaskIgnoresCase | check.go:95 | a name and its lower-cased spelling normalise alike |
| Check.RenameTaskIdempotent | check.go:91-105 | normalising a normalised name changes nothing |
| Check.ValidTask | check.go:81-89 | success exactly when some listed task normalises like the input; otherwise the error text is the input as given followed by the fixed message |
| Check.ValidTaskAcceptsAliases | check.go:81-89 | any spelling that normalises like a listed task (case variant or legacy alias) is accepted |
| Excel.Classify | http_excel.go:194-200 | a row is malformed exactly when it does not have 15 cells; a header row has the sentinel in cell 0, a data row does not |
| Excel.ArityBeforeHeader | http_excel.go:194-200 | a row with the sentinel in cell 0 counts as a header only when it has 15 cells; otherwise the arity error wins |
| Excel.Decode | http_excel.go:201-216 | cell i of the row becomes the i-th field (Name, Shottype, …, JustTimecodeOut); the count starts at 0 |
| Excel.DecodeCells | http_excel.go:201-216 | decoding the cells of a record gives the record back |
| Excel.Checked | http_excel.go:201-217 | a checked record holds the row's cells in column order and the count checkerror gives to the decoded row |
| Excel.RecordsAppend | http_excel.go:193-220 | the records of two blocks of rows are the records of the first followed by those of the second |
| Excel.TotalErrornumAppend | http_excel.go:218 | the error total of two blocks of records is the sum of their totals |
| Excel.RecordsFromDataRows | http_excel.go:198-219 | every record is a non-header row of the sheet, decoded and checked |
| Excel.HeaderRowIgnored | http_excel.go:198-200 | a header row adds no record |
| Excel.ReportExcel | http_excel.go:187-220 | an empty sheet is refused; a 15-cell violation stops at that row, with the rows before it tallied; the result is the records of the rows handled, and the total is the sum of their counts |
| Apply.DateAction | http_excel.go:358-396 | a date cell fails exactly when the date parser rejects it; otherwise the cell's setter gets the parsed date |
| Apply.FrameAction | http_excel.go:422-447 | a handle cell fails exactly when Atoi rejects it; otherwise SetFrame gets the parsed number under its key |
| Apply.FieldAction | http_excel.go:319-463 | a non-source cell gives one store call for that item and project, or a parse failure |
| Apply.SourceActions | http_excel.go:344-356 | the source cell gives one action per '\n'-separated line |
| Apply.ColumnActions | http_excel.go:320-463 | an empty cell asks for nothing; a non-empty non-source cell asks for exactly one action; all actions belong to that cell |
| Apply.ExecAppend | http_excel.go:319-463 | running two blocks of actions is running the first and, only if it ran to its end, the second |
| Apply.ExecTrace | http_excel.go:321-463 | the store receives exactly the calls of the actions carried out, in plan order |
| Apply.ExecErrorsKept | http_excel.go:321-463 | error items are only appended, and every item a row appends carries cell 0 of that row |
| Apply.ExecErrorsCount | http_excel.go:321-463 | a row appends at most one item per source line carried out, plus one when a field failed |
| Apply.ExecStop | http_excel.go:321-463 | a row runs every action unless a non-source action fails (it is then the last one carried out, and an item with the row's name ends the list) or a source line without ':' panics |
| Apply.ExecErrors | http_excel.go:321-463 | the items a row appends are exactly those of the actions carried out, in order: a failed store call (field or source line) adds the store's error text, a cell that does not parse adds the parser's error, a success adds nothing |
| Apply.ExecFailure | http_excel.go:321-463 | when a field fails, the last item is that field's own error: the store's answer to the failing call, given the calls before it, or the parse error of the cell |
| Apply.PlanOrdered | http_excel.go:320-463 | every action comes from a non-empty cell of columns 1 to 14, in non-decreasing column order |
| Apply.PlanCoversNonEmptyCells | http_excel.go:320-463 | every non-empty cell of columns 1 to 14 has an action in the plan |
| Apply.BlankRowInert | http_excel.go:320-463 | a data row with cells 1 to 14 empty makes no call and records no error |
| Apply.TagsCellRoundTrip | http_excel.go:406-413 | the tags cell gives one SetTags call whose tags contain no ',' and join with ',' to the cell |
| Apply.HandleCellRoundTrip | http_excel.go:422-447 | a handle cell holding the decimal text of a 64-bit number writes that number under "handlein" or "handleout" |
| Apply.HandleCellRejected | http_excel.go:422-447 | a handle cell Atoi rejects records Atoi's error and makes no call |
| Apply.DateCell | http_excel.go:358-396 | date cells go to the date normaliser with the first argument 19; a parse error is recorded, otherwise the 3D deadline, 2D deadline or finish-date setter gets the date |
| Apply.TimecodeOutUsesInSetter | http_excel.go:456-463 | the JUST timecode OUT cell is written with the SetJustTimecodeIn setter |
| Apply.SourceLine | http_excel.go:344-356 | a source line without ':' panics; otherwise it gives one AddSource call whose title is the text before the first ':' and whose path is the text between the first and second ':' |
| Apply.RunRowsShift | http_excel.go:311-318 | running a later block of rows in place is running it alone, with its row numbers moved down |
| Apply.RunRowsConcat | http_excel.go:311-464 | rows are handled in sheet order: two blocks run as the first and then, if it completed, the second |
| Apply.BadArityStops | http_excel.go:311-315 | a row of the wrong length ends the batch at that row; the rows before it have run and no later row is touched |
| Apply.HeaderRowInert | http_excel.go:316-318 | a header row makes no call and records nothing |
| Apply.Store.Invoke | http_excel.go:321-327 | one setter call is appended to the trace and answered by the oracle from the calls before it |
| Apply.ApplySources | http_excel.go:344-356 | the inner source loop leaves exactly the calls and error items of the cell's source actions; a failed line never ends the row, and the loop reports a panic exactly when those actions panic |
| Apply.ColumnStep | http_excel.go:319-463 | running the row from a column is running that column and, if it ran, the rest |
| Apply.ApplyCell | http_excel.go:319-463 | each per-cell block of the handler does exactly what the actions of its cell do |
| Apply.ApplyCells | http_excel.go:319-463 | cells 1 to 14 of a data row in order do exactly what the row's plan does |
| Apply.ApplyRow | http_excel.go:319-463 | the loop body for a data row is the row runner of the specification |
| Apply.ApplyRows | http_excel.go:311-464 | the row loop leaves the status, the calls and the error items the specification's row loop gives |
| Apply.HandleExcelSubmit | http_excel.go:304-464 | with `overwrite` read through str2bool, an empty sheet is refused and any other sheet gives exactly the status, calls and error items of the specification |

## Left out

- HTTP plumbing is not modelled: sessions, access checks, form parsing (other than `overwrite` read through str2bool), redirects, templates and HTTP error pages. An outcome is a `Status` value in their place: `EmptySheet`, `BadArity(row)`, `Panicked(row)` or `Completed`. The texts of the HTTP errors are not modelled.
- excelize sheet reading is not modelled: the model starts from the rows, a sequence of sequences of cells.
- The metadata store and its setters (SetShotType, SetNote, AddComment, AddSource, SetDeadline3D, SetDeadline2D, SetFindate, SetFinver, SetTags, SetRnum, SetFrame, SetJustTimecodeIn) are not part of this model: they lie outside the modelled files and are database I/O. They are an oracle that answers each call, from the calls made before it, with success or an error text.
- ditime.ToFullTime is a foreign date parser and is not part of this model. It is an oracle, called with the fixed first argument 19 that the handler passes.
- time.Now is nondeterministic. It is a `now` text given once per batch, where the handler reads the clock once per comment.
- Excelrow.checkerror is not part of this model: its rules live outside the modelled files. The model takes it as a parameter from a record to a count. The list of tasks TASKS is a parameter of ValidTask.
- isMov depends on the filesystem and is not modelled.
- Check.RenameTask: lower-casing covers ASCII only, while Go's strings.ToLower also folds non-ASCII letters.
- Strconv.Atoi: the error text quotes the input plainly; strconv.Quote's escaping of special characters is not modelled. The int width is taken to be 64 bits. Like Atoi, the model rejects '_' between digits as a syntax error.
- Apply.HandleExcelSubmit: a panic on a source line without ':' ends the model's run with status `Panicked(row)` and the calls made so far. In Go the goroutine panics and no result page is rendered; recovery by the HTTP server is not modelled.
- Regular expressions in general are not modelled, only the four fixed patterns, over ASCII.

Three behaviours of the handler as written, which the model keeps:

- **After a failure:** a failure inside a cell block ends the whole row, because its `continue` belongs to the row loop; the rest of that row is skipped (http_excel.go:325 and the same line in each block). Only the source loop's `continue` (http_excel.go:353) moves on, to the next source line.
- **Source lines:** each line is split at every ':', and the path is the text between the first and second ':' (http_excel.go:347-349), so "web:http://host" gives the path "http". A line without ':' panics.
- **JUST timecode OUT:** this cell is written with SetJustTimecodeIn, the setter of the IN timecode (http_excel.go:458).
