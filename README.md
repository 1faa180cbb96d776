# TV spot monitoring — a Dafny model

The system checks that the TV spots a media plan booked for an advertiser were actually
aired. A user uploads the plan (an Excel "schedule" workbook) in the browser, picks a sheet,
a channel and an advertiser, and the backend expands the sheet's grid into one row per booked
spot. The user then uploads a Nilson air-time report and an RO (release order) number; the
backend matches every scheduled spot against the report, lists the spots that found no
airing (with the reason), and stamps the RO number on the report rows that a spot matched.
Both results can be previewed in tables and downloaded.

The model follows the program file by file:

| module | file | source |
|---|---|---|
| `TimeRange` | time_range.dfy | the time windows of `backend/monitoring.py` |
| `Reconcile` | reconcile.dfy | the matcher `find_unmatched_records` of `backend/monitoring.py` |
| `Extractor` | extractor.dfy | the workbook grid reader `backend/extractor.py` |
| `Api` | api.dfy | the routes and helpers of `backend/app.py` |
| `DataTable` | data_table.dfy | `Frontend_tsm/src/components/DataTable.jsx` |
| `Gateway` | gateway.dfy | the request and reply shapes of `Frontend_tsm/src/api.js` |
| `Session` | session.dfy | the browser `sessionStorage` keys the pages share |
| `ExtractPage`, `MonitorPage` | extract_page.dfy, monitor_page.dfy | the two form pages |
| `ExtractResultsPage`, `MonitorResultsPage` | extract_results_page.dfy, monitor_results_page.dfy | the two results pages |
| `Wrappers`, `Text`, `Frames` | wrappers.dfy, text.dfy, frames.dfy | Option/Result, string helpers, pandas frames and cell values |

Times of day are whole seconds after midnight, so a window that wraps midnight (a
programme starting at 23:58 whose window opens at 23:51 and closes at 00:05) is an interval
measured from its opening (`TimeRange.Offset`). A pandas frame is a list of column names
and rows of cell values. A missing date (`NaT`) is `None` and never equals anything,
itself included, as in pandas. An unmatched record carries its reason as a value
(`Reconcile.Reason`), and `Reconcile.ReasonText` spells it out as the Unmatched_Reason text
the matcher writes.

The matcher and the grid reader are written as loops (`Reconcile.FindUnmatchedRecords`,
`Reconcile.MatchTimes`, `Extractor.ExpandGrid`, `Extractor.CollectDateColumns`, …). Each loop
is proved equal to a recursive specification function (`Reconcile.Reconciliation`,
`Extractor.Extraction`, …), and the properties the program promises are lemmas about those
functions.

The matcher takes the list of accepted Tag themes as a parameter. The program passes the list
as written at backend/monitoring.py:147 (`Reconcile.TAG_THEMES_AS_WRITTEN`, used by
`Reconcile.FindUnmatchedRecords` and `Api.RunMonitor`); the corrected list
(`Reconcile.TAG_THEMES`, see "Findings") is the second instance, and every lemma about the
matcher holds for both. Likewise the extraction builds its frame as written
(`Extractor.BuildFrameAsWritten`, which raises on an empty grid), and `Extractor.BuildFrame`
is the corrected frame.

The browser pages are classes whose fields are the component's state: the inputs, the
busy flag, the error message, the route shown and the request in flight. Each `async`
handler is two methods, one on each side of its `await`:

1. The click clears the error and checks the inputs. If they pass, it sets the busy flag and
   issues the request.
2. The settling of the call either stores the reply in the session store and moves to the
   results route, or shows the error. Either way it clears the busy flag.

The invariant `Valid()` says the busy flag is set exactly while a request is in flight. The
buttons are disabled while busy, so a click requires `!loading`.

## Model

| member | source | states |
|---|---|---|
| TimeRange.Offset | backend/monitoring.py:41-50 | the distance from a window's opening to a time, measured forward around the clock, is less than a day |
| TimeRange.InRange | backend/monitoring.py:41-50 | a time is in a window exactly when it is no further past the opening than the closing is; this covers both the plain window and the window that wraps midnight |
| TimeRange.EndsInRange | backend/monitoring.py:47-50 | both ends of every window are inside it |
| TimeRange.CreateTimeRange | backend/monitoring.py:12-38 | a window is missing exactly when the start, or a non-Tag spot's end, is missing; only a Tag spot can fall outside every daypart; a Tag spot's start lies in its daypart |
| TimeRange.TagDayparts | backend/monitoring.py:19-28 | a Tag spot gets 06:00–18:00 exactly when it starts in [06:00, 18:00), gets 18:00–22:59 exactly when it starts in [18:00, 22:59], and gets no window otherwise |
| TimeRange.ProgrammeWindow | backend/monitoring.py:30-38 | a non-Tag window, as long as it is shorter than a day, accepts a time exactly when that time is at most 7 minutes before the start and at most 5 minutes after the end; every time inside the slot is accepted, across midnight too |
| Reconcile.SpacedThemesNeverMatch | backend/monitoring.py:143-149 | the theme filter as written accepts a theme exactly when its stripped text is one of the five unspaced names |
| Reconcile.SpacedThemesRejected | backend/monitoring.py:147 | the listed themes " Com Break" and " Time Check" are themselves rejected by the filter as written |
| Reconcile.TrimmedThemeNotSpaced | backend/monitoring.py:146 | a stripped theme never begins with a space, so it can never equal a listed name that does |
| Reconcile.EveryListedThemeMatches | backend/monitoring.py:145-148 | with the names stripped, every listed theme, with or without trailing spaces, passes the filter |
| Reconcile.PaddedThemeAllowed | backend/monitoring.py:145-148 | an allowed theme name with a blank before it, after it or on both sides is still allowed once stripped |
| Reconcile.MissingParts | backend/monitoring.py:128-136 | the reason names each of advertiser, channel, date and duration exactly when no report row has it, in that order |
| Reconcile.NotFoundReason | backend/monitoring.py:127-140 | the reason is "No match" exactly when advertiser, channel, date and duration each occur somewhere in the report (only never together) |
| Reconcile.HitFlags | backend/monitoring.py:120-165 | one flag per report row, set exactly when that row matches the spot's four keys, passes the Tag theme filter for the theme list given, has a Prog_time, and airs inside the window |
| Reconcile.WrittenCandidatesAreCandidates | backend/monitoring.py:143-151 | every report row the theme list as written admits, the corrected list admits too |
| Reconcile.ThemeFilterRecords | backend/monitoring.py:143-157 | a Tag spot none of whose key matches passes the theme filter is recorded as "No matching Tag theme found" and stamps nothing |
| Reconcile.HitStamped | backend/monitoring.py:159-165 | a candidate whose Prog_time lies in the window is stamped, when no candidate lacks a Prog_time |
| Reconcile.ComBreakSpot | backend/monitoring.py:143-165 | for a Tag spot whose key-matching rows all carry the theme "Com Break", the list as written records "No matching Tag theme found", while the corrected list stamps the row in the window |
| Reconcile.StepRaises | backend/monitoring.py:110-165 | a schedule row raises exactly when its own start (or a non-Tag end) is missing, or when it passes both filters and one of its candidates has no Prog_time; the exception is then TypeError |
| Reconcile.SetIndices | backend/monitoring.py:103 | the set of rows whose flag is set, below a bound |
| Reconcile.CountIsSize | backend/monitoring.py:159-162 | counting the set flags gives the size of the set of flagged rows, and never more than the rows looked at |
| Reconcile.HitCountIsSize | backend/monitoring.py:159-165 | the number of time matches of a spot is the number of distinct report rows it matches |
| Reconcile.FirstMissingColumn | backend/monitoring.py:77-79 | no column is reported exactly when every required one is present; otherwise the first required column that is absent |
| Reconcile.RoColumn | backend/monitoring.py:57 | the "RO Number" column is as long as the report and holds "" or the RO number, the RO number exactly on the stamped rows |
| Reconcile.FindUnmatchedRecords | backend/monitoring.py:53-184 | the loop over the schedule returns what the specification function `Reconciliation` gives for the theme list as written at line 147 |
| Reconcile.CheckRequiredColumns | backend/monitoring.py:76-79 | the check reports the first of Advertiser, Channel, Program, Dur the schedule lacks, and nothing when it has all four |
| Reconcile.MatchRows | backend/monitoring.py:109-182 | for the theme list given, the loop over every schedule row ends in the state of the specification, or in the first error it raises, with the RO column written for exactly the stamped rows |
| Reconcile.ReconcileRow | backend/monitoring.py:110-182 | one loop iteration performs one specification step, the TypeError of a candidate without a Prog_time included, and keeps the RO column in step with the stamped set |
| Reconcile.TallyRow | backend/monitoring.py:167-182 | a spot that passed both filters raises its key's count when it found a match and records the shortfall of the specification |
| Reconcile.MatchTimes | backend/monitoring.py:159-165 | the inner loop reports the TypeError exactly when some candidate has no Prog_time; otherwise it counts exactly the time matches and stamps exactly the matched rows; it never rewrites a row already stamped |
| Reconcile.ErrorPersists | backend/monitoring.py:53-184 | once the matcher fails it fails with the same error for the rest of the schedule |
| Reconcile.FoundImpliesCandidate | backend/monitoring.py:120-157 | a spot with a time match had a key-matching report row, and for a Tag spot one whose theme passed |
| Reconcile.FilteredSpotStampsNothing | backend/monitoring.py:127-157 | a spot rejected before the time check stamps no report row and counts no match |
| Reconcile.StepFacts | backend/monitoring.py:110-182 | one schedule row adds at most one unmatched record, about itself; it stamps exactly its time matches; and it raises only its own key's count, by one exactly when it found a match |
| Reconcile.TallyFacts | backend/monitoring.py:167-182 | a spot that passed the filters adds at most one unmatched record, about itself, and raises its key's count by one exactly when it found a time match |
| Reconcile.RunPrefixFacts | backend/monitoring.py:109-182 | after any prefix of the schedule: at most one unmatched record per row, each about a row of the prefix; a report row is stamped exactly when some spot of the prefix matched it; each key's count is the number of its spots that matched |
| Reconcile.OutcomeFacts | backend/monitoring.py:53-184 | for the whole call: unmatched records come from schedule rows and are no more numerous than they are; the RO column carries the RO number exactly on the report rows some spot matched |
| Extractor.ValidSheets | backend/extractor.py:29-32 | the sheet list is the workbook's sheets without "Final KPIs", none added |
| Extractor.ValidSheetsAppend | backend/extractor.py:31 | the filter keeps order: filtering a concatenation concatenates the filtered parts |
| Extractor.ValidSheetsKeepsOthers | backend/extractor.py:31 | a workbook without "Final KPIs" has all its sheets listed, in order |
| Extractor.CellValue | backend/extractor.py:22 | reading a cell fails exactly for a row or column below 1 |
| Extractor.FirstRange | backend/extractor.py:23-24 | the first merged range holding the cell, or none when no range holds it |
| Extractor.MergedValueFacts | backend/extractor.py:21-26 | a cell of a merged range reads as the range's top-left cell when no earlier range claims it |
| Extractor.UnmergedValue | backend/extractor.py:26 | a cell outside every merged range reads as itself |
| Extractor.GetMergedValue | backend/extractor.py:21-26 | the loop over the merged ranges returns the merged value |
| Extractor.FirstWhere | backend/extractor.py:43-50 | the header search returns the first of rows 1..24 whose column-A text contains "program" (`Extractor.FindHeader`), and none exactly when no such row exists |
| Extractor.FindHeaderRow | backend/extractor.py:43-52 | the search fails with the header error exactly when no header row exists, and otherwise returns that row |
| Extractor.LastWhere | backend/extractor.py:55-60 | the scan keeps the last of columns 1..n that passes the test (for a fixed column: its header contains the key text), and finds none exactly when no column passes |
| Extractor.ColMapKeysDistinct | backend/extractor.py:5-13 | the seven column keys are distinct |
| Extractor.MapColumns | backend/extractor.py:55-60 | every key of the column map is bound to the last matching header column, or left out when none matches |
| Extractor.DateColumns | backend/extractor.py:63-72 | date columns are consecutive from column 19, each has a filled day cell, and the scan stops at the first empty day cell or after the last column |
| Extractor.HeaderInFirstRowFails | backend/extractor.py:63-72 | a header in row 1 makes the day row 0 and the read fails |
| Extractor.DateColumnsError | backend/extractor.py:63-72 | the only failure of the date scan is the invalid-cell error |
| Extractor.CollectDateColumns | backend/extractor.py:63-72 | the loop returns the date columns of the specification |
| Extractor.RowTotalSnoc | backend/extractor.py:77-100 | one more date column adds its spot count to the row's total |
| Extractor.RowSpotsFacts | backend/extractor.py:77-100 | a row yields as many spots as its counts add up to, each with the row's programme, the chosen channel and advertiser, and one of the date labels |
| Extractor.GridSpotsFacts | backend/extractor.py:77-100 | the grid yields as many spots as the kept rows' counts add up to, none from a skipped (blank or break) programme, all with the chosen channel and advertiser |
| Extractor.ExpandRow | backend/extractor.py:83-100 | the loop over the date columns returns the row's spots |
| Extractor.ExpandGrid | backend/extractor.py:77-100 | the loop over the rows returns the grid's spots |
| Extractor.SpotRow | backend/extractor.py:102-124 | one output row per spot, in the output column order, carrying the programme, channel and advertiser |
| Extractor.BuildFrameAsWritten | backend/extractor.py:102-124 | building the frame fails with KeyError exactly when there are no spots; otherwise it has the eleven output columns and one row per spot, in order |
| Extractor.BuildFrame | backend/extractor.py:102-124 | the corrected frame has the eleven output columns and one row per spot, in order, even when there are no spots |
| Extractor.EmptyGridRaises | backend/extractor.py:102-124 | with no spots the code as written raises, while the corrected frame is empty with the output columns |
| Extractor.BuildFrameAgrees | backend/extractor.py:102-124 | with at least one spot the code as written and the corrected frame agree |
| Extractor.ScannedColumns | backend/extractor.py:77-97 | a column map holding each key's found position reads back as those positions, with the defaults 1, 2, 3, 4, 6, 8, 9 for keys not found |
| Extractor.Extraction | backend/extractor.py:35-126 | a successful extraction has the output columns and well-formed rows |
| Extractor.NoSpotsRaises | backend/extractor.py:102-124 | a sheet whose header and date columns are found but whose grid counts no spot makes the extraction fail with KeyError |
| Extractor.ExtractScheduleGrid | backend/extractor.py:35-126 | the reader returns what the specification function `Extraction` gives |
| Extractor.ExtractionFacts | backend/extractor.py:35-126 | the extracted frame has one row per booked spot of the grid, so at least one, each with the chosen channel and advertiser |
| Extractor.NoHeaderFails | backend/extractor.py:43-52 | extraction fails with the header error exactly when rows 1..24 hold no header |
| Api.JsonSafeValue | backend/app.py:30-34 | times and datetimes become text and every other value is kept |
| Api.JsonSafeFrame | backend/app.py:16-36 | the safe frame keeps columns and shape and converts every cell |
| Api.JsonSafeIdempotent | backend/app.py:16-36 | making a frame safe twice changes nothing more |
| Api.MakeJsonSafe | backend/app.py:16-36 | the loop over the columns returns the safe frame |
| Api.Head | backend/app.py:42 | `head(n)` is a prefix of the rows: the first n, or all but the last -n for negative n |
| Api.FillNa | backend/app.py:42 | a filled cell is never null |
| Api.Record | backend/app.py:42 | a record has exactly the frame's column names as keys |
| Api.RecordAt | backend/app.py:42 | a record maps each column to its cell, the rightmost column winning for a repeated name |
| Api.PreviewCells | backend/app.py:42 | one preview cell per column |
| Api.PreviewShape | backend/app.py:39-47 | the preview keeps the columns, counts all rows, and shows the first `limit` rows as records |
| Api.PreviewCellFacts | backend/app.py:39-47 | each previewed cell is the JSON-safe cell, with nulls filled by "" |
| Api.ExportFrame | backend/app.py:50-58 | the exported frame has no "Date_dt" column and keeps every row |
| Api.DateFromStamp | backend/app.py:55-56 | copying the stamp into "Date" keeps every row |
| Api.DropColumn | backend/app.py:58 | dropping a column keeps every other column and every row |
| Api.DateOverwritten | backend/app.py:55-56 | when both columns exist, each row's "Date" becomes its "Date_dt" and nothing else changes |
| Api.DropAbsent | backend/app.py:58 | dropping an absent column changes nothing |
| Api.ExportWithStampLast | backend/app.py:50-58 | with the stamp as last column, the export is the frame without it and with the stamp in "Date" |
| Api.OutputColumnPositions | backend/extractor.py:120-124 | in the extracted frame "Date_dt" is last, "Date" is seventh, and the rest are the export headers |
| Api.ExportOfExtracted | backend/app.py:50-58 | an extracted frame exports with exactly the ten output headers and its stamp in "Date" |
| Api.DateFormattedRows | backend/app.py:64-69 | the date format is set exactly on the sheet rows whose "Date" cell is truthy, in ascending order |
| Api.ScheduleSheets | backend/app.py:82-93 | without a named file the answer is 400; with one it is the valid sheet names |
| Api.ExtractFacts | backend/app.py:96-121 | 400 exactly without a named file or a sheet, leaving the store alone; on success a fresh "extract:" token names the stored extraction, and the preview shows its columns, its row count and at most 200 rows |
| Api.DownloadExtracted | backend/app.py:124-137 | 404 exactly for an unknown token; otherwise the file is the export of the stored frame |
| Api.RunMonitor | backend/app.py:153-177 | past its guards the monitor route answers 200, or 500 exactly when the matcher (with the theme list as written) raises, leaving the store alone |
| Api.MonitorGuards | backend/app.py:140-151 | 400 exactly when the token, RO number or file is missing, 404 exactly for an unknown token; neither touches the store |
| Api.MonitorSummary | backend/app.py:153-177 | the job id names the stored result; the summary counts all schedule spots, at most as many unmatched spots, and exactly the report rows some spot matched |
| Api.SummaryCounts | backend/app.py:160-162 | for either theme list, the RO numbers counted in the returned report are the report rows some spot matched |
| Api.CountEqualIsCard | backend/app.py:160-162 | the count of cells equal to the RO number is the size of the set of their rows |
| Api.DownloadMonitorFiles | backend/app.py:180-199 | 404 exactly for an unknown job; 200 exactly for a known job and "unmatched" or "nilson", with that file; 400 with its message otherwise |
| Api.DownloadAfterExtract | backend/app.py:96-137 | the token an extraction returns downloads that extraction's export |
| Api.MonitorAfterExtract | backend/app.py:96-151 | the token an extraction returns passes the monitor route's guards |
| DataTable.VisibleColumns | Frontend_tsm/src/components/DataTable.jsx:9-13 | a column is shown exactly when the preview has it and it is not hidden |
| DataTable.VisibleColumnsAppend | Frontend_tsm/src/components/DataTable.jsx:11-13 | the filter keeps order: filtering a concatenation concatenates the filtered parts |
| DataTable.NothingHidden | Frontend_tsm/src/components/DataTable.jsx:11-13 | columns without a hidden one are shown unchanged |
| DataTable.VisibleColumnsIdempotent | Frontend_tsm/src/components/DataTable.jsx:11-13 | filtering twice changes nothing more |
| DataTable.Hundredths | Frontend_tsm/src/components/DataTable.jsx:19 | the number of hundredths is within half a hundredth of the magnitude |
| DataTable.Fixed2 | Frontend_tsm/src/components/DataTable.jsx:19 | `toFixed(2)` writes two decimals after a point, with a sign exactly for a negative number |
| DataTable.Fixed2Denotes | Frontend_tsm/src/components/DataTable.jsx:19 | the text is the sign, the whole part of the rounded number, a point and its two decimal digits |
| DataTable.Fixed2Whole | Frontend_tsm/src/components/DataTable.jsx:19 | a whole number is written with ".00" |
| DataTable.Format2Blank | Frontend_tsm/src/components/DataTable.jsx:17 | null, undefined and "" show as "" |
| DataTable.Format2NotNumeric | Frontend_tsm/src/components/DataTable.jsx:18-19 | text that is not a number is shown as it is |
| DataTable.Format2Numeric | Frontend_tsm/src/components/DataTable.jsx:16-20 | any other value that is a number shows with two decimals |
| DataTable.Format2Flag | Frontend_tsm/src/components/DataTable.jsx:16-20 | true and false show as "1.00" and "0.00" |
| DataTable.Cells | Frontend_tsm/src/components/DataTable.jsx:84-98 | one cell per shown column, each that column's rendered value |
| DataTable.Render | Frontend_tsm/src/components/DataTable.jsx:4 | no table exactly when there is no preview |
| DataTable.RenderFacts | Frontend_tsm/src/components/DataTable.jsx:3-107 | the table shows the visible columns, never "Date_dt"; one line per row numbered from 1; rate cells with two decimals and the others as text; and the caption with the row count and the total, 0 when missing |
| DataTable.RenderExample | Frontend_tsm/src/components/DataTable.jsx:3-107 | a preview with the columns Date, Date_dt and Rate Card Rate and one row renders without Date_dt, as line 1 with its date and the rate 1500 as "1500.00", under the caption "Showing 1 rows (Total: 1)" |
| Gateway.ErrorText | Frontend_tsm/src/api.js:11 | a rejected call's message is "Error", then ": " and the reply body when it has one |
| Gateway.RejectedBodyRecoverable | Frontend_tsm/src/api.js:11 | two rejected calls show the same message only for the same body |
| Gateway.ExtractDownloadPathInjective | Frontend_tsm/src/api.js:30-32 | each token has its own download address |
| Gateway.MonitorDownloadPathInjective | Frontend_tsm/src/api.js:48-50 | for job ids without '/', each job and file has its own download address |
| Session.SessionStore.constructor | Frontend_tsm/src/pages/MonitorResultsPage.jsx:8-23 | a new session has none of the six keys |
| Session.SessionStore.Token | Frontend_tsm/src/pages/MonitorPage.jsx:7 | the token is "" exactly when none is stored or the stored one is "" |
| Session.Parsed | Frontend_tsm/src/pages/MonitorResultsPage.jsx:10-13 | a stored JSON value reads back as itself, and as null when unset or stored as null |
| ExtractPage.LoadGuard | Frontend_tsm/src/pages/ExtractPage.jsx:22 | loading sheets stops, with the missing-file message, exactly when no file is chosen |
| ExtractPage.ExtractGuard | Frontend_tsm/src/pages/ExtractPage.jsx:37-38 | extraction stops for a missing file first, then for a missing sheet, and proceeds exactly when both are given |
| ExtractPage.Page.constructor | Frontend_tsm/src/pages/ExtractPage.jsx:11-18 | no file, no sheets, the first channel and advertiser, idle, no error, on "/extract" |
| ExtractPage.Page.ChooseFile | Frontend_tsm/src/pages/ExtractPage.jsx:62-66 | only the file changes |
| ExtractPage.Page.ChooseSheet | Frontend_tsm/src/pages/ExtractPage.jsx:112-124 | only the sheet changes, to one of the loaded names |
| ExtractPage.Page.ChooseChannel | Frontend_tsm/src/pages/ExtractPage.jsx:75-83 | only the channel changes, to a listed one |
| ExtractPage.Page.ChooseAdvertiser | Frontend_tsm/src/pages/ExtractPage.jsx:88-96 | only the advertiser changes, to a listed one |
| ExtractPage.Page.LoadSheets | Frontend_tsm/src/pages/ExtractPage.jsx:20-25 | without a file only the message shows; otherwise the error clears, the page is busy and the file's sheet names are asked for |
| ExtractPage.Page.SheetsSettled | Frontend_tsm/src/pages/ExtractPage.jsx:25-32 | on a reply the list becomes its sheets ([] when absent) with the first selected; on a failure the list stays and the error shows; the page is idle again |
| ExtractPage.Page.Extract | Frontend_tsm/src/pages/ExtractPage.jsx:35-41 | the file, then the sheet, is checked; otherwise the page is busy and the chosen file, sheet, channel and advertiser are sent |
| ExtractPage.Page.ExtractSettled | Frontend_tsm/src/pages/ExtractPage.jsx:41-49 | on a reply the token and preview are stored and the results page is shown; on a failure nothing is stored and the error shows; the monitoring keys are never touched |
| ExtractPage.Page.GoBack | Frontend_tsm/src/pages/ExtractPage.jsx:134-137 | the start page is shown and the form is kept |
| MonitorPage.Guard | Frontend_tsm/src/pages/MonitorPage.jsx:16-18 | processing stops for a missing token first, then a missing report, then a blank RO number, and proceeds exactly when all three are given |
| MonitorPage.BlankRoNumber | Frontend_tsm/src/pages/MonitorPage.jsx:18 | an RO number of only whitespace counts as missing, and any other passes |
| Text.TrimIsSlice | Frontend_tsm/src/pages/MonitorPage.jsx:22 | trimming removes only whitespace, from both ends, and keeps one contiguous piece of the text |
| Text.TrimEmptyIffBlank | Frontend_tsm/src/pages/MonitorPage.jsx:18 | trimming leaves nothing exactly when the text is all whitespace |
| MonitorPage.Page.constructor | Frontend_tsm/src/pages/MonitorPage.jsx:9-12 | no report, no RO number, idle, no error, on "/monitor" |
| MonitorPage.Page.ChooseFile | Frontend_tsm/src/pages/MonitorPage.jsx:45-49 | only the report changes |
| MonitorPage.Page.EnterRoNumber | Frontend_tsm/src/pages/MonitorPage.jsx:58-63 | only the RO number changes |
| MonitorPage.Page.Process | Frontend_tsm/src/pages/MonitorPage.jsx:14-22 | a failing check shows its message; otherwise the page is busy and the stored token, the report and the trimmed RO number are sent |
| MonitorPage.Page.ProcessSettled | Frontend_tsm/src/pages/MonitorPage.jsx:22-32 | on a reply the job id, summary and both previews are stored and the results page is shown; on a failure nothing is stored and the error shows; the extraction keys are never touched |
| MonitorPage.Page.GoBack | Frontend_tsm/src/pages/MonitorPage.jsx:80-84 | the extraction results are shown again |
| ExtractResultsPage.Show | Frontend_tsm/src/pages/ExtractResultsPage.jsx:8-129 | the notice shows exactly without a token, download and proceed are enabled exactly with one, download opens that token's file, and a table shows exactly for a stored preview |
| ExtractResultsPage.AfterExtraction | Frontend_tsm/src/pages/ExtractResultsPage.jsx:95-129 | after an extraction the page shows no notice, enables the download of that token, and renders the returned preview |
| ExtractResultsPage.NothingStored | Frontend_tsm/src/pages/ExtractResultsPage.jsx:95-129 | in a fresh session the page shows the notice, no table and disabled buttons |
| MonitorResultsPage.Cards | Frontend_tsm/src/pages/MonitorResultsPage.jsx:36-51 | there are three stat cards |
| MonitorResultsPage.Show | Frontend_tsm/src/pages/MonitorResultsPage.jsx:8-96 | the notice shows exactly without a job, the stats exactly with a stored summary, both downloads are enabled exactly with a job and open its two files, and each table shows exactly for its stored preview |
| MonitorResultsPage.AfterMonitoring | Frontend_tsm/src/pages/MonitorResultsPage.jsx:30-96 | after a monitoring run the page shows no notice, enables two different downloads of that job, and renders both returned previews |
| MonitorResultsPage.CardsOfBackendSummary | Frontend_tsm/src/pages/MonitorResultsPage.jsx:36-51 | the cards show the backend's three counts in decimal under their labels |
| MonitorResultsPage.NothingStored | Frontend_tsm/src/pages/MonitorResultsPage.jsx:30-96 | in a fresh session the page shows the notice, no stats, no tables and disabled downloads |

## Left out

- Reading the uploaded files is not modelled. openpyxl loading, `pd.read_excel` and CSV/Excel writing are I/O, so a workbook is a map of cells with its merged ranges and the uploaded report is a frame.
- The column clean-up and parsing at the start of the matcher (backend/monitoring.py:62-100) is not modelled. It splits Time into Prog_time and End_Time, strips End_Time, and converts the times and dates; whatever does not parse becomes NaT or None, which the model's rows hold as `None`. `Api.Preparation` takes it as a parameter, as it does the writing of the outcome back into the two tables.
- Api.Preparation: the exceptions of that clean-up are not modelled, because the parameter is a total function. A schedule without a Date column (line 74), a schedule with neither Time nor Prog_time (line 72), a report without Date or Dd/Mn/Yr (line 96) or without Prog_time (line 99), and a report without Advertiser, Channel or Dur once a spot reaches the filter (line 120-125) raise there, and the route answers 500. The matcher's own exceptions, the missing required column and the TypeError of a missing time, are modelled (`Reconcile.Error`).
- `parse_date` (`strptime` with "%d %b - %Y") is a parameter of the extractor.
- backend/storage.py is not part of this model. Its Redis keys, expiry and pickling are left out. The store is a map, and the clock it takes ids from is a parameter `millis`, so two calls in the same millisecond are not told apart.
- Numbers are exact reals. The float rounding of pandas and of JavaScript's `toFixed` on binary doubles is not modelled.
- JavaScript's `Number()` applied to text is a parameter `parse`.
- Lower-casing only maps ASCII letters.
- The model strips only six ASCII whitespace characters: space, tab, line feed, carriage return, vertical tab and form feed. Both JavaScript's `trim` and Python's `strip` also strip further (non-ASCII) whitespace.
- The JSON between the backend and the browser is not modelled. The replies are typed values, and `JSON.stringify` followed by `JSON.parse` is taken to give the value back.
- A preview whose `columns` or `rows` is null or not an array makes DataTable throw. The model reads such a preview as empty.
- App.jsx routing is reduced to the route string each page sets.
- The `fetch` and `window.open` transport and `API_BASE` are not modelled. A call is given its outcome, and a download button is given the path it opens.
- Dates before year 1000 are not modelled: a year is printed with four digits.
- Page styles and layout are left out.
- The `/api/health` route is not modelled.

## Findings

| source | as written | input that shows it | evidently intended | confidence | as-written member | corrected member |
|---|---|---|---|---|---|---|
| backend/monitoring.py:147 | the allowed Tag themes include " Com Break" and " Time Check", with a leading space, but they are compared with the stripped theme | a Tag spot at 10:00 and a Nilson row matching its keys with Advt_Theme "Com Break" (or " Com Break") and Prog_time 10:00: the spot is recorded as "No matching Tag theme found" | these two themes are accepted like the other five | not executed | Reconcile.ComBreakSpot | Reconcile.EveryListedThemeMatches |
| backend/extractor.py:102-124 | with no spot rows, `pd.DataFrame([])` has no columns, so selecting the output columns raises `KeyError` | a sheet whose header is found but whose day row is empty, or whose grid holds no positive count | an empty frame with the output columns, as the `df.empty` branch at line 113-114 prepares | not executed | Extractor.NoSpotsRaises | Extractor.BuildFrame |
