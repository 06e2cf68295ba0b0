# FoodPantryParser in Dafny

This project models the data logic of FoodPantryParser, a tool that reads a
food pantry's daily order-form workbooks and writes summary reports. The
model treats a worksheet as a map from (row, column) to a small `Cell` value
(`Empty`, `Str`, `Num`, `Date`). Folders, files and the spreadsheet library
become values passed in. The model covers these parts:

- **Row reader** (`ExcelRowIterator`, `row_iterator.dfy`). The column-letter
  encoder is a bijective base-26 encoding. The reader walks the rows from a
  start row, drops empty rows and builds one column-letter → value dictionary
  per row. It also resolves single-cell addresses such as `B12`.
- **Weekday calendar** (`WeekdayCalendar`, `calendar.dfy`). It lists the
  Monday–Friday dates of a month, which are the "expected dates".
- **Geography** (`Geography`, `geography.dfy`). It validates the `P` column:
  "city" or "county" in any case; anything else is an error.
- **Order extraction** (`OrderExtraction`, `extraction.dfy`). This is the
  row-by-row state machine. It keeps a consecutive-skip counter, a
  skippable-row test and a stop test, and maps a row's columns B, F, L…P to an
  `Order` dated by cell B12.
- **Daily reports** (`DailyReports`, `daily_report.dfy`). This is the mutable
  `DailyReport` accumulator with its derived `SumAdultsChildren`.
- **By-agency reports** (`ByAgencyReports`, `by_agency.dfy`). Orders are
  grouped by agency name in ascending name order. Each agency gets one report
  per expected date, and a name that is not a legal file name stops the pass.
- **By-date reports** (`ByDateReports`, `by_date.dfy`). One form's orders are
  folded into one report per agency, in order of first appearance. Existing
  reports are updated in place.
- **Summary** (`SummaryInfo`, `summary.dfy`). It holds the missing expected
  dates and the period totals.
- **By-date workbook layout** (`ByDateReportLayout`, `by_date_generator.dfy`).
  It places the title, header, data rows, `SUM` formulas, "Totals" label and
  timestamp, and refuses to overwrite an existing file.
- **The three passes over the forms** (`ReportPasses`, `report_passes.dfy`).
  These are the all-agency pass, the by-agency pass and the by-date pass.
- **Workbook combiner** (`CombinerSheets`, `combiner_sheets.dfy`, and
  `Combiner`, `combiner.dfy`). `SharedProcessingState` and `ExcelCombiner`
  are classes whose fields the methods update. The combiner:
  - scans the headers and finds the "Generated:" sentinel row;
  - decodes dates with three decoders, tried in order;
  - fills the date → file → SumOrders table and the column totals;
  - lays the blocks out side by side;
  - finds the days on which every file recorded 0, writes the "TOTALS (n)"
    label and marks the rows of those days.

Shared definitions live in `wrappers.dfy` (`Option`, `Result`), `text.dfy`
(ASCII case, whitespace, decimal rendering and parsing), `cells.dfy` (dates,
cells, sheets, failures and the runtime's conversions) and
`spreadsheet_models.dfy` (`Order`, `Ordersheet`).

An exception of the source is a `Failure` value in an `Err` result. The
stateful code keeps its form:
- the extraction loops, the report loops, the column-name loop and the row
  reader are methods with loops, proved equal to recursive specification
  functions;
- `DailyReport`, `SharedProcessingState` and `ExcelCombiner` are classes;
- each combiner method states its new field values in terms of a function of
  the old ones (`SheetStep`, `RunFiles`, `Finished`), and lemmas prove what
  those functions promise.

Notes on the source:
- The combiner's sentinel scan at `ExcelCombiner.cs:146-159` runs upward from
  row `Dimension.Rows` (`ExcelCombiner.cs:95`). That is the used range's row
  count, which is the last used row only when the range starts at row 1. In
  the same way, `cols` is `Dimension.Columns`, the used range's column count
  (`ExcelCombiner.cs:96`), so rows and columns beyond the counts are neither
  scanned nor copied. The row reader instead uses `Dimension.End.Row`
  (`Utils.cs:17`).
- The scan's `break` leaves only the column loop, so the scan goes on to the
  rows above, and the "Generated:" row with the smallest number sets the last
  data row.
- The skippable-row test reads column A (`ReportGenerator.cs:117-119`).
- The skip threshold is the generator's constructor argument
  `invalidRowsBetweenOrders` (`ReportGenerator.cs:26-30`); `Program.cs` passes
  10 (`Program.cs:15`, `Program.cs:141`).
- A `P` cell that holds an empty or blank string is not null
  (`ReportGenerator.cs:138-141`), so it reaches `Geography.IsCity`, which
  fails for it.

## Model

| member | source | states |
|---|---|---|
| Cells.MidnightText | FoodPantryParser/ReportGenerator.cs:127 | A date value's text ends with its time of day, as `DateTime.ToString()` does; midnight is "12:00:00 AM". |
| Cells.OneInTheMorningText | FoodPantryParser/ReportGenerator.cs:127 | One hour after midnight is "1:00:00 AM", so a date in column B at 01:00 gives a different agency name from the same day at midnight. |
| ExcelRowIterator.GetExcelColumnName | FoodPantryParser/SpreadsheetUtilities/Utils.cs:55-65 | The while loop yields the bijective base-26 name of every positive column number, and "" for zero or a negative number. |
| ExcelRowIterator.ColumnNameLetters | FoodPantryParser/SpreadsheetUtilities/Utils.cs:55-65 | A column name consists only of 'A'..'Z', and it is non-empty exactly when the column is at least 1. |
| ExcelRowIterator.ColumnNumberOfName | FoodPantryParser/SpreadsheetUtilities/Utils.cs:55-65 | Reading a column name back as bijective base-26 gives the column number again. |
| ExcelRowIterator.ColumnNameOfNumber | FoodPantryParser/SpreadsheetUtilities/Utils.cs:55-65 | Every string of capital letters is the name of the column it decodes to, so the encoding is onto. |
| ExcelRowIterator.ColumnNameInjective | FoodPantryParser/SpreadsheetUtilities/Utils.cs:55-65 | Two columns with the same name are the same column. |
| ExcelRowIterator.ColumnNameExamples | FoodPantryParser/SpreadsheetUtilities/Utils.cs:55-65 | 1→A, 2→B, 26→Z, 27→AA, 52→AZ, 53→BA, 702→ZZ, 703→AAA. |
| ExcelRowIterator.ReadRows | FoodPantryParser/SpreadsheetUtilities/Utils.cs:13-52 | Definition of what the reader yields; its meaning is stated by NonEmptyRowsSpec, RowDataKeys and RowDataValues. |
| ExcelRowIterator.ReadRowsFromExcel | FoodPantryParser/SpreadsheetUtilities/Utils.cs:13-52 | The loop gives a null-dereference failure when the sheet has no used range. Otherwise it gives one dictionary per non-empty row from `startRow` (default 15) to the last used row, in row order. |
| ExcelRowIterator.RowsStep | FoodPantryParser/SpreadsheetUtilities/Utils.cs:21-49 | Scanning one more row appends that row's dictionary when the row holds a value, and appends nothing when it is empty. |
| ExcelRowIterator.NonEmptyRowsSpec | FoodPantryParser/SpreadsheetUtilities/Utils.cs:21-39 | The rows are visited in strictly ascending order. A row is yielded iff it lies in the range and one of columns 1..endCol is non-null, so empty rows are skipped and scanning goes on. |
| ExcelRowIterator.RowDataKeys | FoodPantryParser/SpreadsheetUtilities/Utils.cs:42-47 | A yielded row has exactly the keys name(1)..name(endCol). |
| ExcelRowIterator.RowDataValues | FoodPantryParser/SpreadsheetUtilities/Utils.cs:42-47 | Key name(c) of a yielded row maps to the value of cell (row, c). |
| ExcelRowIterator.LetterPrefixLength | FoodPantryParser/SpreadsheetUtilities/Utils.cs:67-71 | Splitting an address finds the maximal run of capital letters at its start. |
| ExcelRowIterator.GetCellValue | FoodPantryParser/SpreadsheetUtilities/Utils.cs:67-71 | Definition: the cell at the address's row and column, or an argument failure for an address that is not letters then digits; its meaning is stated by LetterPrefixLength, GetCellValueAt and GetCellValueExamples. |
| ExcelRowIterator.GetCellValueAt | FoodPantryParser/SpreadsheetUtilities/Utils.cs:67-71 | The address made of name(col) followed by the row number reads cell (row, col). |
| ExcelRowIterator.GetCellValueExamples | FoodPantryParser/SpreadsheetUtilities/Utils.cs:67-71 | "B12" reads row 12, column 2. |
| WeekdayCalendar.GetWeekdaysInMonth | FoodPantryParser/ReportModels/WeekdayCalendar.cs:11-29 | It fails exactly when the month and year are not a valid `DateTime` month whose next month also exists (the constructor or `AddMonths` throws). |
| WeekdayCalendar.GetWeekdaysInMonthSpec | FoodPantryParser/ReportModels/WeekdayCalendar.cs:16-26 | Every returned date is at midnight, in the given month and year, within the month's days, and is neither a Saturday nor a Sunday. The list is strictly ascending, so it has no duplicates. Every Monday–Friday of the month is in it. |
| WeekdayCalendar.WeekdaysUpToSpec | FoodPantryParser/ReportModels/WeekdayCalendar.cs:22-26 | Scanning days 1..k keeps exactly the weekdays among them, in ascending day order. |
| WeekdayCalendar.PrefixGrows | FoodPantryParser/ReportModels/WeekdayCalendar.cs:22-26 | Scanning more days of the month only appends dates. |
| WeekdayCalendar.FirstWeekday | FoodPantryParser/ReportModels/WeekdayCalendar.cs:22-26 | When the 1st is a weekday, it is the first date returned. |
| WeekdayCalendar.LeapYearDays | FoodPantryParser/ReportModels/WeekdayCalendar.cs:19 | February has 29 days exactly in leap years: 2024 and 2000 have 29, 1900 and 2023 have 28. April has 30 days and December 31. |
| WeekdayCalendar.February2024DayOfWeek | FoodPantryParser/ReportModels/WeekdayCalendar.cs:24-25 | Day d of February 2024 falls on weekday (d + 3) mod 7. The 1st and the 29th are Thursdays. |
| WeekdayCalendar.February2024Count | FoodPantryParser/ReportModels/WeekdayCalendar.cs:22-26 | Days 1..k of February 2024 hold k minus their weekend days in weekdays. |
| WeekdayCalendar.February2024 | FoodPantryParser/ReportModels/WeekdayCalendar.cs:11-29 | February 2024 gives 21 dates, from Thursday 1 February to Thursday 29 February. |
| Geography.IsCity | FoodPantryParser/SpreadsheetModels/Geography.cs:12-19 | ArgumentNull iff the input is null, empty or whitespace only. Argument iff it is not blank and its lowercase form is neither "city" nor "county". true iff the lowercase form is "city", false iff it is "county". |
| Geography.IsCityCaseInvariant | FoodPantryParser/SpreadsheetModels/Geography.cs:16-18 | Inputs with the same lowercase form get the same outcome. |
| Geography.NoTrimming | FoodPantryParser/SpreadsheetModels/Geography.cs:16 | A non-blank input that starts with whitespace is rejected with ArgumentException, so " city" fails. |
| Geography.BlankUnderLower | FoodPantryParser/SpreadsheetModels/Geography.cs:14-16 | Lower-casing keeps a string blank or non-blank. |
| Geography.BlankIsNoPlace | FoodPantryParser/SpreadsheetModels/Geography.cs:14-16 | A blank string is neither "city" nor "county", so the two error cases never overlap. |
| Geography.IsCityExamples | FoodPantryParser/SpreadsheetModels/Geography.cs:14-18 | "City" → true, "COUNTY" → false, "Town" and " city" → ArgumentException, null, "" and " \t" → ArgumentNullException. |
| DailyReports.DailyReport.constructor | FoodPantryParser/ReportModels/DailyReport.cs:11-24 | `ReportDate` is the argument, and every sum starts at 0. |
| DailyReports.TallyOfSnoc | FoodPantryParser/ReportGenerator.cs:227-240 | Adding one more order to the sums adds 1 order, its adults and children, and 1 for each of its voucher and new-client flags. |
| OrderExtraction.OrderDateIsB12 | FoodPantryParser/ReportGenerator.cs:125 | The order date is the value of cell (12, 2), and reading it succeeds iff that cell holds a date. |
| OrderExtraction.CreateOrderFromRowSpec | FoodPantryParser/ReportGenerator.cs:121-144 | A row becomes an order iff all of these hold: B12 is a date; the row has columns B, F, L, M, N, O, P; F parses as a long; B is non-null; L and M convert to int32; a non-null P is "city" or "county" ignoring case. The order then has the date of B12, the number parsed from F and the text of B. Adults and children are L and M. HasVoucher iff N is non-null, IsNewClient iff O is non-null. IsCity iff P is non-null and lowercases to "city". |
| OrderExtraction.DateFailsFirst | FoodPantryParser/ReportGenerator.cs:125 | When B12 is not a date, building the order fails whatever the row holds: with a null dereference if B12 is null, with an invalid cast otherwise. |
| OrderExtraction.ShouldStopProcessing | FoodPantryParser/ReportGenerator.cs:115 | Definition: the counter is above the threshold. Its effect on the loop is stated by ThresholdSkipsThenOrder, ThresholdPlusOneSkipsStop and StopPointSpec. |
| OrderExtraction.IsSkippableRow | FoodPantryParser/ReportGenerator.cs:117-119 | Definition: column A is null or its text starts with "I acknowledge receipt"; a row without column A fails. Its effect on the loop is stated by SkipRun and CollectOrders. |
| OrderExtraction.CreateOrderFromRow | FoodPantryParser/ReportGenerator.cs:121-144 | Definition, in the source's order of evaluation; its meaning is stated by CreateOrderFromRowSpec and DateFailsFirst. |
| OrderExtraction.Extract | FoodPantryParser/ReportGenerator.cs:158-173 | Definition of the loop over the remaining rows; its meaning is stated by ExtractIsCollect, StopPointSpec, CollectOk and CollectOrders. |
| OrderExtraction.ExtractOrders | FoodPantryParser/ReportGenerator.cs:158-173 | The `foreach` loop with its counter gives what `Extract` describes. The stop test comes before each row is classified. A skippable row adds 1 to the counter, an extracted row resets it to 0, and the first exception ends the loop. |
| OrderExtraction.SkipRun | FoodPantryParser/ReportGenerator.cs:162-169 | A run of k skippable rows that does not reach the stop test only adds k to the counter. |
| OrderExtraction.ThresholdSkipsThenOrder | FoodPantryParser/ReportGenerator.cs:115 | Exactly T skippable rows and then a valid row still extract that row's order, and scanning goes on with the counter at 0. |
| OrderExtraction.ThresholdPlusOneSkipsStop | FoodPantryParser/ReportGenerator.cs:162-163 | T+1 skippable rows at the start stop the loop with no orders, whatever rows follow. |
| OrderExtraction.ExtractedOrders | FoodPantryParser/ReportGenerator.cs:158-173 | A successful extraction yields at most one order per row. Each order is built from one of the rows and carries the date of B12. The converse, that every row before the stop that is not skippable yields its order in row order, is ExtractIsCollect with CollectOrders. |
| OrderExtraction.StopPoint | FoodPantryParser/ReportGenerator.cs:160-163 | The number of rows the loop looks at is at most the number of rows; StopPointSpec states where it stops. |
| OrderExtraction.StopPointSpec | FoodPantryParser/ReportGenerator.cs:160-169 | The loop looks at rows up to the first row at which the counter, a skippable row adding 1 and any other row resetting it to 0, is above the threshold, or at all the rows when there is no such row. |
| OrderExtraction.ExtractIsCollect | FoodPantryParser/ReportGenerator.cs:158-173 | The extraction equals the collection of exactly the rows before the stop: the stop depends only on which rows are skippable, and every row before it is converted. |
| OrderExtraction.Collect | FoodPantryParser/ReportGenerator.cs:164-172 | Definition: skippable rows dropped, every other row converted, the first failure escaping; its meaning is stated by CollectOk and CollectOrders. |
| OrderExtraction.CollectOk | FoodPantryParser/ReportGenerator.cs:164-172 | Collecting succeeds iff every row has column A and every row that is not skippable converts into an order. |
| OrderExtraction.CollectOrders | FoodPantryParser/ReportGenerator.cs:164-172 | A successful collection has exactly one order per row that is not skippable. The order of row i is that row's `CreateOrderFromRow` result, placed after the orders of the non-skippable rows before it, so the orders come in row order. |
| OrderExtraction.ExtractAllOrderRows | FoodPantryParser/ReportGenerator.cs:158-173 | With a threshold of at least 0 and rows that are all order rows, none skippable and each converting, the extraction succeeds and its i-th order is row i's order. |
| OrderExtraction.RowOrdersFromRows | FoodPantryParser/ReportGenerator.cs:165-172 | Each such order comes from a row that is not skippable. |
| OrderExtraction.ReaderRowsHaveOrderColumns | FoodPantryParser/SpreadsheetUtilities/Utils.cs:42-47 | Every row the reader yields from a sheet at least 16 columns wide has all the columns that extraction indexes (A, B, F, L–P). |
| OrderExtraction.ColumnNameExamplesAtoP | FoodPantryParser/ReportGenerator.cs:118-138 | The letters extraction indexes are columns 1, 2, 6 and 12–16. |
| ByDateReports.IndexOfName | FoodPantryParser/ReportGenerator.cs:350 | The index of the first report with the name, or the length of the list when there is none. |
| ByDateReports.FindReport | FoodPantryParser/ReportGenerator.cs:350 | `FirstOrDefault`: the result is the first report whose agency name matches, or "none" when no report matches. |
| ByDateReports.NewReport | FoodPantryParser/ReportGenerator.cs:353-369 | A new report carries the order's agency name, number and date, and the sums of that one order. |
| ByDateReports.AddToReport | FoodPantryParser/ReportGenerator.cs:372-376 | `+=` adds the order's contribution to the existing report and keeps its agency and date. |
| ByDateReports.CreateByDateReport | FoodPantryParser/ReportGenerator.cs:340-378 | For a non-empty order list the loop builds distinct new reports. Their values are exactly the fold `FoldReports` of the orders. |
| ByDateReports.FoldStepNew | FoodPantryParser/ReportGenerator.cs:353-370 | An order of an agency not seen yet appends a report for it, and the fold keeps its meaning. |
| ByDateReports.FoldStepExisting | FoodPantryParser/ReportGenerator.cs:372-376 | An order of an agency already seen updates that agency's report, and the fold keeps its meaning. |
| ByDateReports.FoldReports | FoodPantryParser/ReportGenerator.cs:346-378 | Definition of the fold over the orders; its meaning is stated by FoldReportsSpec, AgencyNamesSpec and FoldReportsCountsEveryOrder. |
| ByDateReports.FoldReportsSpec | FoodPantryParser/ReportGenerator.cs:346-378 | Report i belongs to the i-th distinct agency in order of first appearance. It holds that agency's first order's number and date and the sums over all the agency's orders. |
| ByDateReports.AgencyNamesSpec | FoodPantryParser/ReportGenerator.cs:350-370 | The agencies that get reports are distinct and are exactly the agencies of the orders. |
| ByDateReports.WithNameAbsent | FoodPantryParser/ReportGenerator.cs:350-370 | An agency that gets no report has no orders. |
| ByDateReports.NamesOfFold | FoodPantryParser/ReportGenerator.cs:350-370 | Report i carries the i-th agency name. |
| ByDateReports.FoldReportsCountsEveryOrder | FoodPantryParser/ReportGenerator.cs:346-378 | The SumOrders of all the reports add up to the number of orders. |
| ByDateReports.ByDateReportsSpec | FoodPantryParser/ReportGenerator.cs:344-378 | There is one report per distinct agency name, in order of first appearance. Each has the agency's first agency number and the sums over exactly that agency's orders, and its SumAdultsChildren is their adults plus children. The SumOrders add up to `orders.Count`. |
| ByAgencyReports.StrLessIrreflexive | FoodPantryParser/ReportGenerator.cs:193 | No name sorts before itself. |
| ByAgencyReports.StrLessTransitive | FoodPantryParser/ReportGenerator.cs:193 | The name order is transitive. |
| ByAgencyReports.StrLessTotal | FoodPantryParser/ReportGenerator.cs:193 | Of two different names, one sorts first. |
| ByAgencyReports.InsertSpec | FoodPantryParser/ReportGenerator.cs:190-194 | Inserting a new name into an ascending list keeps it ascending and adds exactly that name. |
| ByAgencyReports.SortIntoSpec | FoodPantryParser/ReportGenerator.cs:190-194 | Sorting distinct names into an ascending list gives an ascending list of exactly the names of both. |
| ByAgencyReports.SortedNames | FoodPantryParser/ReportGenerator.cs:190-194 | Definition: the agency names sorted by insertion; its meaning is stated by SortedNamesSpec and SortedNameGroup. |
| ByAgencyReports.SortedNamesSpec | FoodPantryParser/ReportGenerator.cs:190-194 | The groups' names are strictly ascending, and they are exactly the agency names that occur among the orders. |
| ByAgencyReports.SortedNameGroup | FoodPantryParser/ReportGenerator.cs:190-194 | The group of each sorted name is non-empty and headed by an order of that name. |
| ByAgencyReports.WithNamePresent | FoodPantryParser/ReportGenerator.cs:190-192 | An agency with an order has a non-empty group. |
| ByAgencyReports.WithNameNames | FoodPantryParser/ReportGenerator.cs:190-192 | Every order of a group has the group's name. |
| ByAgencyReports.SumDateOrders | FoodPantryParser/ReportGenerator.cs:217-241 | The loop's sums are the number of the date's orders, their adults, their children and the counts of voucher and new-client flags. All are 0 when there are no orders. |
| ByAgencyReports.MakeReport | FoodPantryParser/ReportGenerator.cs:244-253 | The new report carries the date, the group's agency and the computed sums. |
| ByAgencyReports.AgencyReports | FoodPantryParser/ReportGenerator.cs:210-256 | There is one new report per expected date, in date order. Each carries the group's first order's agency number and name, the date, and the sums over the group's orders dated exactly on it. |
| ByAgencyReports.OtherDatesIgnored | FoodPantryParser/ReportGenerator.cs:198-214 | Orders dated on other days add nothing to an (agency, date) report. |
| ByAgencyReports.OnDateEmpty | FoodPantryParser/ReportGenerator.cs:214 | A date on which the group has no order finds no orders. |
| ByAgencyReports.NoOrdersNoSums | FoodPantryParser/ReportGenerator.cs:216-241 | A date without orders of the agency gets a report with all sums 0. |
| ByAgencyReports.FirstReportName | FoodPantryParser/ReportGenerator.cs:257 | The name checked for illegal characters, `reports[0].AgencyName`, is the group's agency name. |
| ByAgencyReports.HasIllegalCharacters | FoodPantryParser/ReportGenerator.cs:273-284 | true iff some character of the name is among the invalid file-name characters. |
| ByAgencyReports.LegalPrefix | FoodPantryParser/ReportGenerator.cs:257-262 | The number of leading names that are legal file names. The name after them, if any, is illegal. |
| ByAgencyReports.LegalPrefixStep | FoodPantryParser/ReportGenerator.cs:257-262 | Within the legal prefix, a legal name extends it and an illegal one ends it. |
| ByAgencyReports.CreateByAgencyReport | FoodPantryParser/ReportGenerator.cs:185-271 | With no expected dates, any agency makes `reports[0]` fail. Otherwise, taking agencies in ascending name order, their report lists are written until the first agency whose name has an illegal character, and that agency's failure is returned. List g satisfies what `AgencyReports` promises for the g-th agency. |
| SummaryInfo.ItemDatesSpec | FoodPantryParser/ReportGenerator.cs:436 | The order dates with their time of day removed. |
| SummaryInfo.FindMissingDates | FoodPantryParser/ReportGenerator.cs:433-444 | Definition; its meaning is stated by FindMissingDatesSpec and MissingWeekdays. |
| SummaryInfo.FindMissingDatesSpec | FoodPantryParser/ReportGenerator.cs:433-444 | The result is the expected dates, in their order, whose day holds no order, and nothing else. |
| SummaryInfo.MissingWeekdays | FoodPantryParser/ReportGenerator.cs:433-444 | For a month's expected dates, a day is missing iff it is a weekday of the month and no order falls on it. |
| SummaryInfo.SummaryOf | FoodPantryParser/ReportGenerator.cs:407-431 | Definition of the summary's figures; their meaning is stated by SummaryTotals and FindMissingDatesSpec. |
| SummaryInfo.SummaryTotals | FoodPantryParser/ReportGenerator.cs:413-416 | Total Persons is Σ adults + Σ children. The city orders are exactly the orders with IsCity, and there are no more of them than orders. With non-negative counts, 0 ≤ Total City Persons ≤ Total Persons. |
| ReportPasses.ReadFileOrders | FoodPantryParser/ReportGenerator.cs:152-172 | One form in the by-agency pass: open it, take its first worksheet, read its rows from row 15 and extract its orders. |
| ReportPasses.ReadAgencySheet | FoodPantryParser/ReportGenerator.cs:454-478 | One form in the all-agency pass: the sheet date from B12, then the orders. |
| ReportPasses.ReadDateSheet | FoodPantryParser/ReportGenerator.cs:294-321 | One form in the by-date pass: B12, the new clients in C10, the vouchers in E10, then the orders. |
| ReportPasses.SheetOrdersShareDate | FoodPantryParser/ReportGenerator.cs:459 | Every order of a sheet has the sheet's date. A form the by-date pass reads also reads in the all-agency pass, with the same orders and date. |
| ReportPasses.GenerateAllAgencyReportData | FoodPantryParser/ReportGenerator.cs:446-490 | There is one entry per form, in listing order. A form that fails does not stop the pass. |
| ReportPasses.GenerateByAgencyReportData | FoodPantryParser/ReportGenerator.cs:146-183 | The first failing form ends the pass with no reports. Otherwise the orders of all forms go to `CreateByAgencyReport`, with all that it promises. |
| ReportPasses.Digits | FoodPantryParser/ReportGenerator.cs:345 | A fixed-width rendering always has the width. |
| ReportPasses.DigitsInjective | FoodPantryParser/ReportGenerator.cs:345 | Numbers below 10^width get different fixed-width renderings. |
| ReportPasses.ReportPathDay | FoodPantryParser/ReportGenerator.cs:381 | Two daily reports get the same `yyyyMMdd.xlsx` path exactly when their dates fall on the same day. |
| ReportPasses.ReportRows | FoodPantryParser/SpreadsheetUtilities/ByDateExcelReportGenerator.cs:48-68 | One row of values per report, with one value per `DailyReport` property. |
| ReportPasses.ReadForm | FoodPantryParser/ReportGenerator.cs:294-321 | The loop body's reading of form i is that form's reading. |
| ReportPasses.ReportData | FoodPantryParser/SpreadsheetUtilities/ByDateExcelReportGenerator.cs:48-68 | Reading the property values of the reports one at a time gives their rows. |
| ReportPasses.WriteDayFile | FoodPantryParser/ReportGenerator.cs:340-392 | A form fails when its reading failed, when it has no orders (`orders[0]`) or when its path is taken. Otherwise it writes, to the path of its first order's date, the layout of its folded reports. |
| ReportPasses.NextFileSpec | FoodPantryParser/ReportGenerator.cs:344-381 | A written file comes from a successful reading. Its path is the date's path and was not taken before. |
| ReportPasses.WriteDayFiles | FoodPantryParser/ReportGenerator.cs:292-327 | The loop over the forms writes the files the pass describes, stops at the first failure and returns the running totals. |
| ReportPasses.FailureEndsPass | FoodPantryParser/ReportGenerator.cs:332-336 | Once a form has failed, the later forms change nothing. |
| ReportPasses.ByDatePassPaths | FoodPantryParser/SpreadsheetUtilities/ByDateExcelReportGenerator.cs:83-87 | Every written path was free when it was written. The set of taken paths only grows and contains every written path. |
| ReportPasses.ByDatePassTotals | FoodPantryParser/ReportGenerator.cs:299-325 | Without a failure every form writes one file, and `allOrders` is all the forms' orders. |
| ReportPasses.DistinctDays | FoodPantryParser/SpreadsheetUtilities/ByDateExcelReportGenerator.cs:83-87 | No two daily report files of one pass are for the same day. |
| ReportPasses.GenerateByDateReportData | FoodPantryParser/ReportGenerator.cs:286-338 | The pass writes the files and their layouts. The summary comes only when no form failed: forms processed, vouchers, new clients, orders, persons, city figures and missing dates. |
| ByDateReportLayout.IsNumericTypeSpec | FoodPantryParser/SpreadsheetUtilities/ByDateExcelReportGenerator.cs:117-123 | Numeric iff int, long, float, double or decimal, or the nullable form of one of them. string, DateTime, bool, bool? and doubly wrapped types are not. |
| ByDateReportLayout.PropertyValues | FoodPantryParser/SpreadsheetUtilities/ByDateExcelReportGenerator.cs:48-68 | A report gives one value per property. |
| ByDateReportLayout.GetExcelColumnName | FoodPantryParser/SpreadsheetUtilities/ByDateExcelReportGenerator.cs:125-135 | The second copy of the encoder computes the same names as the one in Utils.cs. |
| ByDateReportLayout.FormulasStep | FoodPantryParser/SpreadsheetUtilities/ByDateExcelReportGenerator.cs:94-104 | Each column of the totals loop adds a formula exactly when it is summed. |
| ByDateReportLayout.AnySummedSpec | FoodPantryParser/SpreadsheetUtilities/ByDateExcelReportGenerator.cs:93-106 | The `hasTotals` flag is set iff some column up to n is summed. |
| ByDateReportLayout.AddTotalsRow | FoodPantryParser/SpreadsheetUtilities/ByDateExcelReportGenerator.cs:91-115 | On the totals row, exactly the numeric columns other than AgencyNumber get `SUM(X4:X{row−1})`. `hasTotals` holds iff at least one formula was written. |
| ByDateReportLayout.WrittenStep | FoodPantryParser/SpreadsheetUtilities/ByDateExcelReportGenerator.cs:31-68 | Each header or data cell write keeps the written cells equal to the grid up to the current cell. |
| ByDateReportLayout.WrittenRow | FoodPantryParser/SpreadsheetUtilities/ByDateExcelReportGenerator.cs:48-68 | A finished row moves the writing to the next row. |
| ByDateReportLayout.LayoutDone | FoodPantryParser/SpreadsheetUtilities/ByDateExcelReportGenerator.cs:74-77 | The grid, the totals row, the "Totals" label and the timestamp on row+2 make up the whole layout. |
| ByDateReportLayout.CreateReport | FoodPantryParser/SpreadsheetUtilities/ByDateExcelReportGenerator.cs:14-89 | It fails iff the target file exists, as `DuplicateFile`, before saving. Otherwise it writes exactly: the title in A1; the headers on row 3; item k on row 4+k in property order; the totals formulas; "Totals" in column 1 iff a column is summed; "Generated: …" two rows below the totals row. |
| ByDateReportLayout.DailyReportSummed | FoodPantryParser/SpreadsheetUtilities/ByDateExcelReportGenerator.cs:94-101 | Of `DailyReport`'s properties, exactly columns 4–9 (SumOrders … SumNewClients) are summed. AgencyNumber, AgencyName and ReportDate are not. |
| ByDateReportLayout.DailyReportTotals | FoodPantryParser/SpreadsheetUtilities/ByDateExcelReportGenerator.cs:101 | A daily report has a totals row, with formulas such as `SUM(D4:D{3+n})` for n reports. |
| CombinerSheets.DecodeDate | FoodPantryParser/SpreadsheetUtilities/ExcelCombiner.cs:168-191 | Definition of the three decoders tried in turn; its meaning is stated by DecodeDateOrder. |
| CombinerSheets.DecodeDateOrder | FoodPantryParser/SpreadsheetUtilities/ExcelCombiner.cs:168-191 | Null decodes to nothing and a native date stays as it is. A number, in a number cell or as text, goes only to the serial conversion, even when that conversion fails. Only text that is not a number reaches the date parser. |
| CombinerSheets.ClassifySums | FoodPantryParser/SpreadsheetUtilities/ExcelCombiner.cs:122-137 | A header joins the sum columns iff it starts with "Sum" ignoring case. This includes "SumOrders", and "ReportDate" cannot. |
| CombinerSheets.ScanHeadersDate | FoodPantryParser/SpreadsheetUtilities/ExcelCombiner.cs:113-139 | The date column is the last column headed "ReportDate", or −1 when there is none. |
| CombinerSheets.ScanHeadersOrders | FoodPantryParser/SpreadsheetUtilities/ExcelCombiner.cs:113-139 | The orders column is the last column headed "SumOrders", or −1 when there is none. |
| CombinerSheets.ScanHeadersSums | FoodPantryParser/SpreadsheetUtilities/ExcelCombiner.cs:113-139 | The sum columns are ascending and are exactly the columns with a Sum-kind header. They include the orders column. |
| CombinerSheets.SheetSumColumns | FoodPantryParser/SpreadsheetUtilities/ExcelCombiner.cs:117-137 | The sum columns are exactly the columns whose trimmed row-3 header starts with "Sum" ignoring case. |
| CombinerSheets.FirstSentinelSpec | FoodPantryParser/SpreadsheetUtilities/ExcelCombiner.cs:146-159 | The smallest row in lo..hi holding a cell in columns 1..cols that starts with "Generated:", or none when no row in lo..hi holds one. |
| CombinerSheets.LastDataRowSpec | FoodPantryParser/SpreadsheetUtilities/ExcelCombiner.cs:146-159 | Here `rows` is `Dimension.Rows`, the used range's row count. With no sentinel in rows 4..rows in columns 1..cols, the last data row is `rows`. Otherwise it is one above the smallest sentinel row. |
| CombinerSheets.RecordRowsLastWrite | FoodPantryParser/SpreadsheetUtilities/ExcelCombiner.cs:161-216 | For each date, the file's entry holds the SumOrders of the last row with that date, with an unparseable value counting as 0. A date on no row keeps its previous entries. |
| CombinerSheets.RecordRowsOthers | FoodPantryParser/SpreadsheetUtilities/ExcelCombiner.cs:205-209 | Recording a file leaves the other files' entries as they were. |
| CombinerSheets.RecordRowsNonZero | FoodPantryParser/SpreadsheetUtilities/ExcelCombiner.cs:212-215 | `NonZeroSumOrdersCount` grows by the number of dated rows whose recorded value is not 0. |
| CombinerSheets.MergeTotalsMeaning | FoodPantryParser/SpreadsheetUtilities/ExcelCombiner.cs:242-250 | Each sum column's shared total grows by the file's total, starting from 0 for a new column. The other shared totals stay, and no other column gets a total. |
| CombinerSheets.MergeFileTotals | FoodPantryParser/SpreadsheetUtilities/ExcelCombiner.cs:224-250 | Each sum column's shared total grows by the sum of the parseable values in rows 4..lastDataRow. Non-sum columns never get a total. |
| CombinerSheets.CopyRowsCells | FoodPantryParser/SpreadsheetUtilities/ExcelCombiner.cs:268-332 | Source row r of a column goes to destination row `startRow + (r−4) + 1`. Nothing outside that column's data rows changes. |
| CombinerSheets.CopyColumnCells | FoodPantryParser/SpreadsheetUtilities/ExcelCombiner.cs:255-334 | A copied column has its row-3 header on the header row and its data rows below, and changes no cell outside its column of the block. |
| CombinerSheets.CopyColumnsOutside | FoodPantryParser/SpreadsheetUtilities/ExcelCombiner.cs:255-334 | Copying a block changes no cell outside the block. |
| CombinerSheets.CopyColumnsData | FoodPantryParser/SpreadsheetUtilities/ExcelCombiner.cs:268-332 | Every data cell of the block is at its place, holding the copied value or, in the date column, the decoded date. |
| CombinerSheets.CopyColumnsHeaders | FoodPantryParser/SpreadsheetUtilities/ExcelCombiner.cs:259-260 | Every header of the block is on the block's header row. |
| CombinerSheets.CopyRowsKeys | FoodPantryParser/SpreadsheetUtilities/ExcelCombiner.cs:273-299 | Row keys already mapped keep their rows and dates. Only the date column maps the new row keys. Every dated row key stays mapped. |
| CombinerSheets.CopyColumnsKeys | FoodPantryParser/SpreadsheetUtilities/ExcelCombiner.cs:273-299 | After a block, every data row of a block with a date column has its row key mapped. Each new key comes from one of the block's rows, and the existing keys are unchanged. |
| CombinerSheets.RowKeyInjective | FoodPantryParser/SpreadsheetUtilities/ExcelCombiner.cs:273 | `currentColumn*10000 + r` identifies the block and row for rows below 10000. |
| CombinerSheets.RowKeySeparatedBlocks | FoodPantryParser/SpreadsheetUtilities/ExcelCombiner.cs:273 | Blocks of a run are at least two columns apart, so for blocks that far apart a row 4..20003 of the left block never shares a key with a data row of the right one. |
| CombinerSheets.RowKeyCollision | FoodPantryParser/SpreadsheetUtilities/ExcelCombiner.cs:273 | From row 20004 of a block on, keys stop identifying blocks: a one-column sheet at column 1 puts the next block at column 3, and its row 20004 has the key of row 4 of that block. |
| CombinerSheets.SilentFileBlocksZeroDays | FoodPantryParser/SpreadsheetUtilities/ExcelCombiner.cs:394-395 | A listed file with no entry for any date rules out every zero day. |
| CombinerSheets.ZeroDates | FoodPantryParser/SpreadsheetUtilities/ExcelCombiner.cs:378-399 | Definition of the universal zero days; their meaning is stated by ZeroDatesAtMidnight, SilentFileBlocksZeroDays and CalculateZeroDates. |
| CombinerSheets.ZeroDatesAtMidnight | FoodPantryParser/SpreadsheetUtilities/ExcelCombiner.cs:378-399 | Zero days are taken with `.Date`, so each is a midnight. |
| Combiner.WriteTotalsRowSpec | FoodPantryParser/SpreadsheetUtilities/ExcelCombiner.cs:345-354 | The totals row holds each sum column's total under that column's destination column. Nothing outside the block's span of that row changes. |
| Combiner.SheetStep | FoodPantryParser/SpreadsheetUtilities/ExcelCombiner.cs:113-360 | Definition of one sheet's effect on the state; its meaning is stated by SheetStepLayout, and ProcessSheet is proved against it. |
| Combiner.SheetStepLayout | FoodPantryParser/SpreadsheetUtilities/ExcelCombiner.cs:336-360 | A block leaves every cell outside its own columns as it was, the separator column after it included. The next block starts at `column + cols + 1`, or stays put after an abandoned file. Only the block at column 1 moves the totals label. |
| Combiner.RunFiles | FoodPantryParser/SpreadsheetUtilities/ExcelCombiner.cs:69-369 | Definition of the files processed in listing order; its meaning is stated by RunFilesLayout, RunFilesOtherNames, RunFilesSuffix and SkippedFileBlocksZeroDays, and RunAll is proved against it. |
| Combiner.RunFilesLayout | FoodPantryParser/SpreadsheetUtilities/ExcelCombiner.cs:69-369 | After all files the column is positive. The label is where it was or in column 1, and every dated row key has a destination row. |
| Combiner.RunFilesOtherNames | FoodPantryParser/SpreadsheetUtilities/ExcelCombiner.cs:205-209 | Files with other names never record anything under a name. |
| Combiner.RunFilesSuffix | FoodPantryParser/SpreadsheetUtilities/ExcelCombiner.cs:71-369 | Processing the files equals processing a prefix and then continuing with the rest. |
| Combiner.SkippedFileBlocksZeroDays | FoodPantryParser/SpreadsheetUtilities/ExcelCombiner.cs:371-405 | A listed file that is skipped (it does not open, or its sheet is empty) and whose name is unique leaves no zero days and no marked rows. |
| Combiner.ReadHeaders | FoodPantryParser/SpreadsheetUtilities/ExcelCombiner.cs:113-139 | The loop over row 3 finds what the header scan describes. |
| Combiner.RowHasSentinel | FoodPantryParser/SpreadsheetUtilities/ExcelCombiner.cs:149-158 | The inner loop finds whether a cell of the row starts with "Generated:". |
| Combiner.FindLastDataRow | FoodPantryParser/SpreadsheetUtilities/ExcelCombiner.cs:146-159 | The upward scan gives `LastDataRow`, with the meaning `LastDataRowSpec` states. |
| Combiner.ZeroTotals | FoodPantryParser/SpreadsheetUtilities/ExcelCombiner.cs:224-228 | Every sum column starts at 0, and no other column has a total. |
| Combiner.AddRow | FoodPantryParser/SpreadsheetUtilities/ExcelCombiner.cs:232-239 | Each sum column's total grows by the row's parseable value, 0 for anything else. |
| Combiner.FileColumnTotals | FoodPantryParser/SpreadsheetUtilities/ExcelCombiner.cs:224-240 | The file's totals are the column sums over rows 4..lastDataRow, as `MergeFileTotals` uses them. |
| Combiner.CalculateZeroDates | FoodPantryParser/SpreadsheetUtilities/ExcelCombiner.cs:371-405 | A day is a zero day iff one of the table's dates on that day has, for every listed file name (skipped files included), an entry equal to 0. |
| Combiner.SharedProcessingState.constructor | FoodPantryParser/SpreadsheetUtilities/ExcelCombiner.cs:9-19 | A new shared state has an empty date table and totals, a zero counter and no zero days. |
| Combiner.SharedProcessingState.RecordDates | FoodPantryParser/SpreadsheetUtilities/ExcelCombiner.cs:161-222 | The loop over rows 4..lastDataRow records the file's dated rows. The totals and zero days are untouched. |
| Combiner.SharedProcessingState.RecordValue | FoodPantryParser/SpreadsheetUtilities/ExcelCombiner.cs:205-215 | It sets `table[date][file]`, creating the inner dictionary when needed, and counts a non-zero value. |
| Combiner.SharedProcessingState.ProcessData | FoodPantryParser/SpreadsheetUtilities/ExcelCombiner.cs:161-250 | The date table changes only when both the date and the orders column were found. The file's totals are computed and merged into the shared totals. |
| Combiner.SharedProcessingState.MergeColumnTotals | FoodPantryParser/SpreadsheetUtilities/ExcelCombiner.cs:242-250 | Each file total is added to the shared total. The date table is untouched. |
| Combiner.SharedProcessingState.AddToColumn | FoodPantryParser/SpreadsheetUtilities/ExcelCombiner.cs:244-249 | `ColumnTotals[colIdx] += value`, starting from 0 for a new column. Nothing else changes. |
| Combiner.ExcelCombiner.constructor | FoodPantryParser/SpreadsheetUtilities/ExcelCombiner.cs:23-29 | The label position starts at (−1, −1), and the maps and the sheet start empty. |
| Combiner.ExcelCombiner.CopyCellAt | FoodPantryParser/SpreadsheetUtilities/ExcelCombiner.cs:268-331 | The copy of one source cell, with its row-key bookkeeping in the date column. |
| Combiner.ExcelCombiner.CopyBlock | FoodPantryParser/SpreadsheetUtilities/ExcelCombiner.cs:252-334 | The nested loop copies the block column by column, giving what the copy lemmas describe. |
| Combiner.ExcelCombiner.WriteTotals | FoodPantryParser/SpreadsheetUtilities/ExcelCombiner.cs:345-354 | It writes the file's totals into the totals row, and nothing else changes. |
| Combiner.ExcelCombiner.PlaceSheet | FoodPantryParser/SpreadsheetUtilities/ExcelCombiner.cs:252-360 | It copies the block, handles the totals label and totals row, and gives the next column. A totals row above row 1 abandons the rest of the file. |
| Combiner.ExcelCombiner.ProcessSheet | FoodPantryParser/SpreadsheetUtilities/ExcelCombiner.cs:95-362 | One worksheet with a used range changes the shared state and the sheet as `SheetStep` describes. |
| Combiner.ExcelCombiner.ProcessFile | FoodPantryParser/SpreadsheetUtilities/ExcelCombiner.cs:73-368 | A file that does not open, has no worksheet or has an empty first worksheet is skipped and changes nothing. Any other file is processed as one sheet. |
| Combiner.ExcelCombiner.RunAll | FoodPantryParser/SpreadsheetUtilities/ExcelCombiner.cs:69-369 | The files are processed in listing order, each block after the previous one. |
| Combiner.ExcelCombiner.HighlightZeroRows | FoodPantryParser/SpreadsheetUtilities/ExcelCombiner.cs:420-443 | A destination row is marked iff a row key mapped to it has an exact date that is a zero day. |
| Combiner.ExcelCombiner.WriteTotalsLabel | FoodPantryParser/SpreadsheetUtilities/ExcelCombiner.cs:407-418 | "TOTALS (n)" goes at the label position when it is set, and nothing changes otherwise. |
| Combiner.ExcelCombiner.Finish | FoodPantryParser/SpreadsheetUtilities/ExcelCombiner.cs:371-443 | After the files come the zero days over all listed names, the label with their count, and the marked rows when asked. |
| Combiner.ExcelCombiner.CombineSpreadsheets | FoodPantryParser/SpreadsheetUtilities/ExcelCombiner.cs:31-457 | It returns false, leaving the state reset and the output untouched, iff the folder is missing or holds no matching files. Otherwise it returns true with the state and sheet of `Combined`. The label position is carried over from the previous call. |

## Left out

- Floating point and culture. `DateTime.FromOADate` and `DateTime.TryParse` are the `DateDecoders` parameters. `double.TryParse`, `long.Parse` and `Convert.ToInt32` of text accept only an optional sign and decimal digits. SumOrders values and totals are integers, and `ToLower` is ASCII lower-casing.
- SumDateOrders, CreateByDateReport and AddToReport: the `int` sums do not wrap around on 32-bit overflow; `SumAdultsChildren` and the totals are unbounded integers.
- ByAgencyReports.SortedNamesSpec: the names are ordered by character code. `OrderBy` on strings uses the culture's comparer, which can order some names differently.
- OrderDateIsB12 and the other date handling: `(DateTime)` of a cell only unboxes a native date. A date stored as text or as a serial number fails, as the source's cast does.
- Directory and file I/O. Whether the folder exists, the file listing, the existing output paths and the clock (`DateTime.Now`) are inputs. `Directory.GetFiles`, `ManageDirectories`, `File.WriteAllText`, `SaveAs`, `Save` and opening a package are not modelled. A workbook that cannot be opened is a failed reading.
- ExcelCombiner.PlaceSheet: modelled on the assumption that the only write that throws inside a file is one to a row below 1. Such a file's processing stops there, keeping what it did before, like the `catch` around each file. Any other exception of the spreadsheet library is not modelled, and neither is the outer `catch` that returns false.
- Cell styling: bold, merges, borders, number formats, fill colours, fonts and `AutoFitColumns`. The zero-day highlight is modelled as the set of marked rows. The date column's "mm/dd/yyyy" format is not modelled.
- Logging and console output: `logAction`, `Console.WriteLine` and `Console.ReadLine`/`ReadKey`, plus the summary text and its day-name date format (`FormatWeekdays` and `ToString("dddd, MMMM dd, yyyy")`, which is the `longDate` parameter).
- CombineSpreadsheets' `outputWorksheetName`, `searchPattern`, `includeXls`, `showTotals` and `outputFilePath` parameters have no effect on the modelled state. The file listing is taken as already filtered.
- CombineByAgencyReportData and the `ReportGenerator` constructor. The generator's folders, its file listing and `CurrentDates` (`GetWeekdaysInMonth` at line 34) are parameters of the passes.
- Dictionary and set enumeration order. The combiner's dictionaries are treated as enumerated in insertion order. None of the modelled results depends on that order.
- The lazy `IEnumerable` of the row reader is a complete list. Extraction reads it only up to where it stops, so the results agree.
- `Path.Combine` is modelled for a relative file name with `\` as the separator. `Path.GetInvalidFileNameChars()` is a parameter of `HasIllegalCharacters`.
- GenerateAllAgencyReportData: a form that fails is recorded as `None`. The source keeps the partially filled `Ordersheet` (or `null` when opening fails) and waits for a key press.
- `GenericExcelReportGenerator` and `AllOrdersExcelReportGenerator` are not part of this model. Their report writes are left out, and the by-agency pass ends with the report lists it would hand them.
- ByDateReports.CreateByDateReport requires a non-empty order list. Its caller in the by-date pass models the `orders[0]` failure of an empty form.
- Program.cs (the console menu) and the unused `Agency` model are not part of this model. `Order` carries the `isCity` field that the code writes, although `Order.cs` does not declare it.
- IsSkippableRow and IsSentinel: `string.StartsWith(string)` in .NET compares with the current culture, which ignores zero-width and other ignorable characters. The model tests for an ordinal prefix, so a row whose column A holds such characters can be skippable or a sentinel in the source and not in the model, or the reverse.
- ByDateReportLayout.CreateReport: the worksheet name passed to `CreateReport` ("Report") is not modelled, because a sheet in the model has no name.
- DateText: `DateTime.ToString()` uses the current culture's general format. The model renders the US form month/day/year h:mm:ss AM/PM, so under another culture the text of a date cell (which matters only for a date in column B or in a header or sentinel cell) differs from the source's.
