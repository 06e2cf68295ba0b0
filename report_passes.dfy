/** ReportGenerator.cs, the three passes over the order forms of the data
    folder: the all-agency pass (one order sheet per form, failures tolerated),
    the by-agency pass (all orders, then the per-agency reports) and the
    by-date pass (one daily report per form, then the summary). Any exception
    in the last two ends the pass. */
module ReportPasses {
  import opened Wrappers
  import opened Text
  import opened Cells
  import opened ExcelRowIterator
  import opened SpreadsheetModels
  import opened DailyReports
  import opened OrderExtraction
  import opened ByDateReports
  import opened ByAgencyReports
  import opened ByDateReportLayout
  import opened SummaryInfo

  // ----- Reading one form -----

  /** Open the form, take its first worksheet, read the rows from row 15 and
      run the extraction loop over them. */
  function FileOrders(file: SourceFile, threshold: int): Result<seq<Order>, Failure> {
    var worksheet :- FirstSheet(file);
    var rows :- ReadRows(worksheet, 15);
    Extract(rows, worksheet, threshold, 0)
  }

  /** The body of the by-agency pass's `foreach (var file in Files)`. */
  method ReadFileOrders(file: SourceFile, threshold: int) returns (orders: Result<seq<Order>, Failure>)
    ensures orders == FileOrders(file, threshold)
  {
    var worksheet :- FirstSheet(file);
    var rows :- ReadRowsFromExcel(worksheet);
    orders := ExtractOrders(rows, worksheet, threshold);
  }

  /** The all-agency pass's reading of one form: its B12 date (declared totals
      are not read) and its orders. */
  function AgencySheet(file: SourceFile, threshold: int): Result<Ordersheet, Failure> {
    var worksheet :- FirstSheet(file);
    var b12 :- GetCellValue(worksheet, "B12");
    var orderDate :- UnboxDate(b12);
    var rows :- ReadRows(worksheet, 15);
    var orders :- Extract(rows, worksheet, threshold, 0);
    Ok(Ordersheet(orderDate, 0, 0, orders))
  }

  method ReadAgencySheet(file: SourceFile, threshold: int) returns (sheet: Result<Ordersheet, Failure>)
    ensures sheet == AgencySheet(file, threshold)
  {
    var worksheet :- FirstSheet(file);
    var b12 :- GetCellValue(worksheet, "B12");
    var orderDate :- UnboxDate(b12);
    var rows :- ReadRowsFromExcel(worksheet);
    var orders :- ExtractOrders(rows, worksheet, threshold);
    sheet := Ok(Ordersheet(orderDate, 0, 0, orders));
  }

  /** The by-date pass's reading of one form: the B12 date, the new-client
      and voucher totals of C10 and E10, and the orders. */
  function DateSheet(file: SourceFile, threshold: int): Result<Ordersheet, Failure> {
    var worksheet :- FirstSheet(file);
    var b12 :- GetCellValue(worksheet, "B12");
    var orderDate :- UnboxDate(b12);
    var c10 :- GetCellValue(worksheet, "C10");
    var newClients :- ToInt32(c10);
    var e10 :- GetCellValue(worksheet, "E10");
    var vouchers :- ToInt32(e10);
    var rows :- ReadRows(worksheet, 15);
    var orders :- Extract(rows, worksheet, threshold, 0);
    Ok(Ordersheet(orderDate, newClients, vouchers, orders))
  }

  method ReadDateSheet(file: SourceFile, threshold: int) returns (sheet: Result<Ordersheet, Failure>)
    ensures sheet == DateSheet(file, threshold)
  {
    var worksheet :- FirstSheet(file);
    var b12 :- GetCellValue(worksheet, "B12");
    var orderDate :- UnboxDate(b12);
    var c10 :- GetCellValue(worksheet, "C10");
    var newClients :- ToInt32(c10);
    var e10 :- GetCellValue(worksheet, "E10");
    var vouchers :- ToInt32(e10);
    var rows :- ReadRowsFromExcel(worksheet);
    var orders :- ExtractOrders(rows, worksheet, threshold);
    sheet := Ok(Ordersheet(orderDate, newClients, vouchers, orders));
  }

  /** Every order of a form carries the form's own date, whichever pass readings
      it; the by-date reading differs from the all-agency one only in the two
      declared totals. */
  lemma SheetOrdersShareDate(file: SourceFile, threshold: int)
    ensures AgencySheet(file, threshold).Ok? ==>
      forall o :: o in AgencySheet(file, threshold).value.orders ==> o.orderDate == AgencySheet(file, threshold).value.orderDate
    ensures DateSheet(file, threshold).Ok? ==>
      && AgencySheet(file, threshold).Ok?
      && DateSheet(file, threshold).value.orders == AgencySheet(file, threshold).value.orders
      && DateSheet(file, threshold).value.orderDate == AgencySheet(file, threshold).value.orderDate
  {
    if AgencySheet(file, threshold).Ok? {
      var worksheet := FirstSheet(file).value;
      GetCellValueExamples(worksheet);
      var rows := ReadRows(worksheet, 15).value;
      ExtractedOrders(rows, worksheet, threshold, 0);
    }
    if DateSheet(file, threshold).Ok? {
      GetCellValueExamples(FirstSheet(file).value);
    }
  }

  // ----- The all-agency pass -----

  /** `GenerateAllAgencyReportData`: one entry per form, the form's sheet,
      or `None` where reading the form failed. */
  method GenerateAllAgencyReportData(files: seq<SourceFile>, threshold: int) returns (orderSheets: seq<Option<Ordersheet>>)
    ensures |orderSheets| == |files|
    ensures forall i :: 0 <= i < |files| ==>
      orderSheets[i] == (if AgencySheet(files[i], threshold).Ok? then Some(AgencySheet(files[i], threshold).value) else None)
  {
    orderSheets := [];
    for i := 0 to |files|
      invariant |orderSheets| == i
      invariant forall k :: 0 <= k < i ==>
        orderSheets[k] == (if AgencySheet(files[k], threshold).Ok? then Some(AgencySheet(files[k], threshold).value) else None)
    {
      var orderSheet: Option<Ordersheet> := None;
      var read := ReadAgencySheet(files[i], threshold);
      if read.Ok? {
        orderSheet := Some(read.value);
      }
      orderSheets := orderSheets + [orderSheet];
    }
  }

  // ----- The by-agency pass -----

  /** The orders of all forms, form after form; the first failure ends it. */
  function AllOrders(files: seq<SourceFile>, threshold: int): Result<seq<Order>, Failure>
    decreases |files|
  {
    if files == [] then Ok([])
    else
      var orders :- FileOrders(files[0], threshold);
      Prepend(orders, AllOrders(files[1..], threshold))
  }

  /** `GenerateByAgencyReportData`: the orders of all forms, then
      `CreateByAgencyReport` over them. A failure reading any form writes
      nothing. */
  method GenerateByAgencyReportData(files: seq<SourceFile>, threshold: int, currentDates: seq<DateTime>, invalidChars: set<char>)
    returns (written: seq<seq<DailyReport>>, failure: Option<Failure>)
    ensures AllOrders(files, threshold).Err? ==> written == [] && failure == Some(AllOrders(files, threshold).error)
    ensures AllOrders(files, threshold).Ok? ==>
      var names := SortedNames(AllOrders(files, threshold).value);
      && (|currentDates| == 0 ==>
            written == [] && failure == (if |names| == 0 then None else Some(ArgumentOutOfRange("index"))))
      && (|currentDates| > 0 ==>
            var n := LegalPrefix(names, invalidChars);
            && |written| == n
            && failure == (if n < |names| then Some(IllegalAgencyName(names[n])) else None))
      && forall g :: 0 <= g < |written| ==>
           Holds(written[g], WithName(AllOrders(files, threshold).value, names[g]), currentDates)
  {
    var orders: seq<Order> := [];
    assert files[0..] == files;
    PrependNothing(AllOrders(files, threshold));
    for i := 0 to |files|
      invariant AllOrders(files, threshold) == Prepend(orders, AllOrders(files[i..], threshold))
    {
      assert files[i..][1..] == files[i + 1..];
      var fileOrders := ReadFileOrders(files[i], threshold);
      if fileOrders.Err? {
        return [], Some(fileOrders.error);
      }
      PrependPrepend(orders, fileOrders.value, AllOrders(files[i + 1..], threshold));
      orders := orders + fileOrders.value;
    }
    assert files[|files|..] == [] && orders + [] == orders;
    written, failure := CreateByAgencyReport(orders, currentDates, invalidChars);
  }

  // ----- The by-date pass -----

  /** Fixed-width decimal digits of n: the last `width` digits, zero-padded
      on the left. */
  function Digits(n: int, width: nat): (s: string)
    ensures |s| == width
    decreases width
  {
    if width == 0 then "" else Digits(n / 10, width - 1) + [DigitChar(n % 10)]
  }

  function Pow10(k: nat): nat {
    if k == 0 then 1 else 10 * Pow10(k - 1)
  }

  /** Numbers below 10^width have distinct fixed-width renderings. */
  lemma {:induction false} DigitsInjective(m: int, n: int, width: nat)
    requires 0 <= m < Pow10(width) && 0 <= n < Pow10(width)
    requires Digits(m, width) == Digits(n, width)
    ensures m == n
    decreases width
  {
    if width > 0 {
      var dm, dn := Digits(m, width), Digits(n, width);
      assert dm[..width - 1] == Digits(m / 10, width - 1);
      assert dn[..width - 1] == Digits(n / 10, width - 1);
      assert DigitChar(m % 10) == dm[width - 1] == dn[width - 1] == DigitChar(n % 10);
      DigitsInjective(m / 10, n / 10, width - 1);
    }
  }

  /** `ToString("yyyyMMdd")` */
  function DateStamp(d: Day): string {
    Digits(d.year, 4) + Digits(d.month, 2) + Digits(d.dom, 2)
  }

  /** A day `DateTime` can hold. */
  predicate ValidDay(d: Day) {
    1 <= d.year <= 9999 && 1 <= d.month <= 12 && 1 <= d.dom <= 31
  }

  /** `Path.Combine(folder, name)` for a name that is not rooted: a
      separator is put between them unless the folder is empty or already
      ends with one. */
  function PathCombine(folder: string, name: string): string {
    if folder == [] then name
    else if folder[|folder| - 1] == '\\' || folder[|folder| - 1] == '/' then folder + name
    else folder + "\\" + name
  }

  function ReportPath(folder: string, date: DateTime): string {
    PathCombine(folder, DateStamp(date.day) + ".xlsx")
  }

  /** The by-date pass's choice of file for a date. */
  function ReportPathIn(folder: string): DateTime -> string {
    date => ReportPath(folder, date)
  }

  /** `pathOf` names the report file of every date as the pass does. */
  ghost predicate PathsIn(folder: string, pathOf: DateTime -> string) {
    forall d {:trigger ReportPath(folder, d)} :: pathOf(d) == ReportPath(folder, d)
  }

  /** Two daily reports go to the same file exactly when their dates fall on
      the same day: the time of day plays no part. */
  lemma ReportPathDay(folder: string, a: DateTime, b: DateTime)
    requires ValidDay(a.day) && ValidDay(b.day)
    ensures ReportPath(folder, a) == ReportPath(folder, b) <==> a.day == b.day
  {
    if ReportPath(folder, a) == ReportPath(folder, b) {
      var sa, sb := DateStamp(a.day) + ".xlsx", DateStamp(b.day) + ".xlsx";
      var prefix := ReportPath(folder, a)[..|ReportPath(folder, a)| - |sa|];
      assert ReportPath(folder, a) == prefix + sa;
      assert ReportPath(folder, b) == prefix + sb;
      assert sa == ReportPath(folder, a)[|prefix|..] == sb;
      var ta, tb := DateStamp(a.day), DateStamp(b.day);
      assert ta == sa[..8] && tb == sb[..8];
      assert ta[..4] == Digits(a.day.year, 4) && tb[..4] == Digits(b.day.year, 4);
      assert ta[4..6] == Digits(a.day.month, 2) && tb[4..6] == Digits(b.day.month, 2);
      assert ta[6..] == Digits(a.day.dom, 2) && tb[6..] == Digits(b.day.dom, 2);
      assert Pow10(2) == 100 && Pow10(4) == 10000;
      DigitsInjective(a.day.year, b.day.year, 4);
      DigitsInjective(a.day.month, b.day.month, 2);
      DigitsInjective(a.day.dom, b.day.dom, 2);
    }
  }

  /** One row of values per report, in the report's property order. */
  function ReportRows(reports: seq<ReportValue>): (rows: seq<seq<Cell>>)
    ensures |rows| == |reports| && WellShaped(DailyReportProperties, rows)
  {
    seq(|reports|, i requires 0 <= i < |reports| => PropertyValues(reports[i]))
  }

  /** The daily report's title. */
  function Title(longDate: DateTime -> string, date: DateTime): string {
    "Daily Report Totals (" + longDate(date) + ")"
  }

  /** A daily report file to be written: the form's sheet, the date of its
      first order and the path derived from that date. */
  datatype DayFile = DayFile(sheet: Ordersheet, date: DateTime, path: string)

  /** `CreateByDateReport`'s preparation: `orders[0]` fails on a form without
      orders. */
  function DayFileOf(sheet: Ordersheet, pathOf: DateTime -> string, longDate: DateTime -> string): Result<DayFile, Failure> {
    if |sheet.orders| == 0 then Err(ArgumentOutOfRange("index"))
    else
      var date := sheet.orders[0].orderDate;
      Ok(DayFile(sheet, date, pathOf(date)))
  }

  /** The running totals of the pass. */
  datatype Totals = Totals(vouchers: int, newClients: int, allOrders: seq<Order>)

  /** What the by-date pass makes of one form's reading: the file to write,
      or the failure that ends the pass, a path already taken among them. */
  function NextFile(read: Result<Ordersheet, Failure>, pathOf: DateTime -> string, longDate: DateTime -> string,
                    taken: set<string>): Result<DayFile, Failure>
  {
    var sheet :- read;
    var f :- DayFileOf(sheet, pathOf, longDate);
    if f.path in taken then Err(DuplicateFile(f.path)) else Ok(f)
  }

  function AddSheet(acc: Totals, sheet: Ordersheet): Totals {
    Totals(acc.vouchers + sheet.vouchers, acc.newClients + sheet.newClients, acc.allOrders + sheet.orders)
  }

  /** The readings of the forms, in listing order. */
  function DateSheets(files: seq<SourceFile>, threshold: int): (readings: seq<Result<Ordersheet, Failure>>)
    ensures ReadingsOf(files, threshold, readings)
  {
    seq(|files|, i requires 0 <= i < |files| => DateSheet(files[i], threshold))
  }

  /** `readings` are the readings of the forms, one per form. */
  predicate ReadingsOf(files: seq<SourceFile>, threshold: int, readings: seq<Result<Ordersheet, Failure>>) {
    && |readings| == |files|
    && forall k {:trigger DateSheet(files[k], threshold)} :: 0 <= k < |files| ==> readings[k] == DateSheet(files[k], threshold)
  }

  /** The reading of form i of the listing. */
  method ReadForm(files: seq<SourceFile>, i: nat, threshold: int, ghost readings: seq<Result<Ordersheet, Failure>>)
    returns (sheet: Result<Ordersheet, Failure>)
    requires i < |files| && ReadingsOf(files, threshold, readings)
    ensures sheet == readings[i]
  {
    sheet := ReadDateSheet(files[i], threshold);
  }

  /** Where the by-date pass stands: the files written, the paths taken, the
      totals, and the failure that ended it, if one did. */
  datatype Pass = Pass(written: seq<DayFile>, taken: set<string>, totals: Totals, failure: Option<Failure>)

  /** The by-date pass after the first n readings, starting from the paths
      `taken` and the totals `acc`. After a failure nothing more happens. */
  function ByDatePass(readings: seq<Result<Ordersheet, Failure>>, n: nat, pathOf: DateTime -> string,
                      longDate: DateTime -> string, taken: set<string>, acc: Totals): Pass
    requires n <= |readings|
  {
    if n == 0 then Pass([], taken, acc, None)
    else
      var p := ByDatePass(readings, n - 1, pathOf, longDate, taken, acc);
      if p.failure.Some? then p
      else
        match NextFile(readings[n - 1], pathOf, longDate, p.taken)
        case Err(e) => Pass(p.written, p.taken, p.totals, Some(e))
        case Ok(f) => Pass(p.written + [f], p.taken + {f.path}, AddSheet(p.totals, f.sheet), None)
  }

  /** The property values of the reports, read one report at a time. */
  method ReportData(reports: seq<DailyReport>, ghost values: seq<ReportValue>) returns (data: seq<seq<Cell>>)
    requires |reports| == |values|
    requires forall k :: 0 <= k < |reports| ==> reports[k].Value() == values[k]
    ensures data == ReportRows(values)
  {
    data := [];
    for k := 0 to |reports|
      invariant |data| == k
      invariant forall j :: 0 <= j < k ==> data[j] == PropertyValues(values[j])
    {
      data := data + [PropertyValues(reports[k].Value())];
    }
  }

  /** The workbooks written are the daily report files of `done`, in order:
      each at its path, titled by its date and holding the fold of its form's
      orders. */
  ghost predicate WrittenFiles(written: seq<(string, Output)>, done: seq<DayFile>, longDate: DateTime -> string, now: string) {
    && |written| == |done|
    && forall k :: 0 <= k < |written| ==>
         && written[k].0 == done[k].path
         && IsLayout(written[k].1, DailyReportProperties, ReportRows(FoldReports(done[k].sheet.orders)), Title(longDate, done[k].date), now)
  }

  /** The summary the pass ends with: the figures over all forms, or the
      failure that ended it. */
  function PassSummary(p: Pass, formCount: int, currentDates: seq<DateTime>): Result<Summary, Failure> {
    match p.failure
    case Some(e) => Err(e)
    case None => Ok(SummaryOf(formCount, p.totals.vouchers, p.totals.newClients, p.totals.allOrders, currentDates))
  }

  /** `GenerateByDateReportData`: for each form, its sheet and totals, its
      orders folded by `CreateByDateReport` and written to the file named by
      the date; at the end the summary. The first failure ends the pass with
      the files written so far. */
  method GenerateByDateReportData(files: seq<SourceFile>, threshold: int, folder: string, existing: set<string>,
                                  currentDates: seq<DateTime>, longDate: DateTime -> string, now: string)
    returns (summary: Result<Summary, Failure>, written: seq<(string, Output)>)
    ensures var p := ByDatePass(DateSheets(files, threshold), |files|, ReportPathIn(folder), longDate, existing, Totals(0, 0, []));
      && WrittenFiles(written, p.written, longDate, now)
      && summary == PassSummary(p, |files|, currentDates)
  {
    var failure, totals;
    written, failure, totals := WriteDayFiles(files, threshold, folder, existing, longDate, now, DateSheets(files, threshold),
                                              ReportPathIn(folder));
    if failure.Some? {
      return Err(failure.value), written;
    }
    summary := Ok(SummaryOf(|files|, totals.vouchers, totals.newClients, totals.allOrders, currentDates));
  }

  /** The loop of `GenerateByDateReportData` over the forms, up to the first
      failure. */
  method WriteDayFiles(files: seq<SourceFile>, threshold: int, folder: string, existing: set<string>,
                       longDate: DateTime -> string, now: string, ghost readings: seq<Result<Ordersheet, Failure>>,
                       ghost pathOf: DateTime -> string)
    returns (written: seq<(string, Output)>, failure: Option<Failure>, totals: Totals)
    requires ReadingsOf(files, threshold, readings) && PathsIn(folder, pathOf)
    ensures var p := ByDatePass(readings, |files|, pathOf, longDate, existing, Totals(0, 0, []));
      && WrittenFiles(written, p.written, longDate, now)
      && failure == p.failure
      && (failure.None? ==> totals == p.totals)
  {
    var totalVouchers, totalNewClients := 0, 0;
    var allOrders: seq<Order> := [];
    var taken := existing;
    written := [];
    ghost var done: seq<DayFile> := [];
    for i := 0 to |files|
      invariant ByDatePass(readings, i, pathOf, longDate, existing, Totals(0, 0, []))
             == Pass(done, taken, Totals(totalVouchers, totalNewClients, allOrders), None)
      invariant WrittenFiles(written, done, longDate, now)
    {
      var read := ReadForm(files, i, threshold, readings);
      var file := WriteDayFile(read, folder, taken, longDate, now, pathOf);
      if file.Err? {
        assert ByDatePass(readings, i + 1, pathOf, longDate, existing, Totals(0, 0, []))
            == Pass(done, taken, Totals(totalVouchers, totalNewClients, allOrders), Some(file.error));
        FailureEndsPass(readings, i + 1, |files|, pathOf, longDate, existing, Totals(0, 0, []));
        return written, Some(file.error), Totals(totalVouchers, totalNewClients, allOrders);
      }
      ghost var f := NextFile(read, pathOf, longDate, taken).value;
      NextFileSpec(read, pathOf, longDate, taken);
      var orderSheet := read.value;
      totalNewClients := totalNewClients + orderSheet.newClients;
      totalVouchers := totalVouchers + orderSheet.vouchers;
      allOrders := allOrders + orderSheet.orders;
      WrittenFilesSnoc(written, done, file.value, f, longDate, now);
      taken := taken + {file.value.0};
      written := written + [file.value];
      done := done + [f];
    }
    return written, None, Totals(totalVouchers, totalNewClients, allOrders);
  }

  lemma WrittenFilesSnoc(written: seq<(string, Output)>, done: seq<DayFile>, w: (string, Output), f: DayFile,
                         longDate: DateTime -> string, now: string)
    requires WrittenFiles(written, done, longDate, now)
    requires w.0 == f.path && IsLayout(w.1, DailyReportProperties, ReportRows(FoldReports(f.sheet.orders)), Title(longDate, f.date), now)
    ensures WrittenFiles(written + [w], done + [f], longDate, now)
  {
  }

  /** One form of the by-date pass: its orders folded by
      `CreateByDateReport` and written to the file named by the date of its
      first order, or the failure that ends the pass. */
  method WriteDayFile(read: Result<Ordersheet, Failure>, folder: string, taken: set<string>,
                      longDate: DateTime -> string, now: string, ghost pathOf: DateTime -> string)
    returns (r: Result<(string, Output), Failure>)
    requires PathsIn(folder, pathOf)
    ensures var next := NextFile(read, pathOf, longDate, taken);
      next.Err? ==> r == Err(next.error)
    ensures var next := NextFile(read, pathOf, longDate, taken);
      next.Ok? ==> r.Ok? && r.value.0 == next.value.path
                   && IsLayout(r.value.1, DailyReportProperties, ReportRows(FoldReports(next.value.sheet.orders)), Title(longDate, next.value.date), now)
  {
    if read.Err? {
      return Err(read.error);
    }
    var orderSheet := read.value;
    if |orderSheet.orders| == 0 {
      return Err(ArgumentOutOfRange("index"));
    }
    var orderDate := orderSheet.orders[0].orderDate;
    var reports := CreateByDateReport(orderSheet.orders);
    var data := ReportData(reports, FoldReports(orderSheet.orders));
    var path := PathCombine(folder, DateStamp(orderDate.day) + ".xlsx");
    assert path == ReportPath(folder, orderDate);
    var title := "Daily Report Totals (" + longDate(orderDate) + ")";
    var output := CreateReport(path, taken, DailyReportProperties, data, title, now);
    if output.Err? {
      return Err(output.error);
    }
    return Ok((path, output.value));
  }

  /** The orders of the written forms, form after form. */
  function WrittenOrders(done: seq<DayFile>): seq<Order> {
    if done == [] then [] else WrittenOrders(done[..|done| - 1]) + done[|done| - 1].sheet.orders
  }

  /** The file made of a form is new, goes to the report path of its date
      and keeps the form's sheet. */
  lemma NextFileSpec(read: Result<Ordersheet, Failure>, pathOf: DateTime -> string, longDate: DateTime -> string, taken: set<string>)
    requires NextFile(read, pathOf, longDate, taken).Ok?
    ensures var f := NextFile(read, pathOf, longDate, taken).value;
      && read.Ok? && f.sheet == read.value
      && f.path !in taken && f.path == pathOf(f.date)
  {
  }

  /** Once a form has failed, the pass stays where it stopped. */
  lemma {:induction false} FailureEndsPass(readings: seq<Result<Ordersheet, Failure>>, m: nat, n: nat,
                                          pathOf: DateTime -> string, longDate: DateTime -> string,
                                          taken: set<string>, acc: Totals)
    requires m <= n <= |readings|
    requires ByDatePass(readings, m, pathOf, longDate, taken, acc).failure.Some?
    ensures ByDatePass(readings, n, pathOf, longDate, taken, acc) == ByDatePass(readings, m, pathOf, longDate, taken, acc)
    decreases n - m
  {
    if m < n {
      FailureEndsPass(readings, m, n - 1, pathOf, longDate, taken, acc);
    }
  }

  /** No file goes to a path taken before, no path is used twice, and every
      file goes to the report path of its date. */
  predicate FreshPaths(w: seq<DayFile>, pathOf: DateTime -> string, taken: set<string>) {
    && (forall k :: 0 <= k < |w| ==> w[k].path !in taken && w[k].path == pathOf(w[k].date))
    && (forall j, k :: 0 <= j < k < |w| ==> w[j].path != w[k].path)
  }

  /** A pass never writes a path that was taken before it, nor one path
      twice, and each file goes to the report path of its date; every path
      it wrote is taken afterwards. */
  lemma {:induction false} ByDatePassPaths(readings: seq<Result<Ordersheet, Failure>>, n: nat, pathOf: DateTime -> string,
                                          longDate: DateTime -> string, taken: set<string>, acc: Totals)
    requires n <= |readings|
    ensures var p := ByDatePass(readings, n, pathOf, longDate, taken, acc);
      && FreshPaths(p.written, pathOf, taken)
      && taken <= p.taken
      && (forall k :: 0 <= k < |p.written| ==> p.written[k].path in p.taken)
  {
    if n > 0 {
      ByDatePassPaths(readings, n - 1, pathOf, longDate, taken, acc);
      var p := ByDatePass(readings, n - 1, pathOf, longDate, taken, acc);
      if p.failure.None? && NextFile(readings[n - 1], pathOf, longDate, p.taken).Ok? {
        var f := NextFile(readings[n - 1], pathOf, longDate, p.taken).value;
        NextFileSpec(readings[n - 1], pathOf, longDate, p.taken);
        var w := p.written + [f];
        assert ByDatePass(readings, n, pathOf, longDate, taken, acc).written == w;
        assert FreshPaths(p.written, pathOf, taken);
        forall k | 0 <= k < |w|
          ensures w[k].path !in taken && w[k].path == pathOf(w[k].date)
        {
          if k < |p.written| {
            assert w[k] == p.written[k];
          }
        }
        forall j, k | 0 <= j < k < |w|
          ensures w[j].path != w[k].path
        {
          assert w[j] == p.written[j];
          if k < |p.written| {
            assert w[k] == p.written[k];
          }
        }
      }
    }
  }

  /** A pass that has not failed has written one file per form, and its
      orders are exactly the orders of those forms. */
  lemma {:induction false} ByDatePassTotals(readings: seq<Result<Ordersheet, Failure>>, n: nat, pathOf: DateTime -> string,
                                           longDate: DateTime -> string, taken: set<string>, acc: Totals)
    requires n <= |readings|
    ensures var p := ByDatePass(readings, n, pathOf, longDate, taken, acc);
      p.failure.None? ==> |p.written| == n && p.totals.allOrders == acc.allOrders + WrittenOrders(p.written)
  {
    if n == 0 {
      assert acc.allOrders + [] == acc.allOrders;
    } else {
      ByDatePassTotals(readings, n - 1, pathOf, longDate, taken, acc);
      var p := ByDatePass(readings, n - 1, pathOf, longDate, taken, acc);
      if p.failure.None? && NextFile(readings[n - 1], pathOf, longDate, p.taken).Ok? {
        var f := NextFile(readings[n - 1], pathOf, longDate, p.taken).value;
        var w := p.written + [f];
        assert w[..|w| - 1] == p.written;
        assert WrittenOrders(w) == WrittenOrders(p.written) + f.sheet.orders;
        assert acc.allOrders + WrittenOrders(p.written) + f.sheet.orders
            == acc.allOrders + (WrittenOrders(p.written) + f.sheet.orders);
      }
    }
  }

  /** Consequently a pass never had two forms dated on the same day among
      the files it wrote: each day's report has a file of its own. */
  lemma DistinctDays(readings: seq<Result<Ordersheet, Failure>>, folder: string, longDate: DateTime -> string,
                     taken: set<string>)
    ensures var p := ByDatePass(readings, |readings|, ReportPathIn(folder), longDate, taken, Totals(0, 0, []));
      forall j, k :: 0 <= j < k < |p.written| && ValidDay(p.written[j].date.day) && ValidDay(p.written[k].date.day) ==>
        p.written[j].date.day != p.written[k].date.day
  {
    var p := ByDatePass(readings, |readings|, ReportPathIn(folder), longDate, taken, Totals(0, 0, []));
    ByDatePassPaths(readings, |readings|, ReportPathIn(folder), longDate, taken, Totals(0, 0, []));
    forall j, k | 0 <= j < k < |p.written| && ValidDay(p.written[j].date.day) && ValidDay(p.written[k].date.day)
      ensures p.written[j].date.day != p.written[k].date.day
    {
      ReportPathDay(folder, p.written[j].date, p.written[k].date);
    }
  }
}
