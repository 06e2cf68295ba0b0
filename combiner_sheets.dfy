/** ExcelCombiner.cs, what the combiner reads from one source sheet: the date
    decoders, the header scan of row 3, the "Generated:" sentinel that ends
    the data, the date -> file -> SumOrders table, the column totals and the
    universal zero days. */
module CombinerSheets {
  import opened Wrappers
  import opened Text
  import opened Cells

  /** The runtime's two date conversions, which depend on floating point and
      culture: `DateTime.FromOADate` of a serial number (`None` when it throws)
      and `DateTime.TryParse` of a text. */
  datatype DateDecoders = DateDecoders(fromSerial: int -> Option<DateTime>, parse: string -> Option<DateTime>)

  /** The date a cell holds: a native date as it is, else a number as a serial
      date, else the text parsed as a date. A number whose conversion fails is
      not parsed as text. */
  function DecodeDate(c: Cell, dec: DateDecoders): Option<DateTime> {
    match c
    case Empty => None
    case Date(t) => Some(t)
    case _ =>
      match CellNumber(c)
      case Some(n) => dec.fromSerial(n)
      case None => dec.parse(CellText(c))
  }

  /** The three decoders are tried in order: a native date is kept, a number
      (in a number cell or as text) goes only to the serial conversion, and
      only a text that is not a number reaches the date parser. */
  lemma DecodeDateOrder(c: Cell, dec: DateDecoders)
    ensures c.Empty? ==> DecodeDate(c, dec) == None
    ensures c.Date? ==> DecodeDate(c, dec) == Some(c.t)
    ensures c.Num? ==> DecodeDate(c, dec) == dec.fromSerial(c.n)
    ensures c.Str? && ParseInt(c.s).Some? ==> DecodeDate(c, dec) == dec.fromSerial(ParseInt(c.s).value)
    ensures c.Str? && ParseInt(c.s).None? ==> DecodeDate(c, dec) == dec.parse(c.s)
  {
    if c.Num? {
      NumCellNumber(c.n);
    }
  }

  /** The value written for a non-null cell of the date column: the decoded
      date, or the cell itself when no decoder accepts it. */
  function DestDateCell(c: Cell, dec: DateDecoders): Cell {
    match DecodeDate(c, dec)
    case Some(d) => Date(d)
    case None => c
  }

  /** `double.TryParse(value.ToString(), out v)`: the value, or 0 when the cell
      is null or not a number. */
  function NumberOrZero(c: Cell): int {
    match CellNumber(c)
    case Some(v) => v
    case None => 0
  }

  // ---------------------------------------------------------------- headers

  /** `Convert.ToString(Cells[3, c].Value)?.Trim()`: null reads as "". */
  function HeaderText(sheet: Sheet, c: int): string {
    Trim(ConvertToString(sheet.At(3, c)))
  }

  /** What a header says about its column. */
  datatype HeaderKind = DateHeader | OrdersHeader | SumHeader | OtherHeader

  /** "ReportDate" marks the date column, "SumOrders" the orders column, any
      other header starting with "Sum" a sum column; all compared ignoring case. */
  function Classify(text: string): HeaderKind {
    if EqualsIgnoreCase(text, "ReportDate") then DateHeader
    else if EqualsIgnoreCase(text, "SumOrders") then OrdersHeader
    else if StartsWithIgnoreCase(text, "Sum") then SumHeader
    else OtherHeader
  }

  /** An orders or sum header: the column gets a total. */
  predicate IsSumKind(kind: HeaderKind) {
    kind == OrdersHeader || kind == SumHeader
  }

  lemma FirstLetterOfDate(text: string)
    requires EqualsIgnoreCase(text, "ReportDate")
    ensures |text| > 0 && UpperChar(text[0]) == 'R'
  {
    assert UpperChar(text[0]) == UpperChar("ReportDate"[0]);
  }

  lemma FirstLetterOfSum(text: string)
    requires StartsWithIgnoreCase(text, "Sum")
    ensures |text| > 0 && UpperChar(text[0]) == 'S'
  {
    assert UpperChar(text[..3][0]) == UpperChar("Sum"[0]);
    assert text[..3][0] == text[0];
  }

  /** A column is summed exactly when its header starts with "Sum": "SumOrders"
      does, "ReportDate" does not. */
  lemma ClassifySums(text: string)
    ensures IsSumKind(Classify(text)) <==> StartsWithIgnoreCase(text, "Sum")
  {
    if EqualsIgnoreCase(text, "ReportDate") {
      FirstLetterOfDate(text);
      if StartsWithIgnoreCase(text, "Sum") {
        FirstLetterOfSum(text);
      }
    } else if EqualsIgnoreCase(text, "SumOrders") {
      forall i | 0 <= i < 3
        ensures UpperChar(text[..3][i]) == UpperChar("Sum"[i])
      {
        assert UpperChar(text[i]) == UpperChar("SumOrders"[i]);
      }
    }
  }

  /** The kind of each column's header in row 3. */
  function HeaderKinds(sheet: Sheet): int -> HeaderKind {
    c => Classify(HeaderText(sheet, c))
  }

  /** The columns the header scan identifies; -1 when not found. */
  datatype Headers = Headers(dateCol: int, sumOrdersCol: int, sumCols: seq<int>)

  /** The header scan over columns 1..k: a date header sets the date column,
      an orders header sets the orders column and is a sum column, any other
      sum header is a sum column; later columns overwrite earlier ones. */
  function ScanHeaders(kinds: int -> HeaderKind, k: int): Headers
    decreases k
  {
    if k <= 0 then Headers(-1, -1, []) else ScanStep(ScanHeaders(kinds, k - 1), k, kinds(k))
  }

  /** What column k's header adds to the scan so far. */
  function ScanStep(h: Headers, k: int, kind: HeaderKind): Headers {
    match kind
    case DateHeader => h.(dateCol := k)
    case OrdersHeader => h.(sumOrdersCol := k, sumCols := h.sumCols + [k])
    case SumHeader => h.(sumCols := h.sumCols + [k])
    case OtherHeader => h
  }

  predicate Ascending(s: seq<int>) {
    forall i, j :: 0 <= i < j < |s| ==> s[i] < s[j]
  }

  /** The date column is the last column with a date header, -1 when there
      is none. */
  lemma {:induction false} ScanHeadersDate(kinds: int -> HeaderKind, k: int)
    ensures var h := ScanHeaders(kinds, k);
      && (h.dateCol == -1 ==> forall c :: 1 <= c <= k ==> kinds(c) != DateHeader)
      && (h.dateCol != -1 ==>
            && 1 <= h.dateCol <= k && kinds(h.dateCol) == DateHeader
            && forall c :: h.dateCol < c <= k ==> kinds(c) != DateHeader)
    decreases k
  {
    if k > 0 {
      ScanHeadersDate(kinds, k - 1);
    }
  }

  /** The orders column is the last column with an orders header, -1 when
      there is none. */
  lemma {:induction false} ScanHeadersOrders(kinds: int -> HeaderKind, k: int)
    ensures var h := ScanHeaders(kinds, k);
      && (h.sumOrdersCol == -1 ==> forall c :: 1 <= c <= k ==> kinds(c) != OrdersHeader)
      && (h.sumOrdersCol != -1 ==>
            && 1 <= h.sumOrdersCol <= k && kinds(h.sumOrdersCol) == OrdersHeader
            && forall c :: h.sumOrdersCol < c <= k ==> kinds(c) != OrdersHeader)
    decreases k
  {
    if k > 0 {
      ScanHeadersOrders(kinds, k - 1);
    }
  }

  /** The sum columns are exactly the columns with an orders or sum header,
      in ascending order, the orders column among them. */
  lemma {:induction false} ScanHeadersSums(kinds: int -> HeaderKind, k: int)
    ensures var h := ScanHeaders(kinds, k);
      && (forall c :: c in h.sumCols <==> 1 <= c <= k && IsSumKind(kinds(c)))
      && Ascending(h.sumCols)
      && (h.sumOrdersCol != -1 ==> h.sumOrdersCol in h.sumCols)
    decreases k
  {
    if k > 0 {
      ScanHeadersSums(kinds, k - 1);
      var prefix := ScanHeaders(kinds, k - 1).sumCols;
      forall i | 0 <= i < |prefix|
        ensures prefix[i] < k
      {
        assert prefix[i] in prefix;
      }
      assert IsSumKind(kinds(k)) ==> ScanHeaders(kinds, k).sumCols == prefix + [k];
    }
  }

  /** On a sheet: the sum columns are the columns 1..k whose trimmed row-3
      header starts with "Sum", ignoring case. */
  lemma SheetSumColumns(sheet: Sheet, k: int)
    ensures forall c :: c in ScanHeaders(HeaderKinds(sheet), k).sumCols <==>
      1 <= c <= k && StartsWithIgnoreCase(HeaderText(sheet, c), "Sum")
  {
    ScanHeadersSums(HeaderKinds(sheet), k);
    forall c | 1 <= c <= k
      ensures IsSumKind(HeaderKinds(sheet)(c)) <==> StartsWithIgnoreCase(HeaderText(sheet, c), "Sum")
    {
      ClassifySums(HeaderText(sheet, c));
    }
  }

  // --------------------------------------------------------------- sentinel

  predicate IsSentinel(sheet: Sheet, r: int, c: int) {
    StartsWith(ConvertToString(sheet.At(r, c)), "Generated:")
  }

  /** Some cell among columns 1..cols of row r starts with "Generated:". */
  predicate HasSentinel(sheet: Sheet, r: int, cols: int) {
    exists c :: 1 <= c <= cols && IsSentinel(sheet, r, c)
  }

  /** The first row in lo..hi holding a sentinel. */
  function FirstSentinel(sheet: Sheet, lo: int, hi: int, cols: int): Option<int>
    decreases hi - lo
  {
    if hi < lo then None
    else if HasSentinel(sheet, lo, cols) then Some(lo)
    else FirstSentinel(sheet, lo + 1, hi, cols)
  }

  /** The last data row: the row before the first sentinel row at or below
      row 4, or the sheet's row count when there is none. */
  function LastDataRow(sheet: Sheet, rows: int, cols: int): int {
    match FirstSentinel(sheet, 4, rows, cols)
    case Some(s) => s - 1
    case None => rows
  }

  lemma {:induction false} FirstSentinelSpec(sheet: Sheet, lo: int, hi: int, cols: int)
    ensures var s := FirstSentinel(sheet, lo, hi, cols);
      && (s.Some? ==>
            && lo <= s.value <= hi && HasSentinel(sheet, s.value, cols)
            && forall r :: lo <= r < s.value ==> !HasSentinel(sheet, r, cols))
      && (s.None? ==> forall r :: lo <= r <= hi ==> !HasSentinel(sheet, r, cols))
    decreases hi - lo
  {
    if lo <= hi && !HasSentinel(sheet, lo, cols) {
      FirstSentinelSpec(sheet, lo + 1, hi, cols);
    }
  }

  /** Either no row 4..rows holds a sentinel and the data runs to row `rows`
      (the used range's row count), or the data stops just above the first sentinel row: a sentinel
      further down does not move it. */
  lemma LastDataRowSpec(sheet: Sheet, rows: int, cols: int)
    ensures var last := LastDataRow(sheet, rows, cols);
      || (last == rows && forall r :: 4 <= r <= rows ==> !HasSentinel(sheet, r, cols))
      || (&& 3 <= last < rows && HasSentinel(sheet, last + 1, cols)
          && forall r :: 4 <= r <= last ==> !HasSentinel(sheet, r, cols))
  {
    FirstSentinelSpec(sheet, 4, rows, cols);
  }

  // ------------------------------------------------------------- date table

  /** `DateToSumOrdersValues`: date -> file name -> SumOrders. */
  type Table = map<DateTime, map<string, int>>

  /** The date table and `NonZeroSumOrdersCount`. */
  datatype DateTable = DateTable(entries: Table, nonZero: int)

  /** `table[date][name] = value`, creating the inner dictionary on first use. */
  function Record(table: Table, date: DateTime, name: string, value: int): Table {
    table[date := (if date in table then table[date] else map[])[name := value]]
  }

  /** What row r of a file contributes: its decoded date and its SumOrders
      (0 when not a number), or nothing when the date does not decode. */
  function FileRows(sheet: Sheet, dateCol: int, sumCol: int, dec: DateDecoders): int -> Option<(DateTime, int)> {
    r => match DecodeDate(sheet.At(r, dateCol), dec)
         case None => None
         case Some(d) => Some((d, NumberOrZero(sheet.At(r, sumCol))))
  }

  /** The table after rows 4..r of the file `name`: a row with a date records
      its value under that date and the name, and counts it when it is not 0;
      any other row changes nothing. */
  function RecordRows(acc: DateTable, name: string, rowOf: int -> Option<(DateTime, int)>, r: int): DateTable
    decreases r
  {
    if r < 4 then acc else RecordRow(RecordRows(acc, name, rowOf, r - 1), name, rowOf(r))
  }

  /** One row of the file `name`. */
  function RecordRow(prev: DateTable, name: string, row: Option<(DateTime, int)>): DateTable {
    match row
    case None => prev
    case Some((d, v)) => DateTable(Record(prev.entries, d, name, v), prev.nonZero + (if v != 0 then 1 else 0))
  }

  /** The last row among 4..r dated d. */
  function LastRowOn(rowOf: int -> Option<(DateTime, int)>, d: DateTime, r: int): Option<int>
    decreases r
  {
    if r < 4 then None
    else if rowOf(r).Some? && rowOf(r).value.0 == d then Some(r)
    else LastRowOn(rowOf, d, r - 1)
  }

  predicate SameEntry(a: Table, b: Table, d: DateTime, name: string) {
    && (d in a && name in a[d] <==> d in b && name in b[d])
    && (d in a && name in a[d] ==> a[d][name] == b[d][name])
  }

  /** `table[d][name]` holds the value of the file's last row dated d; without
      such a row the date gets no new entry and the file's entry for it is as
      before. */
  lemma {:induction false} RecordRowsLastWrite(acc: DateTable, name: string, rowOf: int -> Option<(DateTime, int)>,
                                              r: int, d: DateTime)
    ensures var t := RecordRows(acc, name, rowOf, r).entries;
      var w := LastRowOn(rowOf, d, r);
      && (w.Some? ==>
            && 4 <= w.value <= r && rowOf(w.value).Some? && rowOf(w.value).value.0 == d
            && d in t && name in t[d] && t[d][name] == rowOf(w.value).value.1)
      && (w.None? ==> (d in t <==> d in acc.entries) && SameEntry(t, acc.entries, d, name))
    decreases r
  {
    if r >= 4 {
      RecordRowsLastWrite(acc, name, rowOf, r - 1, d);
    }
  }

  /** The entries of the other files are left as they were. */
  lemma {:induction false} RecordRowsOthers(acc: DateTable, name: string, rowOf: int -> Option<(DateTime, int)>,
                                           r: int, d: DateTime, other: string)
    requires other != name
    ensures SameEntry(RecordRows(acc, name, rowOf, r).entries, acc.entries, d, other)
    decreases r
  {
    if r >= 4 {
      RecordRowsOthers(acc, name, rowOf, r - 1, d, other);
    }
  }

  /** The rows 4..r that record a value other than 0. */
  ghost function NonZeroRows(rowOf: int -> Option<(DateTime, int)>, r: int): set<int> {
    set row | 4 <= row <= r && rowOf(row).Some? && rowOf(row).value.1 != 0
  }

  /** `NonZeroSumOrdersCount` grows by the number of recorded values that are
      not 0, overwritten ones included. */
  lemma {:induction false} RecordRowsNonZero(acc: DateTable, name: string, rowOf: int -> Option<(DateTime, int)>, r: int)
    ensures RecordRows(acc, name, rowOf, r).nonZero == acc.nonZero + |NonZeroRows(rowOf, r)|
    decreases r
  {
    if r >= 4 {
      RecordRowsNonZero(acc, name, rowOf, r - 1);
      var before := NonZeroRows(rowOf, r - 1);
      if rowOf(r).Some? && rowOf(r).value.1 != 0 {
        assert NonZeroRows(rowOf, r) == before + {r};
      } else {
        assert NonZeroRows(rowOf, r) == before;
      }
    }
  }

  // ---------------------------------------------------------- column totals

  /** The sum of the numbers in rows 4..r of column col. */
  function ColumnSum(sheet: Sheet, col: int, r: int): int
    decreases r
  {
    if r < 4 then 0 else ColumnSum(sheet, col, r - 1) + NumberOrZero(sheet.At(r, col))
  }

  /** One file's `columnTotals`: every sum column and its sum over the data rows. */
  function FileTotals(sheet: Sheet, sumCols: seq<int>, last: int): map<int, int> {
    map c | c in sumCols :: ColumnSum(sheet, c, last)
  }

  function TotalOf(totals: map<int, int>, k: int): int {
    if k in totals then totals[k] else 0
  }

  /** The shared `ColumnTotals` after a file, one sum column at a time in
      the order of the file's totals: the column's total grows by the file's
      total, starting from 0 for a column not seen before. */
  function MergeTotals(shared: map<int, int>, sumCols: seq<int>, totals: map<int, int>): map<int, int>
    decreases |sumCols|
  {
    if sumCols == [] then shared
    else
      var before := MergeTotals(shared, sumCols[..|sumCols| - 1], totals);
      var c := sumCols[|sumCols| - 1];
      before[c := TotalOf(before, c) + TotalOf(totals, c)]
  }

  /** With each sum column once: every sum column ends with its old total plus
      the file's, every other column keeps its own, and no other column
      appears. */
  lemma {:induction false} MergeTotalsMeaning(shared: map<int, int>, sumCols: seq<int>, totals: map<int, int>)
    requires Ascending(sumCols)
    ensures var merged := MergeTotals(shared, sumCols, totals);
      && (forall k :: k in merged <==> k in shared || k in sumCols)
      && (forall k :: k in sumCols ==> merged[k] == TotalOf(shared, k) + TotalOf(totals, k))
      && (forall k :: k in shared && k !in sumCols ==> merged[k] == shared[k])
    decreases |sumCols|
  {
    if sumCols != [] {
      var prefix := sumCols[..|sumCols| - 1];
      var c := sumCols[|sumCols| - 1];
      assert Ascending(prefix);
      MergeTotalsMeaning(shared, prefix, totals);
      assert sumCols == prefix + [c];
      assert c !in prefix by {
        forall i | 0 <= i < |prefix|
          ensures prefix[i] != c
        {
          assert prefix[i] == sumCols[i];
        }
      }
      forall k
        ensures k in sumCols <==> k in prefix || k == c
      {
      }
    }
  }

  /** Only sum columns ever get a total, and the total of a sum column is what
      it was plus the file's sum of that column over rows 4..last. */
  lemma MergeFileTotals(shared: map<int, int>, sheet: Sheet, sumCols: seq<int>, last: int)
    requires Ascending(sumCols)
    ensures var merged := MergeTotals(shared, sumCols, FileTotals(sheet, sumCols, last));
      && (forall k :: k in merged <==> k in shared || k in sumCols)
      && (forall k :: k in sumCols ==> merged[k] == TotalOf(shared, k) + ColumnSum(sheet, k, last))
      && (forall k :: k in shared && k !in sumCols ==> merged[k] == shared[k])
  {
    MergeTotalsMeaning(shared, sumCols, FileTotals(sheet, sumCols, last));
  }

  // ----------------------------------------------------------------- layout

  /** The destination worksheet's values and the combiner's two row
      dictionaries: row key -> destination row, row key -> date of the row. */
  datatype Dest = Dest(cells: map<(int, int), Cell>, rowMap: map<int, int>, rowDates: map<int, DateTime>)

  /** Every row key with a date has a destination row, as the highlighting
      lookup `sourceToDestRowMap[uniqueRowKey]` needs. */
  predicate DatedRowsMapped(d: Dest) {
    d.rowDates.Keys <= d.rowMap.Keys
  }

  /** One source block: the sheet, its date column, the destination row of
      its header, the destination column of its first column, its last data
      row and the decoders. */
  datatype Block = Block(sheet: Sheet, dateCol: int, startRow: int, column: int, last: int, dec: DateDecoders)

  /** Source row r (from 4) goes one row below the block's header row per row. */
  function DestRow(startRow: int, r: int): int { startRow + (r - 4) + 1 }

  /** Source column c (from 1) goes to the block's c-th column. */
  function DestCol(column: int, c: int): int { column + c - 1 }

  /** `currentColumn += (destCol - currentColumn) + 1`: one column per source
      column, then one separator column. A used range always has at least
      one column, so consecutive blocks are at least two columns apart. */
  function NextColumn(column: int, cols: int): int {
    column + (if cols > 0 then cols else 0) + 1
  }

  /** `uniqueRowKey`: the block's first column and the source row. */
  function RowKey(column: int, r: int): int { column * 10000 + r }

  /** The totals row: one blank row below the last data row. */
  function TotalsRow(startRow: int, last: int): int { startRow + (last - 4) + 2 }

  /** The value written for source cell (r, c): in the date column a non-null
      value is decoded as a date when it can be; every other value is copied. */
  function DestValue(b: Block, c: int, r: int): Cell {
    var cell := b.sheet.At(r, c);
    if c == b.dateCol && !cell.Empty? then DestDateCell(cell, b.dec) else cell
  }

  /** Copying source cell (r, c). In the date column the first visit of a row
      key maps it to its destination row and, when the cell decodes, to its
      date; then the value is written. */
  function CopyCell(d: Dest, b: Block, c: int, r: int): Dest {
    var key := RowKey(b.column, r);
    var mapped :=
      if c == b.dateCol && key !in d.rowMap then
        d.(rowMap := d.rowMap[key := DestRow(b.startRow, r)],
           rowDates := match DecodeDate(b.sheet.At(r, c), b.dec)
                       case Some(t) => d.rowDates[key := t]
                       case None => d.rowDates)
      else d;
    mapped.(cells := mapped.cells[(DestRow(b.startRow, r), DestCol(b.column, c)) := DestValue(b, c, r)])
  }

  /** Rows 4..r of source column c. */
  function CopyRows(d: Dest, b: Block, c: int, r: int): Dest
    decreases r
  {
    if r < 4 then d else CopyCell(CopyRows(d, b, c, r - 1), b, c, r)
  }

  /** The header of source column c written onto x. */
  function HeaderedColumn(x: Dest, b: Block, c: int): Dest {
    x.(cells := x.cells[(b.startRow, DestCol(b.column, c)) := b.sheet.At(3, c)])
  }

  /** Source column c: its row-3 header goes to the header row, then its data
      rows 4..last. */
  function CopyColumn(d: Dest, b: Block, c: int): Dest {
    CopyRows(HeaderedColumn(d, b, c), b, c, b.last)
  }

  /** Source columns 1..k of the block. */
  function CopyColumns(d: Dest, b: Block, k: int): Dest
    decreases k
  {
    if k < 1 then d else CopyColumn(CopyColumns(d, b, k - 1), b, k)
  }

  predicate SameCell(x: map<(int, int), Cell>, y: map<(int, int), Cell>, key: (int, int)) {
    (key in x <==> key in y) && (key in x ==> x[key] == y[key])
  }

  /** Destination rows startRow..DestRow(last) and columns column..column+k-1. */
  predicate InBlock(b: Block, k: int, key: (int, int)) {
    && b.column <= key.1 < b.column + k
    && (key.0 == b.startRow || b.startRow < key.0 <= DestRow(b.startRow, b.last))
  }

  /** Rows 4..r of column c land on destination rows DestRow(4..r) of the
      column's destination column, and no other cell changes. */
  lemma {:induction false} CopyRowsCells(d: Dest, b: Block, c: int, r: int)
    ensures var e := CopyRows(d, b, c, r).cells;
      && (forall rr :: 4 <= rr <= r ==>
            (DestRow(b.startRow, rr), DestCol(b.column, c)) in e
            && e[(DestRow(b.startRow, rr), DestCol(b.column, c))] == DestValue(b, c, rr))
      && (forall key: (int, int) :: key.1 != DestCol(b.column, c) || key.0 <= b.startRow || key.0 > DestRow(b.startRow, r) ==>
            SameCell(e, d.cells, key))
    decreases r
  {
    if r >= 4 {
      CopyRowsCells(d, b, c, r - 1);
    }
  }

  /** Copying source column c onto any destination places its header and
      its rows in the column's destination column and changes no other
      column. */
  lemma CopyColumnCells(x: Dest, b: Block, c: int)
    ensures var e := CopyColumn(x, b, c).cells;
      && (forall r :: 4 <= r <= b.last ==>
            (DestRow(b.startRow, r), DestCol(b.column, c)) in e
            && e[(DestRow(b.startRow, r), DestCol(b.column, c))] == DestValue(b, c, r))
      && (b.startRow, DestCol(b.column, c)) in e && e[(b.startRow, DestCol(b.column, c))] == b.sheet.At(3, c)
      && (forall key: (int, int) :: !InBlock(b.(column := DestCol(b.column, c)), 1, key) ==> SameCell(e, x.cells, key))
  {
    var headed := HeaderedColumn(x, b, c);
    CopyRowsCells(headed, b, c, b.last);
    var e := CopyColumn(x, b, c).cells;
    assert e == CopyRows(headed, b, c, b.last).cells;
    assert SameCell(e, headed.cells, (b.startRow, DestCol(b.column, c)));
    forall key: (int, int) | !InBlock(b.(column := DestCol(b.column, c)), 1, key)
      ensures SameCell(e, x.cells, key)
    {
      assert SameCell(e, headed.cells, key);
    }
  }

  /** After columns 1..k every cell outside the block is as it was. */
  lemma {:induction false} CopyColumnsOutside(d: Dest, b: Block, k: int)
    ensures forall key: (int, int) :: !InBlock(b, k, key) ==> SameCell(CopyColumns(d, b, k).cells, d.cells, key)
    decreases k
  {
    if k >= 1 {
      CopyColumnsOutside(d, b, k - 1);
      CopyColumnCells(CopyColumns(d, b, k - 1), b, k);
      var before := CopyColumns(d, b, k - 1);
      forall key: (int, int) | !InBlock(b, k, key)
        ensures SameCell(CopyColumns(d, b, k).cells, d.cells, key)
      {
        assert !InBlock(b, k - 1, key);
        assert !InBlock(b.(column := DestCol(b.column, k)), 1, key);
        assert SameCell(CopyColumn(before, b, k).cells, before.cells, key);
      }
    }
  }

  /** After columns 1..k every data cell of those columns is at its place. */
  lemma {:induction false} CopyColumnsData(d: Dest, b: Block, k: int)
    ensures forall c, r :: 1 <= c <= k && 4 <= r <= b.last ==>
      var e := CopyColumns(d, b, k).cells;
      (DestRow(b.startRow, r), DestCol(b.column, c)) in e
      && e[(DestRow(b.startRow, r), DestCol(b.column, c))] == DestValue(b, c, r)
    decreases k
  {
    if k >= 1 {
      CopyColumnsData(d, b, k - 1);
      var before := CopyColumns(d, b, k - 1);
      CopyColumnCells(before, b, k);
      var e := CopyColumns(d, b, k).cells;
      forall c, r | 1 <= c < k && 4 <= r <= b.last
        ensures (DestRow(b.startRow, r), DestCol(b.column, c)) in e
        ensures e[(DestRow(b.startRow, r), DestCol(b.column, c))] == DestValue(b, c, r)
      {
        assert SameCell(e, before.cells, (DestRow(b.startRow, r), DestCol(b.column, c)));
      }
    }
  }

  /** After columns 1..k every header of those columns is on the header row. */
  lemma {:induction false} CopyColumnsHeaders(d: Dest, b: Block, k: int)
    ensures forall c :: 1 <= c <= k ==>
      var e := CopyColumns(d, b, k).cells;
      (b.startRow, DestCol(b.column, c)) in e && e[(b.startRow, DestCol(b.column, c))] == b.sheet.At(3, c)
    decreases k
  {
    if k >= 1 {
      CopyColumnsHeaders(d, b, k - 1);
      var before := CopyColumns(d, b, k - 1);
      CopyColumnCells(before, b, k);
      var e := CopyColumns(d, b, k).cells;
      forall c | 1 <= c < k
        ensures (b.startRow, DestCol(b.column, c)) in e && e[(b.startRow, DestCol(b.column, c))] == b.sheet.At(3, c)
      {
        assert SameCell(e, before.cells, (b.startRow, DestCol(b.column, c)));
      }
    }
  }

  /** Key `key` kept its destination row and its date, or its lack of one. */
  predicate Kept(d: Dest, e: Dest, key: int)
    requires key in d.rowMap
  {
    && key in e.rowMap && e.rowMap[key] == d.rowMap[key]
    && (key in e.rowDates <==> key in d.rowDates)
    && (key in d.rowDates ==> e.rowDates[key] == d.rowDates[key])
  }

  /** Key `key` is the key of source row r of the block, maps to that row's
      destination row, and has a date exactly when the row's date cell
      decodes, namely that date. */
  predicate MapsRow(e: Dest, b: Block, key: int, r: int) {
    var date := DecodeDate(b.sheet.At(r, b.dateCol), b.dec);
    && 4 <= r && key == RowKey(b.column, r)
    && key in e.rowMap && e.rowMap[key] == DestRow(b.startRow, r)
    && (key in e.rowDates <==> date.Some?)
    && (key in e.rowDates ==> date == Some(e.rowDates[key]))
  }

  /** The row dictionaries after rows 4..r of column c: outside the date
      column nothing changes; a key already present is kept (the first write
      wins); in the date column every row's key is present; a new key is the
      key of one of those rows, mapped as `MapsRow` says. */
  lemma {:induction false} CopyRowsKeys(d: Dest, b: Block, c: int, r: int)
    requires DatedRowsMapped(d)
    ensures var e := CopyRows(d, b, c, r);
      && (c != b.dateCol ==> e.rowMap == d.rowMap && e.rowDates == d.rowDates)
      && (forall key :: key in d.rowMap ==> Kept(d, e, key))
      && (c == b.dateCol ==> forall rr :: 4 <= rr <= r ==> RowKey(b.column, rr) in e.rowMap)
      && (forall key :: key in e.rowMap && key !in d.rowMap ==> exists rr :: rr <= r && MapsRow(e, b, key, rr))
      && DatedRowsMapped(e)
    decreases r
  {
    if r >= 4 {
      CopyRowsKeys(d, b, c, r - 1);
      var prev := CopyRows(d, b, c, r - 1);
      var e := CopyRows(d, b, c, r);
      forall key | key in d.rowMap
        ensures Kept(d, e, key)
      {
        assert Kept(d, prev, key);
        assert Kept(prev, e, key);
      }
      forall key | key in e.rowMap && key !in d.rowMap
        ensures exists rr :: rr <= r && MapsRow(e, b, key, rr)
      {
        if key in prev.rowMap {
          var rr :| rr <= r - 1 && MapsRow(prev, b, key, rr);
          assert Kept(prev, e, key);
          assert MapsRow(e, b, key, rr);
        } else {
          assert MapsRow(e, b, key, r);
        }
      }
    }
  }

  /** The row dictionaries after columns 1..k of the block, as for one column;
      when the date column is among them, every data row's key is present. */
  lemma {:induction false} CopyColumnsKeys(d: Dest, b: Block, k: int)
    requires DatedRowsMapped(d)
    ensures var e := CopyColumns(d, b, k);
      && (forall key :: key in d.rowMap ==> Kept(d, e, key))
      && (1 <= b.dateCol <= k ==> forall r :: 4 <= r <= b.last ==> RowKey(b.column, r) in e.rowMap)
      && (forall key :: key in e.rowMap && key !in d.rowMap ==> exists r :: r <= b.last && MapsRow(e, b, key, r))
      && DatedRowsMapped(e)
    decreases k
  {
    if k >= 1 {
      CopyColumnsKeys(d, b, k - 1);
      var before := CopyColumns(d, b, k - 1);
      var headed := HeaderedColumn(before, b, k);
      CopyRowsKeys(headed, b, k, b.last);
      var e := CopyColumns(d, b, k);
      assert e == CopyRows(headed, b, k, b.last);
      forall key | key in d.rowMap
        ensures Kept(d, e, key)
      {
        assert Kept(d, before, key);
        assert Kept(headed, e, key);
      }
      forall key | key in e.rowMap && key !in d.rowMap
        ensures exists r :: r <= b.last && MapsRow(e, b, key, r)
      {
        if key in before.rowMap {
          var r :| r <= b.last && MapsRow(before, b, key, r);
          assert Kept(headed, e, key);
          assert MapsRow(e, b, key, r);
        }
      }
    }
  }

  /** Row keys below row 10000 identify the block and the row. */
  lemma RowKeyInjective(column1: int, r1: int, column2: int, r2: int)
    requires 0 <= r1 < 10000 && 0 <= r2 < 10000
    ensures RowKey(column1, r1) == RowKey(column2, r2) <==> column1 == column2 && r1 == r2
  {
    if RowKey(column1, r1) == RowKey(column2, r2) {
      assert (column1 - column2) * 10000 == r2 - r1;
    }
  }

  /** Blocks of a run are at least two columns apart (a block of `cols`
      columns at `column` puts the next at `column + cols + 1`), so keys of
      two different blocks can only meet from row 20004 of the left block on:
      rows 4..20003 never collide with any data row of a block further right. */
  lemma RowKeySeparatedBlocks(column1: int, r1: int, column2: int, r2: int)
    requires column1 + 2 <= column2 && 4 <= r1 < 20004 && 4 <= r2
    ensures RowKey(column1, r1) != RowKey(column2, r2)
  {
  }

  /** The first such collision: a one-column sheet at column 1 places the
      next block at column 3, and row 20004 of the first block has the key of
      row 4 of the second. */
  lemma RowKeyCollision()
    ensures NextColumn(1, 1) == 3
    ensures RowKey(1, 20004) == RowKey(3, 4)
  {
  }

  // -------------------------------------------------------------- zero days

  /** Every listed file has an entry for the date, and it is 0. */
  predicate AllZero(entries: map<string, int>, agencies: set<string>) {
    forall a :: a in agencies ==> a in entries && entries[a] == 0
  }

  /** The universal zero days: the days (at midnight) of the table's dates on
      which every listed file recorded 0. */
  function ZeroDates(table: Table, agencies: set<string>): set<DateTime> {
    set k | k in table && AllZero(table[k], agencies) :: DateOf(k)
  }

  /** No date of the table has an entry for `name`. */
  predicate Silent(table: Table, name: string) {
    forall k :: k in table ==> name !in table[k]
  }

  /** A listed file that never recorded anything (one that was skipped, say)
      rules out every zero day. */
  lemma SilentFileBlocksZeroDays(table: Table, agencies: set<string>, silent: string)
    requires silent in agencies
    requires Silent(table, silent)
    ensures ZeroDates(table, agencies) == {}
  {
  }

  /** Zero days are midnights, so a date with a time of day never is one. */
  lemma ZeroDatesAtMidnight(table: Table, agencies: set<string>)
    ensures forall d :: d in ZeroDates(table, agencies) ==> d.ticks == 0
  {
  }

  /** The label of the totals cell. */
  function TotalsLabel(zeroDays: nat): string {
    "TOTALS (" + IntToString(zeroDays) + ")"
  }
}
