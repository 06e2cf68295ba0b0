/** ExcelCombiner.cs: `SharedProcessingState` and `ExcelCombiner`, which lays
    the first worksheet of every file of a folder side by side on one sheet,
    gathers the SumOrders of every file per date, totals the sum columns,
    labels the totals row with the number of days on which every file
    recorded 0 and marks the rows of those days. */
module Combiner {
  import opened Wrappers
  import opened Text
  import opened Cells
  import opened CombinerSheets

  // ------------------------------------------------------------------ spec

  /** Everything the combiner changes while it runs: the shared date table and
      counter, the shared column totals, the destination sheet with its row
      dictionaries, and the position of the totals label. */
  datatype CombineState = CombineState(
    table: DateTable,
    columnTotals: map<int, int>,
    dest: Dest,
    labelRow: int,
    labelCol: int)

  /** The state at the first file: everything empty except the label
      position, which is not reset between calls. */
  function Start(labelRow: int, labelCol: int): CombineState {
    CombineState(DateTable(map[], 0), map[], Dest(map[], map[], map[]), labelRow, labelCol)
  }

  /** The file's own totals in the totals row, each sum column under its
      destination column (a sum column always lies within the block). */
  function WriteTotalsRow(cells: map<(int, int), Cell>, tr: int, column: int, cols: int,
                          sumCols: seq<int>, totals: map<int, int>): map<(int, int), Cell>
    decreases |sumCols|
  {
    if sumCols == [] then cells
    else
      var c := sumCols[|sumCols| - 1];
      var prev := WriteTotalsRow(cells, tr, column, cols, sumCols[..|sumCols| - 1], totals);
      if 1 <= c <= cols then prev[(tr, DestCol(column, c)) := Num(TotalOf(totals, c))] else prev
  }

  /** The totals row holds under every sum column of the block that column's
      total, and nothing else changes. */
  lemma {:induction false} WriteTotalsRowSpec(cells: map<(int, int), Cell>, tr: int, column: int, cols: int,
                                             sumCols: seq<int>, totals: map<int, int>)
    ensures var e := WriteTotalsRow(cells, tr, column, cols, sumCols, totals);
      && (forall c :: c in sumCols && 1 <= c <= cols ==>
            (tr, DestCol(column, c)) in e && e[(tr, DestCol(column, c))] == Num(TotalOf(totals, c)))
      && (forall key: (int, int) ::
            (key.0 != tr || key.1 < DestCol(column, 1) || key.1 > DestCol(column, cols)) ==> SameCell(e, cells, key))
    decreases |sumCols|
  {
    if sumCols != [] {
      var prefix := sumCols[..|sumCols| - 1];
      WriteTotalsRowSpec(cells, tr, column, cols, prefix, totals);
      assert sumCols == prefix + [sumCols[|sumCols| - 1]];
    }
  }

  /** What one sheet with a used range does to the state, and the column of
      the next block. When its totals row would lie above row 1 the write
      there fails and the file's processing stops, with the column not
      advanced; everything done before stays. */
  function SheetStep(st: CombineState, column: int, name: string, sheet: Sheet, ext: Extent,
                     dec: DateDecoders, includeFileNameHeader: bool): (CombineState, int)
  {
    var rows := ext.Rows();
    var cols := ext.Columns();
    var named := if includeFileNameHeader then st.dest.(cells := st.dest.cells[(1, column) := Str(name)]) else st.dest;
    var startRow := if includeFileNameHeader then 2 else 1;
    var h := ScanHeaders(HeaderKinds(sheet), cols);
    var last := LastDataRow(sheet, rows, cols);
    var table :=
      if h.dateCol > 0 && h.sumOrdersCol > 0
      then RecordRows(st.table, name, FileRows(sheet, h.dateCol, h.sumOrdersCol, dec), last)
      else st.table;
    var totals := FileTotals(sheet, h.sumCols, last);
    var merged := MergeTotals(st.columnTotals, h.sumCols, totals);
    var p := PlaceBlock(named, st.labelRow, st.labelCol, Block(sheet, h.dateCol, startRow, column, last, dec),
                        cols, h.sumCols, totals);
    (CombineState(table, merged, p.dest, p.labelRow, p.labelCol), p.next)
  }

  /** The destination side of a worksheet, with the totals label position and
      the next block's column. */
  datatype Placed = Placed(dest: Dest, labelRow: int, labelCol: int, next: int)

  /** The block copied; a block at column 1 moves the totals label to its
      totals row; a totals row above row 1 abandons the rest of the file (the
      column is not advanced); otherwise "TOTALS" goes in column 1's totals
      row, the file's totals beside it, and the next block starts one column
      after this one. */
  function PlaceBlock(named: Dest, labelRow: int, labelCol: int, b: Block, cols: int,
                      sumCols: seq<int>, totals: map<int, int>): Placed
  {
    var copied := CopyColumns(named, b, cols);
    var tr := TotalsRow(b.startRow, b.last);
    var nextLabelRow := if b.column == 1 then tr else labelRow;
    var nextLabelCol := if b.column == 1 then b.column else labelCol;
    if tr < 1 then Placed(copied, nextLabelRow, nextLabelCol, b.column)
    else
      var labelled := if b.column == 1 then copied.cells[(tr, b.column) := Str("TOTALS")] else copied.cells;
      var written := WriteTotalsRow(labelled, tr, b.column, cols, sumCols, totals);
      Placed(copied.(cells := written), nextLabelRow, nextLabelCol, NextColumn(b.column, cols))
  }

  /** One file: a file that cannot be opened, has no worksheet or whose
      first worksheet is empty is skipped and changes nothing. */
  function FileStep(st: CombineState, column: int, f: SourceFile, dec: DateDecoders,
                    includeFileNameHeader: bool): (CombineState, int)
  {
    match FirstSheet(f)
    case Err(_) => (st, column)
    case Ok(sheet) =>
      match sheet.dimension
      case None => (st, column)
      case Some(ext) => SheetStep(st, column, f.name, sheet, ext, dec, includeFileNameHeader)
  }

  /** The files in the order of the listing. */
  function RunFiles(st: CombineState, column: int, files: seq<SourceFile>, dec: DateDecoders,
                    includeFileNameHeader: bool): (CombineState, int)
    decreases |files|
  {
    if files == [] then (st, column)
    else
      var prev := RunFiles(st, column, files[..|files| - 1], dec, includeFileNameHeader);
      FileStep(prev.0, prev.1, files[|files| - 1], dec, includeFileNameHeader)
  }

  /** `allAgencies`: the names of all listed files, skipped ones included. */
  function Names(files: seq<SourceFile>): set<string> {
    set f | f in files :: f.name
  }

  /** The destination rows of the given (row key, date) entries whose date
      is a zero day. */
  function RowsOnZeroDays(d: Dest, zero: set<DateTime>, entries: set<(int, DateTime)>): set<int> {
    set e | e in entries && e.0 in d.rowMap && e.1 in zero :: d.rowMap[e.0]
  }

  /** The destination rows of the dated row keys whose date is a zero day. */
  function HighlightedRows(d: Dest, zero: set<DateTime>): set<int> {
    RowsOnZeroDays(d, zero, d.rowDates.Items)
  }

  /** The outcome of a call that found files: the state after the files, the
      zero days, the sheet with the totals label, and the marked rows. */
  datatype Outcome = Outcome(state: CombineState, zero: set<DateTime>, cells: map<(int, int), Cell>, highlighted: set<int>)

  /** After the files: the zero days over all listed names, the label
      "TOTALS (n)" when a label position is set, the marked rows when asked. */
  function Finished(st: CombineState, files: seq<SourceFile>, highlightZeroRows: bool): Outcome {
    var zero := ZeroDates(st.table.entries, Names(files));
    var cells :=
      if st.labelRow > 0 && st.labelCol > 0
      then st.dest.cells[(st.labelRow, st.labelCol) := Str(TotalsLabel(|zero|))]
      else st.dest.cells;
    Outcome(st, zero, cells, if highlightZeroRows then HighlightedRows(st.dest, zero) else {})
  }

  function Combined(labelRow: int, labelCol: int, files: seq<SourceFile>, dec: DateDecoders,
                    highlightZeroRows: bool, includeFileNameHeader: bool): Outcome
  {
    Finished(RunFiles(Start(labelRow, labelCol), 1, files, dec, includeFileNameHeader).0, files, highlightZeroRows)
  }

  // ------------------------------------------------------- run properties

  /** Within one step: a block changes only the columns from its own column
      to its last one, so every other cell, the separator column after it
      included, stays as it was (not necessarily blank: an abandoned file
      leaves its headers behind); the
      next block starts one column after the separator unless the file was
      abandoned; the label moves only for the block at column 1; and every
      dated row key stays mapped. */
  lemma SheetStepLayout(st: CombineState, column: int, name: string, sheet: Sheet, ext: Extent,
                        dec: DateDecoders, includeFileNameHeader: bool)
    requires DatedRowsMapped(st.dest)
    ensures var (next, nextColumn) := SheetStep(st, column, name, sheet, ext, dec, includeFileNameHeader);
      var cols := ext.Columns();
      && (cols >= 1 ==> forall key: (int, int) :: key.1 < column || key.1 >= column + cols ==>
            SameCell(next.dest.cells, st.dest.cells, key))
      && (nextColumn == column || nextColumn == NextColumn(column, cols))
      && (column != 1 ==> next.labelRow == st.labelRow && next.labelCol == st.labelCol)
      && (column == 1 ==> next.labelCol == 1)
      && DatedRowsMapped(next.dest)
  {
    var cols := ext.Columns();
    var named := if includeFileNameHeader then st.dest.(cells := st.dest.cells[(1, column) := Str(name)]) else st.dest;
    var startRow := if includeFileNameHeader then 2 else 1;
    var h := ScanHeaders(HeaderKinds(sheet), cols);
    var last := LastDataRow(sheet, ext.Rows(), cols);
    var totals := FileTotals(sheet, h.sumCols, last);
    var b := Block(sheet, h.dateCol, startRow, column, last, dec);
    var copied := CopyColumns(named, b, cols);
    var tr := TotalsRow(startRow, last);
    CopyColumnsOutside(named, b, cols);
    CopyColumnsKeys(named, b, cols);
    var labelled := if column == 1 then copied.cells[(tr, column) := Str("TOTALS")] else copied.cells;
    WriteTotalsRowSpec(labelled, tr, column, cols, h.sumCols, totals);
    var written := WriteTotalsRow(labelled, tr, column, cols, h.sumCols, totals);
    var next := SheetStep(st, column, name, sheet, ext, dec, includeFileNameHeader).0;
    assert next.dest == PlaceBlock(named, st.labelRow, st.labelCol, b, cols, h.sumCols, totals).dest;
    assert next.dest.cells == if tr < 1 then copied.cells else written;
    if cols >= 1 {
      forall key: (int, int) | key.1 < column || key.1 >= column + cols
        ensures SameCell(next.dest.cells, st.dest.cells, key)
      {
        assert !InBlock(b, cols, key);
        assert SameCell(copied.cells, named.cells, key);
        assert SameCell(named.cells, st.dest.cells, key);
        assert SameCell(labelled, copied.cells, key);
        assert SameCell(written, labelled, key);
      }
    }
  }

  /** Over a run from column 1: every block starts at column 1 or later, the
      label column is the one before the run or 1, and every dated row key
      stays mapped. */
  lemma {:induction false} RunFilesLayout(st: CombineState, files: seq<SourceFile>, dec: DateDecoders,
                                         includeFileNameHeader: bool)
    requires DatedRowsMapped(st.dest)
    ensures var (last, column) := RunFiles(st, 1, files, dec, includeFileNameHeader);
      && column >= 1
      && (last.labelCol == st.labelCol || last.labelCol == 1)
      && DatedRowsMapped(last.dest)
    decreases |files|
  {
    if files != [] {
      RunFilesLayout(st, files[..|files| - 1], dec, includeFileNameHeader);
      var prev := RunFiles(st, 1, files[..|files| - 1], dec, includeFileNameHeader);
      var f := files[|files| - 1];
      if FirstSheet(f).Ok? && FirstSheet(f).value.dimension.Some? {
        SheetStepLayout(prev.0, prev.1, f.name, FirstSheet(f).value, FirstSheet(f).value.dimension.value,
                        dec, includeFileNameHeader);
      }
    }
  }

  /** No file of a run other than `name` records anything under `name`. */
  lemma {:induction false} RunFilesOtherNames(st: CombineState, column: int, files: seq<SourceFile>, dec: DateDecoders,
                                             includeFileNameHeader: bool, name: string)
    requires forall f :: f in files ==> f.name != name
    requires Silent(st.table.entries, name)
    ensures Silent(RunFiles(st, column, files, dec, includeFileNameHeader).0.table.entries, name)
    decreases |files|
  {
    if files != [] {
      var prefix := files[..|files| - 1];
      assert forall f :: f in prefix ==> f in files;
      RunFilesOtherNames(st, column, prefix, dec, includeFileNameHeader, name);
      var prev := RunFiles(st, column, prefix, dec, includeFileNameHeader);
      var f := files[|files| - 1];
      assert f in files;
      if FirstSheet(f).Ok? && FirstSheet(f).value.dimension.Some? {
        var sheet := FirstSheet(f).value;
        var ext := sheet.dimension.value;
        var h := ScanHeaders(HeaderKinds(sheet), ext.Columns());
        var last := LastDataRow(sheet, ext.Rows(), ext.Columns());
        var rowOf := FileRows(sheet, h.dateCol, h.sumOrdersCol, dec);
        var next := RunFiles(st, column, files, dec, includeFileNameHeader).0;
        assert next == SheetStep(prev.0, prev.1, f.name, sheet, ext, dec, includeFileNameHeader).0;
        assert next.table == if h.dateCol > 0 && h.sumOrdersCol > 0 then RecordRows(prev.0.table, f.name, rowOf, last) else prev.0.table;
        if h.dateCol > 0 && h.sumOrdersCol > 0 {
          var after := RecordRows(prev.0.table, f.name, rowOf, last).entries;
          forall k | k in after
            ensures name !in after[k]
          {
            RecordRowsOthers(prev.0.table, f.name, rowOf, last, k, name);
            if k in prev.0.table.entries {
              assert Silent(prev.0.table.entries, name);
            }
          }
        }
      }
    }
  }

  /** A listed file that is skipped, and whose name no other file has,
      leaves the run without zero days. */
  lemma SkippedFileBlocksZeroDays(labelRow: int, labelCol: int, files: seq<SourceFile>, dec: DateDecoders,
                                  highlightZeroRows: bool, includeFileNameHeader: bool, i: int)
    requires 0 <= i < |files|
    requires FirstSheet(files[i]).Err? || FirstSheet(files[i]).value.dimension.None?
    requires forall j :: 0 <= j < |files| && j != i ==> files[j].name != files[i].name
    ensures Combined(labelRow, labelCol, files, dec, highlightZeroRows, includeFileNameHeader).zero == {}
    ensures Combined(labelRow, labelCol, files, dec, highlightZeroRows, includeFileNameHeader).highlighted == {}
  {
    var name := files[i].name;
    var before := RunFiles(Start(labelRow, labelCol), 1, files[..i], dec, includeFileNameHeader);
    assert forall f :: f in files[..i] ==> f.name != name;
    RunFilesOtherNames(Start(labelRow, labelCol), 1, files[..i], dec, includeFileNameHeader, name);
    assert files[..i + 1][..i] == files[..i];
    var skipped := RunFiles(Start(labelRow, labelCol), 1, files[..i + 1], dec, includeFileNameHeader);
    assert skipped == before;
    RunFilesSuffix(Start(labelRow, labelCol), files, i + 1, dec, includeFileNameHeader);
    var rest := files[i + 1..];
    forall f | f in rest
      ensures f.name != name
    {
      var j :| 0 <= j < |rest| && rest[j] == f;
      assert files[i + 1 + j] == f;
    }
    RunFilesOtherNames(skipped.0, skipped.1, rest, dec, includeFileNameHeader, name);
    var st := RunFiles(Start(labelRow, labelCol), 1, files, dec, includeFileNameHeader).0;
    assert files[i] in files;
    SilentFileBlocksZeroDays(st.table.entries, Names(files), name);
  }

  /** A run is its prefix followed by the rest. */
  lemma {:induction false} RunFilesSuffix(st: CombineState, files: seq<SourceFile>, n: int, dec: DateDecoders,
                                         includeFileNameHeader: bool)
    requires 0 <= n <= |files|
    ensures var prev := RunFiles(st, 1, files[..n], dec, includeFileNameHeader);
      RunFiles(st, 1, files, dec, includeFileNameHeader) == RunFiles(prev.0, prev.1, files[n..], dec, includeFileNameHeader)
    decreases |files| - n
  {
    if n < |files| {
      RunFilesSuffix(st, files[..|files| - 1], n, dec, includeFileNameHeader);
      assert files[..|files| - 1][..n] == files[..n];
      assert files[n..][..|files[n..]| - 1] == files[..|files| - 1][n..];
      assert files[n..][|files[n..]| - 1] == files[|files| - 1];
    } else {
      assert files[..n] == files;
    }
  }

  // --------------------------------------------------------- sheet scans

  /** The header scan of row 3, one column at a time. */
  method ReadHeaders(sheet: Sheet, cols: int) returns (h: Headers)
    ensures h == ScanHeaders(HeaderKinds(sheet), cols)
  {
    var dateColIndex := -1;
    var sumOrdersColIndex := -1;
    var sumColumnIndices: seq<int> := [];
    var c := 1;
    while c <= cols
      invariant 1 <= c && (c <= cols + 1 || c == 1)
      invariant Headers(dateColIndex, sumOrdersColIndex, sumColumnIndices) == ScanHeaders(HeaderKinds(sheet), c - 1)
    {
      var kind := Classify(HeaderText(sheet, c));
      assert ScanHeaders(HeaderKinds(sheet), c) == ScanStep(ScanHeaders(HeaderKinds(sheet), c - 1), c, kind);
      match kind {
        case DateHeader =>
          dateColIndex := c;
        case OrdersHeader =>
          sumOrdersColIndex := c;
          sumColumnIndices := sumColumnIndices + [c];
        case SumHeader =>
          sumColumnIndices := sumColumnIndices + [c];
        case OtherHeader =>
      }
      c := c + 1;
    }
    h := Headers(dateColIndex, sumOrdersColIndex, sumColumnIndices);
  }

  /** Whether some cell in columns 1..cols of row r starts with "Generated:";
      the scan stops at the first. */
  method RowHasSentinel(sheet: Sheet, r: int, cols: int) returns (found: bool)
    ensures found == HasSentinel(sheet, r, cols)
  {
    found := false;
    var c := 1;
    while c <= cols
      invariant 1 <= c && (c <= cols + 1 || c == 1)
      invariant forall c' :: 1 <= c' < c ==> !IsSentinel(sheet, r, c')
    {
      if IsSentinel(sheet, r, c) {
        found := true;
        return;
      }
      c := c + 1;
    }
  }

  /** The data's last row before the first sentinel row at or below row a. */
  function LastBefore(sheet: Sheet, a: int, rows: int, cols: int): int {
    match FirstSentinel(sheet, a, rows, cols)
    case Some(s) => s - 1
    case None => rows
  }

  /** The scan from the last row up to row 4: each sentinel row found moves
      the last data row above it, so the topmost one decides. */
  method FindLastDataRow(sheet: Sheet, rows: int, cols: int) returns (lastDataRow: int)
    ensures lastDataRow == LastDataRow(sheet, rows, cols)
  {
    lastDataRow := rows;
    var r := rows;
    while r >= 4
      invariant r <= rows && (r >= 3 || r == rows)
      invariant lastDataRow == LastBefore(sheet, r + 1, rows, cols)
      decreases r
    {
      var found := RowHasSentinel(sheet, r, cols);
      if found {
        lastDataRow := r - 1;
      }
      r := r - 1;
    }
  }

  /** `columnTotals[sumColIdx] = 0` for every sum column. */
  method ZeroTotals(sumCols: seq<int>) returns (totals: map<int, int>)
    ensures forall c :: c in totals <==> c in sumCols
    ensures forall c :: c in totals ==> totals[c] == 0
  {
    totals := map[];
    var i := 0;
    while i < |sumCols|
      invariant 0 <= i <= |sumCols|
      invariant forall c :: c in totals <==> c in sumCols[..i]
      invariant forall c :: c in totals ==> totals[c] == 0
    {
      assert sumCols[..i + 1] == sumCols[..i] + [sumCols[i]];
      totals := totals[sumCols[i] := 0];
      i := i + 1;
    }
    assert sumCols[..|sumCols|] == sumCols;
  }

  /** Row r's numbers added to the totals of the sum columns. */
  method AddRow(totals: map<int, int>, sheet: Sheet, sumCols: seq<int>, r: int) returns (next: map<int, int>)
    requires Ascending(sumCols)
    requires forall c :: c in totals <==> c in sumCols
    ensures forall c :: c in next <==> c in sumCols
    ensures forall c :: c in next ==> next[c] == totals[c] + NumberOrZero(sheet.At(r, c))
  {
    next := totals;
    var j := 0;
    while j < |sumCols|
      invariant 0 <= j <= |sumCols|
      invariant forall c :: c in next <==> c in sumCols
      invariant forall k :: 0 <= k < |sumCols| ==> sumCols[k] in next && sumCols[k] in totals
      invariant forall k :: 0 <= k < j ==> next[sumCols[k]] == totals[sumCols[k]] + NumberOrZero(sheet.At(r, sumCols[k]))
      invariant forall k :: j <= k < |sumCols| ==> next[sumCols[k]] == totals[sumCols[k]]
    {
      var sumColIdx := sumCols[j];
      ghost var before := next;
      next := next[sumColIdx := next[sumColIdx] + NumberOrZero(sheet.At(r, sumColIdx))];
      forall k | 0 <= k < |sumCols| && k != j
        ensures next[sumCols[k]] == before[sumCols[k]]
      {
        assert sumCols[k] != sumColIdx;
      }
      j := j + 1;
    }
    forall c | c in next
      ensures next[c] == totals[c] + NumberOrZero(sheet.At(r, c))
    {
      var k :| 0 <= k < |sumCols| && sumCols[k] == c;
    }
  }

  /** One file's `columnTotals`: 0 for every sum column, then the numbers of
      rows 4..last added row by row. */
  method FileColumnTotals(sheet: Sheet, sumCols: seq<int>, last: int) returns (totals: map<int, int>)
    requires Ascending(sumCols)
    ensures totals == FileTotals(sheet, sumCols, last)
  {
    totals := ZeroTotals(sumCols);
    var r := 4;
    while r <= last
      invariant 4 <= r && (r <= last + 1 || r == 4)
      invariant forall c :: c in totals <==> c in sumCols
      invariant forall c :: c in totals ==> totals[c] == ColumnSum(sheet, c, r - 1)
    {
      totals := AddRow(totals, sheet, sumCols, r);
      r := r + 1;
    }
  }

  /** The zero days, one dictionary entry at a time. */
  method CalculateZeroDates(table: Table, agencies: set<string>) returns (allZeroDates: set<DateTime>)
    ensures allZeroDates == ZeroDates(table, agencies)
  {
    allZeroDates := {};
    var pending := table.Keys;
    while pending != {}
      invariant pending <= table.Keys
      invariant allZeroDates == set k | k in table && k !in pending && AllZero(table[k], agencies) :: DateOf(k)
      decreases |pending|
    {
      var dateEntry :| dateEntry in pending;
      if AllZero(table[dateEntry], agencies) {
        allZeroDates := allZeroDates + {DateOf(dateEntry)};
      }
      pending := pending - {dateEntry};
    }
  }

  // ----------------------------------------------------------------- state

  /** The state shared by the files of one call. */
  class SharedProcessingState {
    var dateToSumOrdersValues: Table
    var columnTotals: map<int, int>
    var nonZeroSumOrdersCount: int
    var zeroDatesAcrossAllAgencies: set<DateTime>

    constructor ()
      ensures dateToSumOrdersValues == map[] && columnTotals == map[]
      ensures nonZeroSumOrdersCount == 0 && zeroDatesAcrossAllAgencies == {}
    {
      dateToSumOrdersValues := map[];
      columnTotals := map[];
      nonZeroSumOrdersCount := 0;
      zeroDatesAcrossAllAgencies := {};
    }

    /** The date table with its counter. */
    function Dates(): DateTable
      reads this
    {
      DateTable(dateToSumOrdersValues, nonZeroSumOrdersCount)
    }

    /** The date table entries of rows 4..last of the file `name`. */
    method RecordDates(name: string, sheet: Sheet, dateCol: int, sumCol: int, last: int, dec: DateDecoders)
      modifies this
      ensures Dates() == RecordRows(old(Dates()), name, FileRows(sheet, dateCol, sumCol, dec), last)
      ensures columnTotals == old(columnTotals) && zeroDatesAcrossAllAgencies == old(zeroDatesAcrossAllAgencies)
    {
      ghost var rowOf := FileRows(sheet, dateCol, sumCol, dec);
      ghost var start := Dates();
      var r := 4;
      while r <= last
        invariant 4 <= r && (r <= last + 1 || r == 4)
        invariant Dates() == RecordRows(start, name, rowOf, r - 1)
        invariant columnTotals == old(columnTotals) && zeroDatesAcrossAllAgencies == old(zeroDatesAcrossAllAgencies)
      {
        var date := DecodeDate(sheet.At(r, dateCol), dec);
        assert RecordRows(start, name, rowOf, r) == RecordRow(Dates(), name, rowOf(r));
        if date.Some? {
          var sumOrdersDouble := NumberOrZero(sheet.At(r, sumCol));
          assert rowOf(r) == Some((date.value, sumOrdersDouble));
          RecordValue(date.value, name, sumOrdersDouble);
        } else {
          assert rowOf(r) == None;
        }
        r := r + 1;
      }
    }

    /** `DateToSumOrdersValues[date][name] = value`, creating the inner
        dictionary on first use, and the count of values other than 0. */
    method RecordValue(date: DateTime, name: string, value: int)
      modifies this
      ensures Dates() == DateTable(Record(old(dateToSumOrdersValues), date, name, value),
                                   old(nonZeroSumOrdersCount) + if value != 0 then 1 else 0)
      ensures columnTotals == old(columnTotals) && zeroDatesAcrossAllAgencies == old(zeroDatesAcrossAllAgencies)
    {
      if date !in dateToSumOrdersValues {
        dateToSumOrdersValues := dateToSumOrdersValues[date := map[]];
      }
      dateToSumOrdersValues := dateToSumOrdersValues[date := dateToSumOrdersValues[date][name := value]];
      if value != 0 {
        nonZeroSumOrdersCount := nonZeroSumOrdersCount + 1;
      }
    }

    /** A worksheet's share of the shared state: its dated rows recorded when
        it has both a date and an orders column, and its column totals added
        in; the file's own totals are returned for its totals row. */
    method ProcessData(name: string, sheet: Sheet, h: Headers, last: int, dec: DateDecoders)
      returns (totals: map<int, int>)
      requires Ascending(h.sumCols)
      modifies this
      ensures totals == FileTotals(sheet, h.sumCols, last)
      ensures Dates() == if h.dateCol > 0 && h.sumOrdersCol > 0
                         then RecordRows(old(Dates()), name, FileRows(sheet, h.dateCol, h.sumOrdersCol, dec), last)
                         else old(Dates())
      ensures columnTotals == MergeTotals(old(columnTotals), h.sumCols, totals)
      ensures zeroDatesAcrossAllAgencies == old(zeroDatesAcrossAllAgencies)
    {
      if h.dateCol > 0 && h.sumOrdersCol > 0 {
        RecordDates(name, sheet, h.dateCol, h.sumOrdersCol, last, dec);
      }
      totals := FileColumnTotals(sheet, h.sumCols, last);
      MergeColumnTotals(h.sumCols, totals);
    }

    /** Each of the file's sum columns adds its total to the shared one. */
    method MergeColumnTotals(sumCols: seq<int>, totals: map<int, int>)
      modifies this
      ensures columnTotals == MergeTotals(old(columnTotals), sumCols, totals)
      ensures Dates() == old(Dates()) && zeroDatesAcrossAllAgencies == old(zeroDatesAcrossAllAgencies)
    {
      ghost var start := columnTotals;
      var i := 0;
      while i < |sumCols|
        invariant 0 <= i <= |sumCols|
        invariant columnTotals == MergeTotals(start, sumCols[..i], totals)
        invariant dateToSumOrdersValues == old(dateToSumOrdersValues)
        invariant nonZeroSumOrdersCount == old(nonZeroSumOrdersCount)
        invariant zeroDatesAcrossAllAgencies == old(zeroDatesAcrossAllAgencies)
      {
        assert sumCols[..i + 1][..i] == sumCols[..i];
        AddToColumn(sumCols[i], TotalOf(totals, sumCols[i]));
        i := i + 1;
      }
      assert sumCols[..|sumCols|] == sumCols;
    }

    /** `ColumnTotals[colIdx] += value`, starting from 0 for a new column. */
    method AddToColumn(colIdx: int, value: int)
      modifies this
      ensures columnTotals == old(columnTotals)[colIdx := TotalOf(old(columnTotals), colIdx) + value]
      ensures dateToSumOrdersValues == old(dateToSumOrdersValues)
      ensures nonZeroSumOrdersCount == old(nonZeroSumOrdersCount)
      ensures zeroDatesAcrossAllAgencies == old(zeroDatesAcrossAllAgencies)
    {
      if colIdx !in columnTotals {
        columnTotals := columnTotals[colIdx := 0];
      }
      columnTotals := columnTotals[colIdx := columnTotals[colIdx] + value];
    }
  }

  /** The combiner. `destCells` are the values of the destination worksheet
      (also the one the totals label goes to) and `highlightedRows` its rows
      filled as zero days; the label position survives from call to call. */
  class ExcelCombiner {
    var sharedState: SharedProcessingState
    var totalsLabelRow: int
    var totalsLabelColumn: int
    var destCells: map<(int, int), Cell>
    var sourceToDestRowMap: map<int, int>
    var rowDateMap: map<int, DateTime>
    var highlightedRows: set<int>

    constructor ()
      ensures totalsLabelRow == -1 && totalsLabelColumn == -1
      ensures destCells == map[] && sourceToDestRowMap == map[] && rowDateMap == map[] && highlightedRows == {}
    {
      sharedState := new SharedProcessingState();
      totalsLabelRow := -1;
      totalsLabelColumn := -1;
      destCells := map[];
      sourceToDestRowMap := map[];
      rowDateMap := map[];
      highlightedRows := {};
    }

    /** The destination sheet with the two row dictionaries. */
    function Destination(): Dest
      reads this
    {
      Dest(destCells, sourceToDestRowMap, rowDateMap)
    }

    function State(): CombineState
      reads this, sharedState
    {
      CombineState(sharedState.Dates(), sharedState.columnTotals, Destination(), totalsLabelRow, totalsLabelColumn)
    }

    /** Source cell (r, c) of the block: the row dictionaries on the first
        visit of the row key in the date column, then the value. */
    method CopyCellAt(b: Block, c: int, r: int)
      modifies this
      ensures Destination() == CopyCell(old(Destination()), b, c, r)
      ensures sharedState == old(sharedState) && totalsLabelRow == old(totalsLabelRow)
      ensures totalsLabelColumn == old(totalsLabelColumn) && highlightedRows == old(highlightedRows)
    {
      var cellValue := b.sheet.At(r, c);
      var destRow := DestRow(b.startRow, r);
      var uniqueRowKey := RowKey(b.column, r);
      if c == b.dateCol && uniqueRowKey !in sourceToDestRowMap {
        sourceToDestRowMap := sourceToDestRowMap[uniqueRowKey := destRow];
        var date := DecodeDate(cellValue, b.dec);
        if date.Some? {
          rowDateMap := rowDateMap[uniqueRowKey := date.value];
        }
      }
      if c == b.dateCol && !cellValue.Empty? {
        destCells := destCells[(destRow, DestCol(b.column, c)) := DestDateCell(cellValue, b.dec)];
      } else {
        destCells := destCells[(destRow, DestCol(b.column, c)) := cellValue];
      }
    }

    /** The block, column by column: the header, then rows 4..last. */
    method CopyBlock(b: Block, cols: int)
      modifies this
      ensures Destination() == CopyColumns(old(Destination()), b, cols)
      ensures sharedState == old(sharedState) && totalsLabelRow == old(totalsLabelRow)
      ensures totalsLabelColumn == old(totalsLabelColumn) && highlightedRows == old(highlightedRows)
    {
      ghost var start := Destination();
      var c := 1;
      while c <= cols
        invariant 1 <= c && (c <= cols + 1 || c == 1)
        invariant Destination() == CopyColumns(start, b, c - 1)
        invariant sharedState == old(sharedState) && totalsLabelRow == old(totalsLabelRow)
        invariant totalsLabelColumn == old(totalsLabelColumn) && highlightedRows == old(highlightedRows)
      {
        destCells := destCells[(b.startRow, DestCol(b.column, c)) := b.sheet.At(3, c)];
        ghost var headed := Destination();
        var r := 4;
        while r <= b.last
          invariant 4 <= r && (r <= b.last + 1 || r == 4)
          invariant Destination() == CopyRows(headed, b, c, r - 1)
          invariant sharedState == old(sharedState) && totalsLabelRow == old(totalsLabelRow)
          invariant totalsLabelColumn == old(totalsLabelColumn) && highlightedRows == old(highlightedRows)
        {
          CopyCellAt(b, c, r);
          r := r + 1;
        }
        c := c + 1;
      }
    }

    /** The file's totals under its sum columns in the totals row. */
    method WriteTotals(tr: int, column: int, cols: int, sumCols: seq<int>, totals: map<int, int>)
      modifies this
      ensures destCells == WriteTotalsRow(old(destCells), tr, column, cols, sumCols, totals)
      ensures sourceToDestRowMap == old(sourceToDestRowMap) && rowDateMap == old(rowDateMap)
      ensures sharedState == old(sharedState) && totalsLabelRow == old(totalsLabelRow)
      ensures totalsLabelColumn == old(totalsLabelColumn) && highlightedRows == old(highlightedRows)
    {
      ghost var start := destCells;
      var i := 0;
      while i < |sumCols|
        invariant 0 <= i <= |sumCols|
        invariant destCells == WriteTotalsRow(start, tr, column, cols, sumCols[..i], totals)
        invariant sourceToDestRowMap == old(sourceToDestRowMap) && rowDateMap == old(rowDateMap)
        invariant sharedState == old(sharedState) && totalsLabelRow == old(totalsLabelRow)
        invariant totalsLabelColumn == old(totalsLabelColumn) && highlightedRows == old(highlightedRows)
      {
        var sourceCol := sumCols[i];
        assert sumCols[..i + 1][..i] == sumCols[..i];
        if 1 <= sourceCol <= cols {
          destCells := destCells[(tr, DestCol(column, sourceCol)) := Num(TotalOf(totals, sourceCol))];
        }
        i := i + 1;
      }
      assert sumCols[..|sumCols|] == sumCols;
    }

    /** One worksheet with a used range. */
    method ProcessSheet(column: int, fileName: string, sheet: Sheet, ext: Extent, dec: DateDecoders,
                        includeFileNameHeader: bool) returns (next: int)
      modifies this, sharedState
      ensures (State(), next) == SheetStep(old(State()), column, fileName, sheet, ext, dec, includeFileNameHeader)
      ensures sharedState == old(sharedState) && highlightedRows == old(highlightedRows)
      ensures sharedState.zeroDatesAcrossAllAgencies == old(sharedState.zeroDatesAcrossAllAgencies)
    {
      var rows := ext.Rows();
      var cols := ext.Columns();
      var startRow := 1;
      if includeFileNameHeader {
        destCells := destCells[(1, column) := Str(fileName)];
        startRow := 2;
      }
      var h := ReadHeaders(sheet, cols);
      var lastDataRow := FindLastDataRow(sheet, rows, cols);
      ScanHeadersSums(HeaderKinds(sheet), cols);
      var columnTotals := sharedState.ProcessData(fileName, sheet, h, lastDataRow, dec);
      next := PlaceSheet(Block(sheet, h.dateCol, startRow, column, lastDataRow, dec), cols, h.sumCols, columnTotals);
    }

    /** The copy of the block, the totals label and the totals row. */
    method PlaceSheet(b: Block, cols: int, sumCols: seq<int>, columnTotals: map<int, int>) returns (next: int)
      modifies this
      ensures Placed(Destination(), totalsLabelRow, totalsLabelColumn, next)
           == PlaceBlock(old(Destination()), old(totalsLabelRow), old(totalsLabelColumn), b, cols, sumCols, columnTotals)
      ensures sharedState == old(sharedState) && highlightedRows == old(highlightedRows)
      ensures sharedState.zeroDatesAcrossAllAgencies == old(sharedState.zeroDatesAcrossAllAgencies)
    {
      var column := b.column;
      CopyBlock(b, cols);
      var totalsRow := TotalsRow(b.startRow, b.last);
      if column == 1 {
        totalsLabelRow := totalsRow;
        totalsLabelColumn := column;
      }
      if totalsRow < 1 {
        // A cell above row 1 cannot be written: the file's processing stops.
        next := column;
        return;
      }
      if column == 1 {
        destCells := destCells[(totalsRow, column) := Str("TOTALS")];
      }
      WriteTotals(totalsRow, column, cols, sumCols, columnTotals);
      next := NextColumn(column, cols);
    }

    /** One file of the listing; a file without a readable non-empty first
        worksheet is skipped. */
    method ProcessFile(column: int, f: SourceFile, dec: DateDecoders, includeFileNameHeader: bool)
      returns (next: int)
      modifies this, sharedState
      ensures (State(), next) == FileStep(old(State()), column, f, dec, includeFileNameHeader)
      ensures sharedState == old(sharedState) && highlightedRows == old(highlightedRows)
      ensures sharedState.zeroDatesAcrossAllAgencies == old(sharedState.zeroDatesAcrossAllAgencies)
    {
      var workbook := FirstSheet(f);
      if workbook.Err? {
        return column;
      }
      var sourceWorksheet := workbook.value;
      if sourceWorksheet.dimension.None? {
        return column;
      }
      next := ProcessSheet(column, f.name, sourceWorksheet, sourceWorksheet.dimension.value, dec, includeFileNameHeader);
    }

    /** Every row key whose date is a zero day marks its destination row. */
    method HighlightZeroRows()
      requires DatedRowsMapped(Destination())
      modifies this
      ensures highlightedRows == old(highlightedRows) + HighlightedRows(Destination(), sharedState.zeroDatesAcrossAllAgencies)
      ensures Destination() == old(Destination()) && sharedState == old(sharedState)
      ensures totalsLabelRow == old(totalsLabelRow) && totalsLabelColumn == old(totalsLabelColumn)
    {
      var zero := sharedState.zeroDatesAcrossAllAgencies;
      var pending := rowDateMap.Items;
      while pending != {}
        invariant pending <= rowDateMap.Items
        invariant highlightedRows == old(highlightedRows) + RowsOnZeroDays(Destination(), zero, rowDateMap.Items - pending)
        invariant Destination() == old(Destination()) && sharedState == old(sharedState)
        invariant totalsLabelRow == old(totalsLabelRow) && totalsLabelColumn == old(totalsLabelColumn)
        decreases |pending|
      {
        var rowEntry :| rowEntry in pending;
        var uniqueRowKey := rowEntry.0;
        var rowDate := rowEntry.1;
        var destRow := sourceToDestRowMap[uniqueRowKey];
        if rowDate in zero {
          highlightedRows := highlightedRows + {destRow};
        }
        pending := pending - {rowEntry};
      }
      assert rowDateMap.Items - pending == rowDateMap.Items;
    }

    /** The combiner's fields hold the outcome. */
    predicate Shows(out: Outcome)
      reads this, sharedState
    {
      && sharedState.Dates() == out.state.table && sharedState.columnTotals == out.state.columnTotals
      && sharedState.zeroDatesAcrossAllAgencies == out.zero
      && sourceToDestRowMap == out.state.dest.rowMap && rowDateMap == out.state.dest.rowDates
      && destCells == out.cells && highlightedRows == out.highlighted
      && totalsLabelRow == out.state.labelRow && totalsLabelColumn == out.state.labelCol
    }

    /** The files of the listing in order, each block after the previous one. */
    method RunAll(files: seq<SourceFile>, dec: DateDecoders, includeFileNameHeader: bool)
      modifies this, sharedState
      ensures State() == RunFiles(old(State()), 1, files, dec, includeFileNameHeader).0
      ensures sharedState == old(sharedState) && highlightedRows == old(highlightedRows)
      ensures sharedState.zeroDatesAcrossAllAgencies == old(sharedState.zeroDatesAcrossAllAgencies)
    {
      ghost var start := State();
      var currentColumn := 1;
      var i := 0;
      while i < |files|
        invariant 0 <= i <= |files|
        invariant sharedState == old(sharedState) && highlightedRows == old(highlightedRows)
        invariant sharedState.zeroDatesAcrossAllAgencies == old(sharedState.zeroDatesAcrossAllAgencies)
        invariant (State(), currentColumn) == RunFiles(start, 1, files[..i], dec, includeFileNameHeader)
      {
        assert files[..i + 1][..i] == files[..i];
        currentColumn := ProcessFile(currentColumn, files[i], dec, includeFileNameHeader);
        i := i + 1;
      }
      assert files[..|files|] == files;
    }

    /** The zero days, the totals label and the marked rows. */
    method Finish(files: seq<SourceFile>, highlightZeroRows: bool)
      requires DatedRowsMapped(Destination()) && highlightedRows == {}
      modifies this, sharedState
      ensures Shows(Finished(old(State()), files, highlightZeroRows))
      ensures sharedState == old(sharedState)
    {
      ghost var out := Finished(State(), files, highlightZeroRows);
      var allZeroDates := CalculateZeroDates(sharedState.dateToSumOrdersValues, Names(files));
      assert allZeroDates == out.zero;
      sharedState.zeroDatesAcrossAllAgencies := allZeroDates;
      WriteTotalsLabel(|allZeroDates|);
      assert destCells == out.cells;
      if highlightZeroRows {
        HighlightZeroRows();
      }
      assert highlightedRows == out.highlighted;
    }

    /** "TOTALS (n)" at the label position, when one is set. */
    method WriteTotalsLabel(n: nat)
      modifies this
      ensures destCells == if totalsLabelRow > 0 && totalsLabelColumn > 0
                           then old(destCells)[(totalsLabelRow, totalsLabelColumn) := Str(TotalsLabel(n))]
                           else old(destCells)
      ensures sourceToDestRowMap == old(sourceToDestRowMap) && rowDateMap == old(rowDateMap)
      ensures sharedState == old(sharedState) && highlightedRows == old(highlightedRows)
      ensures sharedState.zeroDatesAcrossAllAgencies == old(sharedState.zeroDatesAcrossAllAgencies)
      ensures totalsLabelRow == old(totalsLabelRow) && totalsLabelColumn == old(totalsLabelColumn)
    {
      if totalsLabelRow > 0 && totalsLabelColumn > 0 {
        destCells := destCells[(totalsLabelRow, totalsLabelColumn) := Str(TotalsLabel(n))];
      }
    }

    /** `CombineSpreadsheets`: false, with the shared state and row
        dictionaries reset, when the folder is missing or lists no file;
        otherwise every file in turn, then the zero days, the totals label
        and the marked rows, and true. */
    method CombineSpreadsheets(folderExists: bool, files: seq<SourceFile>, dec: DateDecoders,
                               highlightZeroRows: bool, includeFileNameHeader: bool) returns (ok: bool)
      modifies this
      ensures fresh(sharedState)
      ensures ok == (folderExists && |files| > 0)
      ensures !ok ==>
        && sharedState.Dates() == DateTable(map[], 0) && sharedState.columnTotals == map[]
        && sharedState.zeroDatesAcrossAllAgencies == {}
        && sourceToDestRowMap == map[] && rowDateMap == map[]
        && destCells == old(destCells) && highlightedRows == old(highlightedRows)
        && totalsLabelRow == old(totalsLabelRow) && totalsLabelColumn == old(totalsLabelColumn)
      ensures ok ==> Shows(Combined(old(totalsLabelRow), old(totalsLabelColumn), files, dec,
                                    highlightZeroRows, includeFileNameHeader))
    {
      sharedState := new SharedProcessingState();
      sourceToDestRowMap := map[];
      rowDateMap := map[];
      if !folderExists || |files| == 0 {
        return false;
      }
      destCells := map[];
      highlightedRows := {};
      ghost var start := State();
      assert start == Start(old(totalsLabelRow), old(totalsLabelColumn));
      RunAll(files, dec, includeFileNameHeader);
      RunFilesLayout(start, files, dec, includeFileNameHeader);
      Finish(files, highlightZeroRows);
      ok := true;
    }
  }
}
