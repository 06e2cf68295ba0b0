/** ByDateExcelReportGenerator.cs: the layout of a daily totals workbook. Row 1
    holds the title, row 3 one header per property, rows 4.. one row per item,
    the next row a `SUM` formula under every numeric column except
    `AgencyNumber` (with "Totals" in column 1 when there is one), and two rows
    further down the timestamp. An existing target file is an error. */
module ByDateReportLayout {
  import opened Wrappers
  import opened Text
  import opened Cells
  import opened DailyReports
  import opened ExcelRowIterator

  /** The property types the generator can meet. */
  datatype TypeKind =
    | IntType | LongType | FloatType | DoubleType | DecimalType
    | StringType | DateTimeType | BoolType
    | NullableType(underlying: TypeKind)

  /** `IsNumericType`: the five numeric types and their nullable forms. */
  predicate IsNumericType(t: TypeKind) {
    t == IntType || t == LongType || t == FloatType || t == DoubleType || t == DecimalType
    || t == NullableType(IntType) || t == NullableType(LongType) || t == NullableType(FloatType)
    || t == NullableType(DoubleType) || t == NullableType(DecimalType)
  }

  predicate IsNumericKind(t: TypeKind) {
    t.IntType? || t.LongType? || t.FloatType? || t.DoubleType? || t.DecimalType?
  }

  /** A type is numeric exactly when it, or the type it makes nullable, is one
      of the five numeric kinds; text, dates and booleans never are. */
  lemma IsNumericTypeSpec(t: TypeKind)
    ensures IsNumericType(t) <==> IsNumericKind(t) || (t.NullableType? && IsNumericKind(t.underlying))
    ensures !IsNumericType(StringType) && !IsNumericType(DateTimeType) && !IsNumericType(BoolType)
    ensures !IsNumericType(NullableType(BoolType)) && !IsNumericType(NullableType(NullableType(IntType)))
  {
  }

  /** A public property as reflection lists it. */
  datatype Property = Property(name: string, kind: TypeKind)

  /** `typeof(DailyReport).GetProperties()`, in declaration order. */
  const DailyReportProperties: seq<Property> := [
    Property("AgencyNumber", LongType),
    Property("AgencyName", StringType),
    Property("ReportDate", DateTimeType),
    Property("SumOrders", IntType),
    Property("SumAdults", IntType),
    Property("SumChildren", IntType),
    Property("SumAdultsChildren", IntType),
    Property("SumVouchers", IntType),
    Property("SumNewClients", IntType)
  ]

  /** `properties[col].GetValue(report)` for every property of a report. */
  function PropertyValues(v: ReportValue): (r: seq<Cell>)
    ensures |r| == |DailyReportProperties|
  {
    [Num(v.agencyNumber), Str(v.agencyName), Date(v.reportDate),
     Num(v.tally.orders), Num(v.tally.adults), Num(v.tally.children),
     Num(v.tally.adults + v.tally.children), Num(v.tally.vouchers), Num(v.tally.newClients)]
  }

  /** Every item has one value per property. */
  predicate WellShaped(properties: seq<Property>, data: seq<seq<Cell>>) {
    forall k :: 0 <= k < |data| ==> |data[k]| == |properties|
  }

  /** What the generator writes: cell values and cell formulas. */
  datatype Output = Output(values: map<(int, int), Cell>, formulas: map<(int, int), string>)

  /** Column c (from 1) gets a total: numeric, and not the agency number. */
  predicate Summed(properties: seq<Property>, c: int) {
    1 <= c <= |properties| && IsNumericType(properties[c - 1].kind) && properties[c - 1].name != "AgencyNumber"
  }

  predicate HasTotals(properties: seq<Property>) {
    exists c :: 1 <= c <= |properties| && Summed(properties, c)
  }

  /** `SUM({name}4:{name}{row - 1})` for column c on totals row `row`. */
  function SumFormula(c: nat, row: int): string {
    "SUM(" + ColumnName(c) + "4:" + ColumnName(c) + IntToString(row - 1) + ")"
  }

  /** The title, header and data cells. */
  function GridValue(properties: seq<Property>, data: seq<seq<Cell>>, title: string, key: (int, int)): Option<Cell>
    requires WellShaped(properties, data)
  {
    if key == (1, 1) then Some(Str(title))
    else if key.0 == 3 && 1 <= key.1 <= |properties| then Some(Str(properties[key.1 - 1].name))
    else if 4 <= key.0 < 4 + |data| && 1 <= key.1 <= |properties| then Some(data[key.0 - 4][key.1 - 1])
    else None
  }

  /** Every value cell of the finished sheet. */
  function LayoutValue(properties: seq<Property>, data: seq<seq<Cell>>, title: string, now: string, key: (int, int)): Option<Cell>
    requires WellShaped(properties, data)
  {
    var totalsRow := 4 + |data|;
    if GridValue(properties, data, title, key).Some? then GridValue(properties, data, title, key)
    else if key == (totalsRow, 1) && HasTotals(properties) then Some(Str("Totals"))
    else if key == (totalsRow + 2, 1) then Some(Str("Generated: " + now))
    else None
  }

  /** Every formula cell: the totals row, summed columns only. */
  function TotalsFormula(properties: seq<Property>, totalsRow: int, key: (int, int)): Option<string> {
    if key.0 == totalsRow && Summed(properties, key.1) then Some(SumFormula(key.1, totalsRow)) else None
  }

  ghost predicate IsLayout(o: Output, properties: seq<Property>, data: seq<seq<Cell>>, title: string, now: string)
    requires WellShaped(properties, data)
  {
    && (forall key :: key in o.values <==> LayoutValue(properties, data, title, now, key).Some?)
    && (forall key :: key in o.values ==> o.values[key] == LayoutValue(properties, data, title, now, key).value)
    && (forall key :: key in o.formulas <==> TotalsFormula(properties, 4 + |data|, key).Some?)
    && (forall key :: key in o.formulas ==> o.formulas[key] == TotalsFormula(properties, 4 + |data|, key).value)
  }

  /** Key `key` comes before column c of row r, in writing order. */
  predicate Before(key: (int, int), r: int, c: int) {
    key.0 < r || (key.0 == r && key.1 <= c)
  }

  /** `values` holds exactly the grid cells written before (r, c). */
  ghost predicate Written(values: map<(int, int), Cell>, properties: seq<Property>, data: seq<seq<Cell>>, title: string, r: int, c: int)
    requires WellShaped(properties, data)
  {
    && (forall key :: key in values <==> GridValue(properties, data, title, key).Some? && Before(key, r, c))
    && (forall key :: key in values ==> values[key] == GridValue(properties, data, title, key).value)
  }

  /** The second copy of the column-name encoder: the same while loop as in
      `ExcelRowIterator`, with the same result. */
  method GetExcelColumnName(columnNumber: int) returns (columnName: string)
    ensures columnNumber > 0 ==> columnName == ColumnName(columnNumber)
    ensures columnNumber <= 0 ==> columnName == ""
  {
    columnName := "";
    var remaining := columnNumber;
    while remaining > 0
      invariant columnNumber <= 0 ==> remaining == columnNumber && columnName == ""
      invariant columnNumber > 0 ==> 0 <= remaining && ColumnName(remaining) + columnName == ColumnName(columnNumber)
      decreases remaining
    {
      var remainder := (remaining - 1) % 26;
      columnName := [Letter(remainder)] + columnName;
      remaining := (remaining - 1) / 26;
    }
  }

  /** `formulas` holds the totals formulas of row `row` in columns up to `col`. */
  ghost predicate FormulasUpTo(formulas: map<(int, int), string>, properties: seq<Property>, row: int, col: int) {
    && (forall key :: key in formulas <==> TotalsFormula(properties, row, key).Some? && key.1 <= col)
    && (forall key :: key in formulas ==> formulas[key] == TotalsFormula(properties, row, key).value)
  }

  lemma FormulasStep(formulas: map<(int, int), string>, properties: seq<Property>, row: int, col: int)
    requires FormulasUpTo(formulas, properties, row, col)
    ensures !Summed(properties, col + 1) ==> FormulasUpTo(formulas, properties, row, col + 1)
    ensures Summed(properties, col + 1) ==>
      FormulasUpTo(formulas[(row, col + 1) := SumFormula(col + 1, row)], properties, row, col + 1)
  {
  }

  /** `AddTotalsRow`: the formulas of row `row`, and whether any was written. */
  method AddTotalsRow(row: int, properties: seq<Property>) returns (formulas: map<(int, int), string>, hasTotals: bool)
    ensures forall key :: key in formulas <==> TotalsFormula(properties, row, key).Some?
    ensures forall key :: key in formulas ==> formulas[key] == TotalsFormula(properties, row, key).value
    ensures hasTotals <==> HasTotals(properties)
  {
    formulas := map[];
    hasTotals := false;
    for col := 0 to |properties|
      invariant FormulasUpTo(formulas, properties, row, col)
      invariant hasTotals <==> AnySummed(properties, col)
    {
      FormulasStep(formulas, properties, row, col);
      if IsNumericType(properties[col].kind) {
        if properties[col].name == "AgencyNumber" {
          continue;
        }
        var name := GetExcelColumnName(col + 1);
        var formula := "SUM(" + name + "4:" + name + IntToString(row - 1) + ")";
        assert formula == SumFormula(col + 1, row);
        formulas := formulas[(row, col + 1) := formula];
        hasTotals := true;
      }
    }
    AnySummedSpec(properties, |properties|);
  }

  /** Some column among the first n is summed. */
  predicate AnySummed(properties: seq<Property>, n: nat) {
    n > 0 && (Summed(properties, n) || AnySummed(properties, n - 1))
  }

  lemma {:induction false} AnySummedSpec(properties: seq<Property>, n: nat)
    ensures AnySummed(properties, n) <==> exists c :: 1 <= c <= n && Summed(properties, c)
  {
    if n > 0 {
      AnySummedSpec(properties, n - 1);
      if AnySummed(properties, n - 1) {
        var c :| 1 <= c <= n - 1 && Summed(properties, c);
        assert 1 <= c <= n && Summed(properties, c);
      }
    }
  }

  /** Writing the grid cell after (r, c), if there is one, keeps `Written`. */
  lemma WrittenStep(values: map<(int, int), Cell>, properties: seq<Property>, data: seq<seq<Cell>>, title: string, r: int, c: int)
    requires WellShaped(properties, data) && Written(values, properties, data, title, r, c)
    ensures GridValue(properties, data, title, (r, c + 1)).None? ==> Written(values, properties, data, title, r, c + 1)
    ensures GridValue(properties, data, title, (r, c + 1)).Some? ==>
      Written(values[(r, c + 1) := GridValue(properties, data, title, (r, c + 1)).value], properties, data, title, r, c + 1)
  {
  }

  /** Below the title, a row written up to its last property is written
      completely. */
  lemma WrittenRow(values: map<(int, int), Cell>, properties: seq<Property>, data: seq<seq<Cell>>, title: string, r: int)
    requires r >= 3 && WellShaped(properties, data) && Written(values, properties, data, title, r, |properties|)
    ensures Written(values, properties, data, title, r + 1, 0)
  {
  }

  /** The grid, the totals label when there are totals, the timestamp and the
      totals formulas make up the layout. */
  lemma LayoutDone(values: map<(int, int), Cell>, formulas: map<(int, int), string>, properties: seq<Property>,
                   data: seq<seq<Cell>>, title: string, now: string)
    requires WellShaped(properties, data) && Written(values, properties, data, title, 4 + |data|, 0)
    requires forall key :: key in formulas <==> TotalsFormula(properties, 4 + |data|, key).Some?
    requires forall key :: key in formulas ==> formulas[key] == TotalsFormula(properties, 4 + |data|, key).value
    ensures var row := 4 + |data|;
      var labelled := if HasTotals(properties) then values[(row, 1) := Str("Totals")] else values;
      IsLayout(Output(labelled[(row + 2, 1) := Str("Generated: " + now)], formulas), properties, data, title, now)
  {
  }

  /** `CreateReport`: the workbook `filePath` receives, or a failure when
      the file already exists, in which case nothing is saved. */
  method CreateReport(filePath: string, existing: set<string>, properties: seq<Property>, data: seq<seq<Cell>>,
                      reportTitle: string, now: string)
    returns (r: Result<Output, Failure>)
    requires WellShaped(properties, data)
    ensures r.Err? <==> filePath in existing
    ensures r.Err? ==> r.error == DuplicateFile(filePath)
    ensures r.Ok? ==> IsLayout(r.value, properties, data, reportTitle, now)
  {
    var values: map<(int, int), Cell> := map[(1, 1) := Str(reportTitle)];
    var row := 3;
    for i := 0 to |properties| + 2
      invariant Written(values, properties, data, reportTitle, 3, i)
    {
      WrittenStep(values, properties, data, reportTitle, 3, i);
      if i < |properties| {
        values := values[(row, i + 1) := Str(properties[i].name)];
      }
    }
    WrittenRow(values, properties, data, reportTitle, 3);
    row := row + 1;
    for k := 0 to |data|
      invariant row == 4 + k
      invariant Written(values, properties, data, reportTitle, row, 0)
    {
      for col := 0 to |properties|
        invariant Written(values, properties, data, reportTitle, row, col)
      {
        WrittenStep(values, properties, data, reportTitle, row, col);
        values := values[(row, col + 1) := data[k][col]];
      }
      WrittenRow(values, properties, data, reportTitle, row);
      row := row + 1;
    }
    var formulas, hasTotals := AddTotalsRow(row, properties);
    LayoutDone(values, formulas, properties, data, reportTitle, now);
    if hasTotals {
      values := values[(row, 1) := Str("Totals")];
    }
    values := values[(row + 2, 1) := Str("Generated: " + now)];
    if filePath in existing {
      return Err(DuplicateFile(filePath));
    }
    return Ok(Output(values, formulas));
  }

  /** Of the daily report's columns, exactly the sums D..I get a total:
      neither the agency number, name nor date does. */
  lemma DailyReportSummed(c: int)
    ensures Summed(DailyReportProperties, c) <==> 4 <= c <= 9
  {
    if 1 <= c <= 9 {
      var q := DailyReportProperties[c - 1];
      if c == 1 {
        assert q.name == "AgencyNumber";
      } else if c <= 3 {
        assert !IsNumericType(q.kind);
      } else {
        assert IsNumericType(q.kind) && q.name[0] == 'S';
      }
    }
  }

  /** With n reports, the daily report has a totals row, and column D sums
      rows 4..3+n, as does column I. */
  lemma DailyReportTotals(n: nat)
    ensures HasTotals(DailyReportProperties)
    ensures SumFormula(4, 4 + n) == "SUM(D4:D" + IntToString(3 + n) + ")"
    ensures SumFormula(9, 4 + n) == "SUM(I4:I" + IntToString(3 + n) + ")"
  {
    DailyReportSummed(4);
    var d, i, total := ColumnName(4), ColumnName(9), IntToString(3 + n);
    assert d == "D" && i == "I";
    assert SumFormula(4, 4 + n) == "SUM(" + d + "4:" + d + total + ")";
    assert SumFormula(9, 4 + n) == "SUM(" + i + "4:" + i + total + ")";
    assert "SUM(" + d + "4:" + d == "SUM(D4:D";
    assert "SUM(" + i + "4:" + i == "SUM(I4:I";
  }
}
