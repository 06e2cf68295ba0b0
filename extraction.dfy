/** ReportGenerator.cs, order extraction: the state machine that walks the
    rows of an order form, skips blank and acknowledgement rows, stops after
    too many consecutive skips, and turns every other row into an `Order`. */
module OrderExtraction {
  import opened Wrappers
  import opened Text
  import opened Cells
  import opened ExcelRowIterator
  import opened Geography
  import opened SpreadsheetModels

  /** `ShouldStopProcessing`: more consecutive skipped rows than the
      configured `InvalidRowsBetweenOrders`. */
  predicate ShouldStopProcessing(consecutiveSkips: int, invalidRowsBetweenOrders: int) {
    consecutiveSkips > invalidRowsBetweenOrders
  }

  const AcknowledgementPrefix: string := "I acknowledge receipt"

  /** `row[key]`: indexing a dictionary with a missing key throws. */
  function Lookup(row: Row, key: string): Result<Cell, Failure> {
    if key in row then Ok(row[key]) else Err(KeyNotFound(key))
  }

  /** `value.ToString()`: calling it on null is a null dereference. */
  function ToText(c: Cell): Result<string, Failure> {
    if c.Empty? then Err(NullReference) else Ok(CellText(c))
  }

  /** `IsSkippableRow`: column A is null or its text starts with the
      acknowledgement sentence. */
  function IsSkippableRow(row: Row): Result<bool, Failure> {
    var a :- Lookup(row, "A");
    Ok(a.Empty? || StartsWith(CellText(a), AcknowledgementPrefix))
  }

  /** `(DateTime)value`: unboxing null is a null dereference, any value that
      is not a date is an invalid cast. */
  function UnboxDate(c: Cell): Result<DateTime, Failure> {
    match c
    case Date(t) => Ok(t)
    case Empty => Err(NullReference)
    case _ => Err(InvalidCast)
  }

  /** `(DateTime)ExcelRowIterator.GetCellValue(worksheet, "B12")`: the date of
      the order form. */
  function OrderDateOf(worksheet: Sheet): Result<DateTime, Failure> {
    var c :- GetCellValue(worksheet, "B12");
    UnboxDate(c)
  }

  /** The order form's date is the value in row 12, column 2. */
  lemma OrderDateIsB12(worksheet: Sheet)
    ensures OrderDateOf(worksheet) == UnboxDate(worksheet.At(12, 2))
    ensures OrderDateOf(worksheet).Ok? <==> worksheet.At(12, 2).Date?
  {
    GetCellValueExamples(worksheet);
  }

  /** `CreateOrderFromRow`, evaluated in the source's order: the form date from
      B12, the agency number parsed from F, the name from B, adults from L,
      children from M, the voucher and new-client flags from N and O being
      non-null, and the city flag from `Geography.IsCity` of P when P is
      non-null. The first failing step is the exception that escapes. */
  function CreateOrderFromRow(row: Row, worksheet: Sheet): Result<Order, Failure> {
    var orderDate :- OrderDateOf(worksheet);
    var f :- Lookup(row, "F");
    var agencyNumber :- ParseLong(f);
    var b :- Lookup(row, "B");
    var agencyName :- ToText(b);
    var l :- Lookup(row, "L");
    var adults :- ToInt32(l);
    var m :- Lookup(row, "M");
    var children :- ToInt32(m);
    var n :- Lookup(row, "N");
    var o :- Lookup(row, "O");
    var p :- Lookup(row, "P");
    var isCity :- if p.Empty? then Ok(false) else IsCity(Some(CellText(p)));
    Ok(Order(orderDate, agencyNumber, agencyName, adults, children, !n.Empty?, !o.Empty?, isCity))
  }

  /** The columns `CreateOrderFromRow` indexes. */
  predicate HasOrderFields(row: Row) {
    && "B" in row && "F" in row && "L" in row
    && "M" in row && "N" in row && "O" in row && "P" in row
  }

  /** The columns the extraction loop indexes: A and the order fields. */
  predicate HasOrderColumns(row: Row) {
    "A" in row && HasOrderFields(row)
  }

  /** A row becomes an order exactly when every cell it reads converts, and
      then each field comes from its own column: the date is the form's B12
      date whatever the row holds, the flags depend only on whether N, O and
      P are null, and the city flag is set only by a P that reads "city". */
  lemma CreateOrderFromRowSpec(row: Row, worksheet: Sheet)
    ensures CreateOrderFromRow(row, worksheet).Ok? <==>
      (&& worksheet.At(12, 2).Date?
       && HasOrderFields(row)
       && ParseLong(row["F"]).Ok?
       && !row["B"].Empty?
       && ToInt32(row["L"]).Ok? && ToInt32(row["M"]).Ok?
       && (!row["P"].Empty? ==> Lower(CellText(row["P"])) == "city" || Lower(CellText(row["P"])) == "county"))
    ensures CreateOrderFromRow(row, worksheet).Ok? ==>
      var o := CreateOrderFromRow(row, worksheet).value;
      && Date(o.orderDate) == worksheet.At(12, 2)
      && ParseLong(row["F"]) == Ok(o.agencyNumber)
      && o.agencyName == CellText(row["B"])
      && ToInt32(row["L"]) == Ok(o.adults) && ToInt32(row["M"]) == Ok(o.children)
      && (o.hasVoucher <==> !row["N"].Empty?)
      && (o.isNewClient <==> !row["O"].Empty?)
      && (o.isCity <==> !row["P"].Empty? && Lower(CellText(row["P"])) == "city")
  {
    OrderDateIsB12(worksheet);
    if HasOrderFields(row) && worksheet.At(12, 2).Date? && ParseLong(row["F"]).Ok? && !row["B"].Empty?
       && ToInt32(row["L"]).Ok? && ToInt32(row["M"]).Ok?
    {
      var p := row["P"];
      var isCity := if p.Empty? then Ok(false) else IsCity(Some(CellText(p)));
      assert !p.Empty? ==> (isCity.Ok? <==> Lower(CellText(p)) == "city" || Lower(CellText(p)) == "county");
      assert CreateOrderFromRow(row, worksheet).Ok? <==> isCity.Ok?;
    }
  }

  /** A form whose B12 is not a date fails on its first order row, with the
      unboxing failure, whatever the row holds. */
  lemma DateFailsFirst(row: Row, worksheet: Sheet)
    requires !worksheet.At(12, 2).Date?
    ensures CreateOrderFromRow(row, worksheet)
         == Err(if worksheet.At(12, 2).Empty? then NullReference else InvalidCast)
  {
    OrderDateIsB12(worksheet);
  }

  /** `acc` in front of the orders of a successful result; a failure stays. */
  function Prepend(acc: seq<Order>, r: Result<seq<Order>, Failure>): Result<seq<Order>, Failure> {
    match r
    case Ok(os) => Ok(acc + os)
    case Err(e) => Err(e)
  }

  /** The extraction loop over the rows still to come, `consecutiveSkips`
      rows having been skipped in a row: the stop test comes before the row is
      classified; a skippable row counts one more skip; any other row becomes
      an order and resets the count. */
  function Extract(rows: seq<Row>, worksheet: Sheet, invalidRowsBetweenOrders: int, consecutiveSkips: int)
    : Result<seq<Order>, Failure>
    decreases |rows|
  {
    if |rows| == 0 || ShouldStopProcessing(consecutiveSkips, invalidRowsBetweenOrders) then Ok([])
    else
      var skippable :- IsSkippableRow(rows[0]);
      if skippable then Extract(rows[1..], worksheet, invalidRowsBetweenOrders, consecutiveSkips + 1)
      else
        var order :- CreateOrderFromRow(rows[0], worksheet);
        Prepend([order], Extract(rows[1..], worksheet, invalidRowsBetweenOrders, 0))
  }

  /** One of the three extraction loops: the `foreach` over the rows with its
      `consecutiveSkips` counter, adding each order to the list. */
  method ExtractOrders(rows: seq<Row>, worksheet: Sheet, invalidRowsBetweenOrders: int)
    returns (orders: Result<seq<Order>, Failure>)
    ensures orders == Extract(rows, worksheet, invalidRowsBetweenOrders, 0)
  {
    var found: seq<Order> := [];
    var consecutiveSkips := 0;
    var i := 0;
    assert rows[0..] == rows;
    PrependNothing(Extract(rows, worksheet, invalidRowsBetweenOrders, 0));
    while i < |rows|
      invariant 0 <= i <= |rows|
      invariant Extract(rows, worksheet, invalidRowsBetweenOrders, 0)
             == Prepend(found, Extract(rows[i..], worksheet, invalidRowsBetweenOrders, consecutiveSkips))
    {
      if ShouldStopProcessing(consecutiveSkips, invalidRowsBetweenOrders) {
        assert found + [] == found;
        return Ok(found);
      }
      assert rows[i..][1..] == rows[i + 1..];
      var skippable :- IsSkippableRow(rows[i]);
      if skippable {
        consecutiveSkips := consecutiveSkips + 1;
        i := i + 1;
        continue;
      }
      var order :- CreateOrderFromRow(rows[i], worksheet);
      PrependPrepend(found, [order], Extract(rows[i + 1..], worksheet, invalidRowsBetweenOrders, 0));
      found := found + [order];
      consecutiveSkips := 0;
      i := i + 1;
    }
    assert rows[i..] == [] && found + [] == found;
    orders := Ok(found);
  }

  lemma PrependNothing(r: Result<seq<Order>, Failure>)
    ensures Prepend([], r) == r
  {
    if r.Ok? {
      assert [] + r.value == r.value;
    }
  }

  lemma PrependPrepend(a: seq<Order>, b: seq<Order>, r: Result<seq<Order>, Failure>)
    ensures Prepend(a, Prepend(b, r)) == Prepend(a + b, r)
  {
    if r.Ok? {
      assert a + (b + r.value) == (a + b) + r.value;
    }
  }

  /** The first k rows are all skippable. */
  predicate SkippableUpTo(rows: seq<Row>, k: int) {
    forall i :: 0 <= i < k && i < |rows| ==> IsSkippableRow(rows[i]) == Ok(true)
  }

  /** A run of k skippable rows, none of which reaches the stop test with too
      many skips, only adds k to the counter. */
  lemma {:induction false} SkipRun(rows: seq<Row>, worksheet: Sheet, threshold: int, skips: int, k: nat)
    requires k <= |rows| && SkippableUpTo(rows, k)
    requires skips + k <= threshold + 1
    ensures Extract(rows, worksheet, threshold, skips) == Extract(rows[k..], worksheet, threshold, skips + k)
    decreases k
  {
    if k > 0 {
      assert IsSkippableRow(rows[0]) == Ok(true);
      assert SkippableUpTo(rows[1..], k - 1) by {
        forall i | 0 <= i < k - 1
          ensures IsSkippableRow(rows[1..][i]) == Ok(true)
        {
          assert rows[1..][i] == rows[i + 1];
        }
      }
      SkipRun(rows[1..], worksheet, threshold, skips + 1, k - 1);
      assert rows[1..][k - 1..] == rows[k..];
    }
  }

  /** Exactly `InvalidRowsBetweenOrders` skippable rows followed by an order
      row: that row is still extracted, and the counter starts again from 0
      after it. */
  lemma ThresholdSkipsThenOrder(rows: seq<Row>, worksheet: Sheet, threshold: nat, order: Order)
    requires threshold < |rows| && SkippableUpTo(rows, threshold)
    requires IsSkippableRow(rows[threshold]) == Ok(false)
    requires CreateOrderFromRow(rows[threshold], worksheet) == Ok(order)
    ensures Extract(rows, worksheet, threshold, 0)
         == Prepend([order], Extract(rows[threshold + 1..], worksheet, threshold, 0))
  {
    SkipRun(rows, worksheet, threshold, 0, threshold);
    assert rows[threshold..][0] == rows[threshold];
    assert rows[threshold..][1..] == rows[threshold + 1..];
  }

  /** One skippable row more than `InvalidRowsBetweenOrders` ends the loop:
      nothing after them is looked at, however many order rows follow. */
  lemma ThresholdPlusOneSkipsStop(rows: seq<Row>, worksheet: Sheet, threshold: nat)
    requires threshold + 1 <= |rows| && SkippableUpTo(rows, threshold + 1)
    ensures Extract(rows, worksheet, threshold, 0) == Ok([])
  {
    SkipRun(rows, worksheet, threshold, 0, threshold + 1);
  }

  /** The orders the rows that are not skippable can be turned into. */
  function RowOrders(rows: seq<Row>, worksheet: Sheet): set<Order>
    decreases |rows|
  {
    if |rows| == 0 then {}
    else
      (if IsSkippableRow(rows[0]) == Ok(false) && CreateOrderFromRow(rows[0], worksheet).Ok?
       then {CreateOrderFromRow(rows[0], worksheet).value} else {})
      + RowOrders(rows[1..], worksheet)
  }

  /** Every extracted order is the order built from one of the rows, a row
      that is not skippable; there are at most as many orders as rows; and
      all of them carry the form's B12 date. */
  lemma {:induction false} ExtractedOrders(rows: seq<Row>, worksheet: Sheet, threshold: int, skips: int)
    requires Extract(rows, worksheet, threshold, skips).Ok?
    ensures |Extract(rows, worksheet, threshold, skips).value| <= |rows|
    ensures forall o :: o in Extract(rows, worksheet, threshold, skips).value ==>
      o in RowOrders(rows, worksheet) && Date(o.orderDate) == worksheet.At(12, 2)
    decreases |rows|
  {
    if |rows| > 0 && !ShouldStopProcessing(skips, threshold) {
      var rest := if IsSkippableRow(rows[0]) == Ok(true) then skips + 1 else 0;
      ExtractedOrders(rows[1..], worksheet, threshold, rest);
      if IsSkippableRow(rows[0]) == Ok(false) {
        CreateOrderFromRowSpec(rows[0], worksheet);
      }
    }
  }

  /** The rows a loop entered with `consecutiveSkips` skips still looks at:
      it counts rows until the stop test fires or the rows run out. Only the
      skippable-row test decides where it stops. */
  function StopPoint(rows: seq<Row>, invalidRowsBetweenOrders: int, consecutiveSkips: int): (k: nat)
    ensures k <= |rows|
    decreases |rows|
  {
    if |rows| == 0 || ShouldStopProcessing(consecutiveSkips, invalidRowsBetweenOrders) then 0
    else
      1 + StopPoint(rows[1..], invalidRowsBetweenOrders,
                    if IsSkippableRow(rows[0]) == Ok(true) then consecutiveSkips + 1 else 0)
  }

  /** The skip counter after the given rows, starting from `consecutiveSkips`:
      a skippable row adds one, any other row resets it. */
  function SkipsAfter(rows: seq<Row>, consecutiveSkips: int): int
    decreases |rows|
  {
    if |rows| == 0 then consecutiveSkips
    else SkipsAfter(rows[1..], if IsSkippableRow(rows[0]) == Ok(true) then consecutiveSkips + 1 else 0)
  }

  /** Every row of the rows, skippable rows dropped, turned into its order;
      the first row whose test or conversion fails is the failure. */
  function Collect(rows: seq<Row>, worksheet: Sheet): Result<seq<Order>, Failure>
    decreases |rows|
  {
    if |rows| == 0 then Ok([])
    else
      var skippable :- IsSkippableRow(rows[0]);
      if skippable then Collect(rows[1..], worksheet)
      else
        var order :- CreateOrderFromRow(rows[0], worksheet);
        Prepend([order], Collect(rows[1..], worksheet))
  }

  /** The number of rows that are not skippable. */
  function OrderRowCount(rows: seq<Row>): nat
    decreases |rows|
  {
    if |rows| == 0 then 0
    else (if IsSkippableRow(rows[0]) == Ok(false) then 1 else 0) + OrderRowCount(rows[1..])
  }

  /** The loop stops at the first row where the stop test fires: at every
      row before `StopPoint` the counter is within the threshold, and after
      `StopPoint` rows either the rows are exhausted or it is beyond it. */
  lemma {:induction false} StopPointSpec(rows: seq<Row>, threshold: int, skips: int)
    ensures forall j :: 0 <= j < StopPoint(rows, threshold, skips) ==>
      !ShouldStopProcessing(SkipsAfter(rows[..j], skips), threshold)
    ensures StopPoint(rows, threshold, skips) == |rows|
         || ShouldStopProcessing(SkipsAfter(rows[..StopPoint(rows, threshold, skips)], skips), threshold)
    decreases |rows|
  {
    assert rows[..0] == [];
    if |rows| > 0 && !ShouldStopProcessing(skips, threshold) {
      var next := if IsSkippableRow(rows[0]) == Ok(true) then skips + 1 else 0;
      var k := StopPoint(rows, threshold, skips);
      StopPointSpec(rows[1..], threshold, next);
      forall j | 1 <= j <= k
        ensures SkipsAfter(rows[..j], skips) == SkipsAfter(rows[1..][..j - 1], next)
      {
        assert rows[..j][0] == rows[0];
        assert rows[..j][1..] == rows[1..][..j - 1];
      }
    }
  }

  /** The extraction loop is the collection of the rows before its stop: the
      stop test and the conversion of rows are independent of each other. */
  lemma {:induction false} ExtractIsCollect(rows: seq<Row>, worksheet: Sheet, threshold: int, skips: int)
    ensures Extract(rows, worksheet, threshold, skips)
         == Collect(rows[..StopPoint(rows, threshold, skips)], worksheet)
    decreases |rows|
  {
    var k := StopPoint(rows, threshold, skips);
    if |rows| == 0 || ShouldStopProcessing(skips, threshold) {
      assert rows[..k] == [];
    } else {
      var next := if IsSkippableRow(rows[0]) == Ok(true) then skips + 1 else 0;
      ExtractIsCollect(rows[1..], worksheet, threshold, next);
      assert rows[..k][0] == rows[0];
      assert rows[..k][1..] == rows[1..][..k - 1];
    }
  }

  /** Collecting succeeds exactly when every row can be classified and every
      row that is not skippable converts into an order. */
  lemma {:induction false} CollectOk(rows: seq<Row>, worksheet: Sheet)
    ensures Collect(rows, worksheet).Ok? <==>
      forall i :: 0 <= i < |rows| ==>
        IsSkippableRow(rows[i]).Ok?
        && (IsSkippableRow(rows[i]) == Ok(false) ==> CreateOrderFromRow(rows[i], worksheet).Ok?)
    decreases |rows|
  {
    if |rows| > 0 {
      CollectOk(rows[1..], worksheet);
      forall i | 1 <= i < |rows|
        ensures rows[1..][i - 1] == rows[i]
      {
      }
    }
  }

  /** A successful collection holds one order per row that is not skippable,
      in row order: the order of row i sits behind the orders of the
      non-skippable rows before it. */
  lemma {:induction false} CollectOrders(rows: seq<Row>, worksheet: Sheet)
    requires Collect(rows, worksheet).Ok?
    ensures |Collect(rows, worksheet).value| == OrderRowCount(rows)
    ensures forall i :: 0 <= i < |rows| && IsSkippableRow(rows[i]) == Ok(false) ==>
      && CreateOrderFromRow(rows[i], worksheet).Ok?
      && OrderRowCount(rows[..i]) < |Collect(rows, worksheet).value|
      && Collect(rows, worksheet).value[OrderRowCount(rows[..i])] == CreateOrderFromRow(rows[i], worksheet).value
    decreases |rows|
  {
    if |rows| > 0 {
      var os := Collect(rows, worksheet).value;
      CollectStep(rows, worksheet);
      CollectOrders(rows[1..], worksheet);
      var rest := Collect(rows[1..], worksheet).value;
      var lead := if IsSkippableRow(rows[0]) == Ok(false) then 1 else 0;
      assert rows[..0] == [];
      forall i | 1 <= i < |rows| && IsSkippableRow(rows[i]) == Ok(false)
        ensures OrderRowCount(rows[..i]) == lead + OrderRowCount(rows[1..][..i - 1])
        ensures os[OrderRowCount(rows[..i])] == rest[OrderRowCount(rows[1..][..i - 1])]
      {
        OrderRowCountPrefix(rows, i);
        assert rows[1..][i - 1] == rows[i];
      }
    }
  }

  /** One row of a successful collection: a skippable row adds nothing, any
      other row puts its order in front of the rest. */
  lemma CollectStep(rows: seq<Row>, worksheet: Sheet)
    requires |rows| > 0 && Collect(rows, worksheet).Ok?
    ensures Collect(rows[1..], worksheet).Ok? && IsSkippableRow(rows[0]).Ok?
    ensures IsSkippableRow(rows[0]) == Ok(true) ==>
      Collect(rows, worksheet).value == Collect(rows[1..], worksheet).value
    ensures IsSkippableRow(rows[0]) == Ok(false) ==>
      && CreateOrderFromRow(rows[0], worksheet).Ok?
      && Collect(rows, worksheet).value
         == [CreateOrderFromRow(rows[0], worksheet).value] + Collect(rows[1..], worksheet).value
  {
  }

  lemma OrderRowCountPrefix(rows: seq<Row>, i: int)
    requires 1 <= i <= |rows|
    ensures OrderRowCount(rows[..i])
         == (if IsSkippableRow(rows[0]) == Ok(false) then 1 else 0) + OrderRowCount(rows[1..][..i - 1])
  {
    assert rows[..i][0] == rows[0];
    assert rows[..i][1..] == rows[1..][..i - 1];
  }

  /** A form whose rows all hold orders: none is skippable and every one
      converts. With a threshold of at least 0 every row's order is
      extracted, in row order, and nothing else. */
  lemma ExtractAllOrderRows(rows: seq<Row>, worksheet: Sheet, threshold: int)
    requires threshold >= 0
    requires forall i :: 0 <= i < |rows| ==> IsSkippableRow(rows[i]) == Ok(false)
    requires forall i :: 0 <= i < |rows| ==> CreateOrderFromRow(rows[i], worksheet).Ok?
    ensures Extract(rows, worksheet, threshold, 0).Ok?
    ensures |Extract(rows, worksheet, threshold, 0).value| == |rows|
    ensures forall i :: 0 <= i < |rows| ==>
      Extract(rows, worksheet, threshold, 0).value[i] == CreateOrderFromRow(rows[i], worksheet).value
  {
    NoSkipsNoStop(rows, threshold);
    ExtractIsCollect(rows, worksheet, threshold, 0);
    assert rows[..|rows|] == rows;
    CollectOk(rows, worksheet);
    CollectOrders(rows, worksheet);
    forall i | 0 <= i < |rows|
      ensures OrderRowCount(rows[..i]) == i
    {
      AllOrderRowsCount(rows, i);
    }
  }

  lemma {:induction false} NoSkipsNoStop(rows: seq<Row>, threshold: int)
    requires threshold >= 0
    requires forall i :: 0 <= i < |rows| ==> IsSkippableRow(rows[i]) == Ok(false)
    ensures StopPoint(rows, threshold, 0) == |rows|
    decreases |rows|
  {
    if |rows| > 0 {
      assert IsSkippableRow(rows[0]) == Ok(false);
      assert forall i :: 0 <= i < |rows[1..]| ==> rows[1..][i] == rows[i + 1];
      NoSkipsNoStop(rows[1..], threshold);
    }
  }

  lemma {:induction false} AllOrderRowsCount(rows: seq<Row>, k: nat)
    requires k <= |rows|
    requires forall i :: 0 <= i < |rows| ==> IsSkippableRow(rows[i]) == Ok(false)
    ensures OrderRowCount(rows[..k]) == k
    decreases k
  {
    if k > 0 {
      assert rows[..k][0] == rows[0];
      assert rows[..k][1..] == rows[1..][..k - 1];
      assert forall i :: 0 <= i < |rows[1..]| ==> rows[1..][i] == rows[i + 1];
      AllOrderRowsCount(rows[1..], k - 1);
    }
  }

  /** An order among `RowOrders` is built from a row that is not skippable. */
  lemma {:induction false} RowOrdersFromRows(rows: seq<Row>, worksheet: Sheet, o: Order)
    requires o in RowOrders(rows, worksheet)
    ensures exists j :: (0 <= j < |rows| && IsSkippableRow(rows[j]) == Ok(false)
                         && CreateOrderFromRow(rows[j], worksheet) == Ok(o))
    decreases |rows|
  {
    if IsSkippableRow(rows[0]) == Ok(false) && CreateOrderFromRow(rows[0], worksheet) == Ok(o) {
    } else {
      RowOrdersFromRows(rows[1..], worksheet, o);
      var j :| 0 <= j < |rows[1..]| && IsSkippableRow(rows[1..][j]) == Ok(false)
        && CreateOrderFromRow(rows[1..][j], worksheet) == Ok(o);
      assert rows[1..][j] == rows[j + 1];
    }
  }

  /** The rows the reader yields from a sheet at least 16 columns wide (A..P)
      hold every column `CreateOrderFromRow` reads, each with the value of
      that cell of the row. */
  lemma ReaderRowsHaveOrderColumns(sheet: Sheet, startRow: int)
    requires ReadRows(sheet, startRow).Ok? && sheet.dimension.value.lastCol >= 16
    ensures forall row :: row in ReadRows(sheet, startRow).value ==> HasOrderColumns(row)
  {
    var endCol := sheet.dimension.value.lastCol;
    var rs := NonEmptyRows(sheet, startRow, sheet.dimension.value.lastRow + 1, endCol);
    ColumnNameExamplesAtoP();
    forall row | row in ReadRows(sheet, startRow).value
      ensures HasOrderColumns(row)
    {
      var i :| 0 <= i < |rs| && row == RowData(sheet, rs[i], endCol);
      RowDataValues(sheet, rs[i], endCol);
      assert ColumnName(1) in row && ColumnName(2) in row && ColumnName(6) in row;
      assert ColumnName(12) in row && ColumnName(13) in row && ColumnName(14) in row;
      assert ColumnName(15) in row && ColumnName(16) in row;
    }
  }

  lemma ColumnNameExamplesAtoP()
    ensures ColumnName(1) == "A" && ColumnName(2) == "B" && ColumnName(6) == "F"
    ensures ColumnName(12) == "L" && ColumnName(13) == "M" && ColumnName(14) == "N"
    ensures ColumnName(15) == "O" && ColumnName(16) == "P"
  {
  }
}
