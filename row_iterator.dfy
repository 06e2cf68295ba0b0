/** Utils.cs (`ExcelRowIterator`): spreadsheet column names, the row reader that
    turns a worksheet into column-letter dictionaries, and single-cell lookup. */
module ExcelRowIterator {
  import opened Wrappers
  import opened Text
  import opened Cells

  function Letter(k: int): char
    requires 0 <= k < 26
  {
    ('A' as int + k) as char
  }

  /** The name of column n (1 = "A", 26 = "Z", 27 = "AA"): bijective base 26. */
  function ColumnName(n: nat): string
    decreases n
  {
    if n == 0 then "" else ColumnName((n - 1) / 26) + [Letter((n - 1) % 26)]
  }

  predicate IsColumnLetters(s: string) {
    forall i :: 0 <= i < |s| ==> 'A' <= s[i] <= 'Z'
  }

  /** The column number a name denotes, reading the letters as bijective base-26
      digits A = 1 .. Z = 26. */
  function ColumnNumber(s: string): nat
    requires IsColumnLetters(s)
    decreases |s|
  {
    if s == [] then 0
    else ColumnNumber(s[..|s| - 1]) * 26 + (s[|s| - 1] as int - 'A' as int + 1)
  }

  /** Column names are made of capital letters and are empty only for 0. */
  lemma {:induction false} ColumnNameLetters(n: nat)
    ensures IsColumnLetters(ColumnName(n))
    ensures n >= 1 <==> |ColumnName(n)| > 0
    decreases n
  {
    if n > 0 {
      ColumnNameLetters((n - 1) / 26);
    }
  }

  /** Decoding a column name gives the column back. */
  lemma {:induction false} ColumnNumberOfName(n: nat)
    ensures IsColumnLetters(ColumnName(n)) && ColumnNumber(ColumnName(n)) == n
    decreases n
  {
    ColumnNameLetters(n);
    if n > 0 {
      var q := (n - 1) / 26;
      ColumnNumberOfName(q);
      var s := ColumnName(n);
      assert s[..|s| - 1] == ColumnName(q);
    }
  }

  /** Different columns have different names. */
  lemma ColumnNameInjective(m: nat, n: nat)
    requires ColumnName(m) == ColumnName(n)
    ensures m == n
  {
    ColumnNumberOfName(m);
    ColumnNumberOfName(n);
  }

  /** Every string of capital letters is the name of exactly the column it
      decodes to, so the encoding is a bijection onto such strings. */
  lemma {:induction false} ColumnNameOfNumber(s: string)
    requires IsColumnLetters(s)
    ensures ColumnName(ColumnNumber(s)) == s
    decreases |s|
  {
    if s != [] {
      var p := s[..|s| - 1];
      ColumnNameOfNumber(p);
      var last := s[|s| - 1];
      var k := last as int - 'A' as int;
      var q := ColumnNumber(p);
      var n := ColumnNumber(s);
      assert n == q * 26 + k + 1;
      DivMod26(q, k);
      assert Letter(k) == last;
      assert ColumnName(n) == ColumnName(q) + [Letter(k)];
      assert s == p + [last];
    }
  }

  lemma DivMod26(q: int, k: int)
    requires 0 <= k < 26
    ensures (q * 26 + k) / 26 == q && (q * 26 + k) % 26 == k
  {
  }

  lemma ColumnNameExamples()
    ensures ColumnName(1) == "A" && ColumnName(2) == "B" && ColumnName(26) == "Z"
    ensures ColumnName(27) == "AA" && ColumnName(52) == "AZ" && ColumnName(53) == "BA"
    ensures ColumnName(702) == "ZZ" && ColumnName(703) == "AAA"
  {
  }

  /** `GetExcelColumnName`: the while loop that peels off the last letter. */
  method GetExcelColumnName(columnNumber: int) returns (columnName: string)
    ensures columnNumber > 0 ==> columnName == ColumnName(columnNumber)
    ensures columnNumber <= 0 ==> columnName == ""
  {
    columnName := "";
    var n := columnNumber;
    while n > 0
      invariant columnNumber <= 0 ==> n == columnNumber && columnName == ""
      invariant columnNumber > 0 ==> 0 <= n && ColumnName(n) + columnName == ColumnName(columnNumber)
      decreases n
    {
      var remainder := (n - 1) % 26;
      columnName := [Letter(remainder)] + columnName;
      n := (n - 1) / 26;
    }
  }

  /** A row as the reader yields it: column name to cell value. */
  type Row = map<string, Cell>

  /** No cell among columns 1..endCol of the row holds a value. */
  predicate RowIsEmpty(sheet: Sheet, row: int, endCol: int) {
    forall c :: 1 <= c <= endCol ==> sheet.At(row, c) == Empty
  }

  /** The dictionary built for one row from columns 1..k. */
  function RowData(sheet: Sheet, row: int, k: int): Row
    decreases k
  {
    if k <= 0 then map[] else RowData(sheet, row, k - 1)[ColumnName(k) := sheet.At(row, k)]
  }

  /** The rows in [lo, hi) that hold at least one value in columns 1..endCol,
      in ascending order. */
  function NonEmptyRows(sheet: Sheet, lo: int, hi: int, endCol: int): seq<int>
    decreases hi - lo
  {
    if hi <= lo then []
    else NonEmptyRows(sheet, lo, hi - 1, endCol) + (if RowIsEmpty(sheet, hi - 1, endCol) then [] else [hi - 1])
  }

  function RowsOf(sheet: Sheet, rows: seq<int>, endCol: int): seq<Row> {
    seq(|rows|, i requires 0 <= i < |rows| => RowData(sheet, rows[i], endCol))
  }

  /** What `ReadRowsFromExcel` yields: a missing used range is a null dereference;
      otherwise one dictionary per non-empty row from startRow to the last row. */
  function ReadRows(sheet: Sheet, startRow: int): Result<seq<Row>, Failure> {
    match sheet.dimension
    case None => Err(NullReference)
    case Some(d) => Ok(RowsOf(sheet, NonEmptyRows(sheet, startRow, d.lastRow + 1, d.lastCol), d.lastCol))
  }

  /** `ReadRowsFromExcel`: walks rows startRow..End.Row, skips the rows with no
      value in columns 1..End.Column and builds a dictionary for each other row. */
  method ReadRowsFromExcel(worksheet: Sheet, startRow: int := 15) returns (rows: Result<seq<Row>, Failure>)
    ensures rows == ReadRows(worksheet, startRow)
  {
    if worksheet.dimension.None? {
      return Err(NullReference);
    }
    var endRow := worksheet.dimension.value.lastRow;
    var endCol := worksheet.dimension.value.lastCol;
    var result: seq<Row> := [];
    var row := startRow;
    while row <= endRow
      invariant startRow <= row <= endRow + 1 || (row == startRow && endRow < startRow)
      invariant result == RowsOf(worksheet, NonEmptyRows(worksheet, startRow, row, endCol), endCol)
      decreases endRow - row
    {
      var isRowEmpty := true;
      var col := 1;
      while col <= endCol
        invariant 1 <= col
        invariant isRowEmpty ==> forall c :: 1 <= c < col && c <= endCol ==> worksheet.At(row, c) == Empty
        invariant !isRowEmpty ==> !RowIsEmpty(worksheet, row, endCol)
        decreases endCol - col
      {
        if worksheet.At(row, col) != Empty {
          isRowEmpty := false;
          break;
        }
        col := col + 1;
      }
      ghost var before := NonEmptyRows(worksheet, startRow, row, endCol);
      RowsStep(worksheet, startRow, row, endCol);
      if !isRowEmpty {
        var rowData: Row := map[];
        col := 1;
        while col <= endCol
          invariant 1 <= col <= endCol + 1
          invariant rowData == RowData(worksheet, row, col - 1)
          decreases endCol - col
        {
          var columnLetter := GetExcelColumnName(col);
          rowData := rowData[columnLetter := worksheet.At(row, col)];
          col := col + 1;
        }
        result := result + [rowData];
      }
      row := row + 1;
    }
    assert row != endRow + 1 ==> NonEmptyRows(worksheet, startRow, endRow + 1, endCol) == [];
    rows := Ok(result);
  }

  /** One more row of the scan adds its dictionary exactly when it is not empty. */
  lemma RowsStep(sheet: Sheet, lo: int, row: int, endCol: int)
    requires lo <= row
    ensures var before := NonEmptyRows(sheet, lo, row, endCol);
      && (RowIsEmpty(sheet, row, endCol) ==> NonEmptyRows(sheet, lo, row + 1, endCol) == before)
      && (!RowIsEmpty(sheet, row, endCol) ==>
            RowsOf(sheet, NonEmptyRows(sheet, lo, row + 1, endCol), endCol)
            == RowsOf(sheet, before, endCol) + [RowData(sheet, row, endCol)])
  {
    var before := NonEmptyRows(sheet, lo, row, endCol);
    if !RowIsEmpty(sheet, row, endCol) {
      assert NonEmptyRows(sheet, lo, row + 1, endCol) == before + [row];
    }
  }

  /** The rows are visited in ascending order and one is yielded exactly when it
      lies in the scanned range and holds a value; empty rows are skipped without
      ending the scan. */
  lemma {:induction false} NonEmptyRowsSpec(sheet: Sheet, lo: int, hi: int, endCol: int)
    ensures forall i, j :: 0 <= i < j < |NonEmptyRows(sheet, lo, hi, endCol)| ==>
              NonEmptyRows(sheet, lo, hi, endCol)[i] < NonEmptyRows(sheet, lo, hi, endCol)[j]
    ensures forall r :: r in NonEmptyRows(sheet, lo, hi, endCol) <==> lo <= r < hi && !RowIsEmpty(sheet, r, endCol)
    decreases hi - lo
  {
    if hi > lo {
      NonEmptyRowsSpec(sheet, lo, hi - 1, endCol);
      var prefix := NonEmptyRows(sheet, lo, hi - 1, endCol);
      var all := NonEmptyRows(sheet, lo, hi, endCol);
      forall i | 0 <= i < |prefix|
        ensures prefix[i] < hi - 1
      {
        assert prefix[i] in prefix;
      }
      if RowIsEmpty(sheet, hi - 1, endCol) {
        assert all == prefix;
      } else {
        assert all == prefix + [hi - 1];
        forall i, j | 0 <= i < j < |all|
          ensures all[i] < all[j]
        {
          if j == |prefix| {
            assert all[i] == prefix[i];
          } else {
            assert all[i] == prefix[i] && all[j] == prefix[j];
          }
        }
      }
    }
  }

  /** key is the name of one of the columns 1..k. */
  predicate IsColumnKey(key: string, k: int) {
    exists c :: 1 <= c <= k && key == ColumnName(c)
  }

  /** A yielded row has exactly the keys ColumnName(1..k) ... */
  lemma {:induction false} RowDataKeys(sheet: Sheet, row: int, k: int)
    ensures forall key :: key in RowData(sheet, row, k) <==> IsColumnKey(key, k)
    decreases k
  {
    if k > 0 {
      RowDataKeys(sheet, row, k - 1);
      forall key
        ensures key in RowData(sheet, row, k) <==> IsColumnKey(key, k)
      {
        if key == ColumnName(k) {
          assert 1 <= k <= k && key == ColumnName(k);
        } else if IsColumnKey(key, k) {
          var c :| 1 <= c <= k && key == ColumnName(c);
          assert c != k && 1 <= c <= k - 1;
        }
      }
    }
  }

  /** ... each mapped to the value of that cell. */
  lemma {:induction false} RowDataValues(sheet: Sheet, row: int, k: int)
    ensures forall c :: 1 <= c <= k ==> ColumnName(c) in RowData(sheet, row, k) && RowData(sheet, row, k)[ColumnName(c)] == sheet.At(row, c)
    decreases k
  {
    if k > 0 {
      RowDataValues(sheet, row, k - 1);
      forall c | 1 <= c < k
        ensures ColumnName(c) != ColumnName(k)
      {
        if ColumnName(c) == ColumnName(k) {
          ColumnNameInjective(c, k);
        }
      }
    }
  }

  /** The length of the run of capital letters that starts the string. */
  function LetterPrefixLength(s: string): (n: nat)
    ensures n <= |s| && IsColumnLetters(s[..n]) && (n < |s| ==> !('A' <= s[n] <= 'Z'))
    decreases |s|
  {
    if |s| > 0 && 'A' <= s[0] <= 'Z' then
      var n := 1 + LetterPrefixLength(s[1..]);
      assert s[..n] == [s[0]] + s[1..][..n - 1];
      n
    else 0
  }

  /** The (row, column) an A1-style address denotes. */
  function ParseAddress(address: string): Option<(int, int)> {
    var n := LetterPrefixLength(address);
    var digits := address[n..];
    if n > 0 && |digits| > 0 && AllDigits(digits) then
      Some((DigitsValue(digits) as int, ColumnNumber(address[..n]) as int))
    else None
  }

  /** `ExcelRowIterator.GetCellValue`: the address is column letters followed by a
      row number, as in "B12"; the value of that cell. */
  function GetCellValue(worksheet: Sheet, cellReference: string): Result<Cell, Failure> {
    match ParseAddress(cellReference)
    case None => Err(Argument("address"))
    case Some(rc) => Ok(worksheet.At(rc.0, rc.1))
  }

  /** The address written as ColumnName(col) followed by the row number reads
      back the cell at (row, col). */
  lemma GetCellValueAt(worksheet: Sheet, row: nat, col: nat)
    requires row >= 1 && col >= 1
    ensures GetCellValue(worksheet, ColumnName(col) + NatToString(row)) == Ok(worksheet.At(row, col))
  {
    var name := ColumnName(col);
    var digits := NatToString(row);
    var a := name + digits;
    ColumnNumberOfName(col);
    ColumnNameLetters(col);
    NatToStringDigits(row);
    LetterPrefixOfConcat(name, digits);
    assert a[..|name|] == name && a[|name|..] == digits;
  }

  lemma {:induction false} LetterPrefixOfConcat(letters: string, rest: string)
    requires IsColumnLetters(letters)
    requires |rest| > 0 && IsDigit(rest[0])
    ensures LetterPrefixLength(letters + rest) == |letters|
    decreases |letters|
  {
    if |letters| > 0 {
      LetterPrefixOfConcat(letters[1..], rest);
      assert (letters + rest)[1..] == letters[1..] + rest;
    }
  }

  lemma GetCellValueExamples(worksheet: Sheet)
    ensures GetCellValue(worksheet, "B12") == Ok(worksheet.At(12, 2))
  {
    assert ColumnName(2) == "B";
    assert NatToString(12) == "12";
    GetCellValueAt(worksheet, 12, 2);
  }
}
