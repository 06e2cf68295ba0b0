/** The spreadsheet values the system reads and writes: dates, cells, worksheets
    with their used range, workbooks, and the runtime's failures (the exceptions
    the source lets escape), together with the runtime conversions the source
    applies to cell values. */
module Cells {
  import opened Wrappers
  import opened Text

  /** A calendar day in the proleptic Gregorian calendar. */
  datatype Day = Day(year: int, month: int, dom: int)

  /** A `DateTime`: its calendar day and the ticks elapsed since midnight. */
  datatype DateTime = DateTime(day: Day, ticks: nat)

  /** `DateTime.Date`: the same day at midnight. */
  function DateOf(t: DateTime): DateTime {
    DateTime(t.day, 0)
  }

  /** The value of one worksheet cell; `Empty` is a null `Value`. */
  datatype Cell = Empty | Str(s: string) | Num(n: int) | Date(t: DateTime)

  /** The exceptions the modelled code can raise. */
  datatype Failure =
    | NullReference
    | InvalidCast
    | Format
    | Overflow
    | KeyNotFound(key: string)
    | IndexOutOfRange
    | ArgumentNull(paramName: string)
    | ArgumentOutOfRange(paramName: string)
    | Argument(paramName: string)
    | IllegalAgencyName(name: string)
    | DuplicateFile(path: string)
    | CannotOpen
    | NoWorksheet

  const TicksPerSecond := 10_000_000

  /** A number below 100 as two digits. */
  function TwoDigits(n: int): string {
    (if 0 <= n < 10 then "0" else "") + IntToString(n)
  }

  /** The text of a date value, `DateTime.ToString()` in the general ("G")
      format of the invariant-style US culture: month/day/year, then the time
      of day as h:mm:ss with AM or PM. */
  function DateText(t: DateTime): string {
    DayText(t.day) + " " + TimeText(t.ticks)
  }

  function DayText(d: Day): string {
    IntToString(d.month) + "/" + IntToString(d.dom) + "/" + IntToString(d.year)
  }

  /** Midnight renders as twelve o'clock in the morning. */
  lemma MidnightText()
    ensures TimeText(0) == "12:00:00 AM"
  {
    assert NatToString(0) == "0" && NatToString(12) == "12";
    assert TwoDigits(0) == "00";
  }

  /** One hour after midnight renders differently from midnight, so two
      dates on the same day at different times have different texts. */
  lemma OneInTheMorningText()
    ensures TimeText(36_000_000_000) == "1:00:00 AM"
    ensures TimeText(36_000_000_000) != TimeText(0)
  {
    assert NatToString(0) == "0" && NatToString(1) == "1";
    assert TwoDigits(0) == "00";
    assert 36_000_000_000 / TicksPerSecond == 3600;
    MidnightText();
  }

  /** The time of day given in ticks since midnight. */
  function TimeText(ticks: nat): string {
    var seconds := ticks / TicksPerSecond;
    var hour := (seconds / 3600) % 24;
    var hour12 := if hour % 12 == 0 then 12 else hour % 12;
    IntToString(hour12) + ":" + TwoDigits((seconds / 60) % 60) + ":" + TwoDigits(seconds % 60)
    + (if hour < 12 then " AM" else " PM")
  }

  /** `object.ToString()` of a non-null cell value. */
  function CellText(c: Cell): string
    requires !c.Empty?
  {
    match c
    case Str(s) => s
    case Num(n) => IntToString(n)
    case Date(t) => DateText(t)
  }

  /** `Convert.ToString(object)`: the empty string for null. */
  function ConvertToString(c: Cell): string {
    if c.Empty? then "" else CellText(c)
  }

  /** `value != null && double.TryParse(value.ToString(), out v)`, restricted to
      integral numbers. */
  function CellNumber(c: Cell): Option<int> {
    if c.Empty? then None else ParseInt(CellText(c))
  }

  lemma NumCellNumber(n: int)
    ensures CellNumber(Num(n)) == Some(n)
  {
    ParseIntToString(n);
  }

  const Int32Min: int := -0x8000_0000
  const Int32Max: int := 0x7FFF_FFFF
  const Int64Min: int := -0x8000_0000_0000_0000
  const Int64Max: int := 0x7FFF_FFFF_FFFF_FFFF

  /** `long.Parse(value.ToString())`. */
  function ParseLong(c: Cell): Result<int, Failure> {
    if c.Empty? then Err(NullReference)
    else
      match ParseInt(CellText(c))
      case None => Err(Format)
      case Some(v) => if Int64Min <= v <= Int64Max then Ok(v) else Err(Overflow)
  }

  /** `Convert.ToInt32(object)`: null converts to 0, numbers are range checked,
      strings go through `int.Parse`, a date cannot be converted. */
  function ToInt32(c: Cell): Result<int, Failure> {
    match c
    case Empty => Ok(0)
    case Num(n) => if Int32Min <= n <= Int32Max then Ok(n) else Err(Overflow)
    case Str(s) =>
      (match ParseInt(s)
       case None => Err(Format)
       case Some(v) => if Int32Min <= v <= Int32Max then Ok(v) else Err(Overflow))
    case Date(_) => Err(InvalidCast)
  }

  /** A worksheet's used range (`Dimension`): first and last row and column.
      The spreadsheet library only reports ranges with firstRow <= lastRow and
      firstCol <= lastCol, so `Rows()` and `Columns()` are at least 1 for every
      sheet it hands over; the model does not require this, and a degenerate
      range only makes the combiner place an empty block. */
  datatype Extent = Extent(firstRow: int, firstCol: int, lastRow: int, lastCol: int) {
    /** `Dimension.Rows` */
    function Rows(): int { lastRow - firstRow + 1 }
    /** `Dimension.Columns` */
    function Columns(): int { lastCol - firstCol + 1 }
  }

  /** A worksheet: the stored cells, addressed (row, column) from 1, and the used
      range, which is `None` for an empty sheet. */
  datatype Sheet = Sheet(cells: map<(int, int), Cell>, dimension: Option<Extent>) {
    /** `Cells[row, col].Value` */
    function At(row: int, col: int): Cell {
      if (row, col) in cells then cells[(row, col)] else Empty
    }
  }

  type Workbook = seq<Sheet>

  /** One file of a folder listing: its name without extension and its
      workbook, `None` when the file cannot be opened as a workbook. */
  datatype SourceFile = SourceFile(name: string, workbook: Option<Workbook>)

  /** `package.Workbook.Worksheets[0]` of a file that is opened unconditionally. */
  function FirstSheet(f: SourceFile): Result<Sheet, Failure> {
    match f.workbook
    case None => Err(CannotOpen)
    case Some(wb) => if |wb| == 0 then Err(NoWorksheet) else Ok(wb[0])
  }
}
