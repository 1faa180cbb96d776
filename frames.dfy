/** Cell values and tables as the backend handles them: openpyxl cell values and pandas
    data frames, reduced to the Python types that occur in them. */
module Frames {
  import opened Wrappers
  import Text
  import TimeRange

  /** A calendar date. */
  datatype Day = Day(year: nat, month: nat, day: nat)

  /** One cell, by its Python type. */
  datatype Value =
    | Null                                  // None, NaN or NaT
    | Str(s: string)
    | Num(n: real, text: string)            // an int or float; `text` is Python's str() of it
    | Flag(b: bool)
    | Stamp(d: Day, t: TimeRange.Time)      // a datetime
    | Clock(t: TimeRange.Time)              // a time of day

  /** Four-digit zero-padded year, as `isoformat` writes it. */
  function Pad4(n: nat): string {
    if n < 10 then "000" + Text.NatText(n)
    else if n < 100 then "00" + Text.NatText(n)
    else if n < 1000 then "0" + Text.NatText(n)
    else Text.NatText(n)
  }

  /** "%Y-%m-%d". */
  function DateText(d: Day): string {
    Pad4(d.year) + "-" + Text.Pad2(d.month) + "-" + Text.Pad2(d.day)
  }

  /** "%d/%m/%Y". */
  function DisplayDateText(d: Day): string {
    Text.Pad2(d.day) + "/" + Text.Pad2(d.month) + "/" + Pad4(d.year)
  }

  /** "%Y-%m-%d %H:%M:%S". */
  function DateTimeText(d: Day, t: TimeRange.Time): string {
    DateText(d) + " " + TimeRange.TimeText(t)
  }

  /** Python's `str(v)`. */
  function ValueText(v: Value): string {
    match v
    case Null => "None"
    case Str(s) => s
    case Num(_, text) => text
    case Flag(b) => if b then "True" else "False"
    case Stamp(d, t) => DateTimeText(d, t)
    case Clock(t) => TimeRange.TimeText(t)
  }

  /** Python truthiness: `None`, "", 0 and False are false; datetimes and times are true. */
  predicate Truthy(v: Value) {
    match v
    case Null => false
    case Str(s) => s != ""
    case Num(n, _) => n != 0.0
    case Flag(b) => b
    case Stamp(_, _) => true
    case Clock(_) => true
  }

  /** A data frame: column names and rows of cells, one cell per column. */
  datatype Frame = Frame(columns: seq<string>, rows: seq<seq<Value>>)

  predicate WellFormed(f: Frame) {
    forall r :: 0 <= r < |f.rows| ==> |f.rows[r]| == |f.columns|
  }

  /** A pandas frame always has one cell per column in every row. */
  type WellFormedFrame = f: Frame | WellFormed(f) witness Frame([], [])

  /** Where column `name` sits, when the frame has it. */
  function ColumnIndex(columns: seq<string>, name: string): (k: Option<nat>)
    ensures k.None? <==> name !in columns
    ensures k.Some? ==> k.value < |columns| && columns[k.value] == name
                        && forall m :: 0 <= m < k.value ==> columns[m] != name
  {
    if columns == [] then None
    else if columns[0] == name then Some(0)
    else match ColumnIndex(columns[1..], name)
      case None => None
      case Some(k) => Some(k + 1)
  }
}
