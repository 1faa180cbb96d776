/** The preview table the pages show: which columns it hides, how it numbers rows, its
    caption, and the two rate columns it writes with two decimals. */
module DataTable {
  import opened Wrappers
  import Text

  /** A JavaScript value as it sits in a parsed preview row. `Undefined` is what reading a key
      the row does not have gives; `text` is JavaScript's `String(n)` of a number. */
  datatype JsValue = Undefined | JNull | JStr(s: string) | JNum(n: real, text: string) | JBool(b: bool)

  /** A preview object as the pages pass it in; `None` for a property the object does not
      have. */
  datatype PreviewJson = PreviewJson(
    columns: Option<seq<string>>,
    rows: Option<seq<map<string, JsValue>>>,
    totalRows: JsValue)

  /** One displayed row: its number and the text of its visible cells. */
  datatype RowView = RowView(number: nat, cells: seq<string>)

  datatype Table = Table(caption: string, columns: seq<string>, rows: seq<RowView>)

  const HIDDEN_COLUMNS: seq<string> := ["Date_dt"]
  const TWO_DECIMAL_COLUMNS: seq<string> := ["Rate Card Rate", "Negotiated Rate"]

  /** The columns that are shown, in their order. */
  function VisibleColumns(columns: seq<string>): (v: seq<string>)
    ensures forall c :: c in v <==> c in columns && c !in HIDDEN_COLUMNS
    ensures |v| <= |columns|
  {
    if columns == [] then []
    else (if columns[0] in HIDDEN_COLUMNS then [] else [columns[0]]) + VisibleColumns(columns[1..])
  }

  /** Filtering keeps the order: it works piece by piece. */
  lemma {:induction false} VisibleColumnsAppend(a: seq<string>, b: seq<string>)
    ensures VisibleColumns(a + b) == VisibleColumns(a) + VisibleColumns(b)
    decreases |a|
  {
    if a == [] {
      assert a + b == b;
    } else {
      assert (a + b)[0] == a[0];
      assert (a + b)[1..] == a[1..] + b;
      VisibleColumnsAppend(a[1..], b);
    }
  }

  /** A frame without the internal column is shown whole, in order. */
  lemma {:induction false} NothingHidden(columns: seq<string>)
    requires forall m :: 0 <= m < |columns| ==> columns[m] !in HIDDEN_COLUMNS
    ensures VisibleColumns(columns) == columns
  {
    if columns != [] {
      NothingHidden(columns[1..]);
    }
  }

  /** Filtering twice is filtering once. */
  lemma VisibleColumnsIdempotent(columns: seq<string>)
    ensures VisibleColumns(VisibleColumns(columns)) == VisibleColumns(columns)
  {
    var v := VisibleColumns(columns);
    forall m | 0 <= m < |v| ensures v[m] !in HIDDEN_COLUMNS {
      assert v[m] in v;
    }
    NothingHidden(v);
  }

  /** JavaScript's `Number(v)`; `None` is NaN. How a string reads as a number is `parse`. */
  function NumberOf(v: JsValue, parse: string -> Option<real>): Option<real> {
    match v
    case Undefined => None
    case JNull => Some(0.0)
    case JBool(b) => Some(if b then 1.0 else 0.0)
    case JNum(n, _) => Some(n)
    case JStr(s) => parse(s)
  }

  /** `String(v ?? "")`. */
  function CellText(v: JsValue): string {
    match v
    case Undefined => ""
    case JNull => ""
    case JStr(s) => s
    case JNum(_, text) => text
    case JBool(b) => if b then "true" else "false"
  }

  /** What JSX writes for a value placed as a child: nothing for null, undefined and
      booleans. */
  function ChildText(v: JsValue): string {
    match v
    case JStr(s) => s
    case JNum(_, text) => text
    case _ => ""
  }

  /** The whole number of hundredths closest to `a`, the larger one on a tie. */
  function Hundredths(a: real): (k: nat)
    requires a >= 0.0
    ensures (k as real) - 0.5 <= a * 100.0 < (k as real) + 0.5
  {
    (a * 100.0 + 0.5).Floor
  }

  /** Two-digit rendering of a number below 100. */
  lemma Pad2Digits(n: nat)
    requires n < 100
    ensures Text.Pad2(n) == [Text.Digit(n / 10), Text.Digit(n % 10)]
  {
    if n >= 10 {
      assert Text.NatText(n / 10) == [Text.Digit(n / 10)];
    }
  }

  /** `x.toFixed(2)`: a sign for negative numbers, then the rounded hundredths. */
  function Fixed2(x: real): (r: string)
    ensures |r| >= 4 && r[|r| - 3] == '.'
    ensures r[0] == '-' <==> x < 0.0
  {
    var a := if x < 0.0 then -x else x;
    var k := Hundredths(a);
    Pad2Digits(k % 100);
    var digits := Text.NatText(k / 100) + "." + Text.Pad2(k % 100);
    assert digits[0] != '-' by {
      assert digits[0] == Text.NatText(k / 100)[0];
      NatTextDigits(k / 100);
    }
    (if x < 0.0 then "-" else "") + digits
  }

  /** Decimal renderings are made of digits. */
  lemma {:induction false} NatTextDigits(n: nat)
    ensures forall i :: 0 <= i < |Text.NatText(n)| ==> '0' <= Text.NatText(n)[i] <= '9'
    decreases n
  {
    if n >= 10 {
      NatTextDigits(n / 10);
    }
  }

  /** The text `Fixed2` writes names the nearest hundredth: the sign, the whole part, a point
      and the two digits of the cents. */
  lemma Fixed2Denotes(x: real)
    ensures var k := Hundredths(if x < 0.0 then -x else x);
            Fixed2(x) == (if x < 0.0 then "-" else "") + Text.NatText(k / 100) + "."
                         + [Text.Digit(k % 100 / 10), Text.Digit(k % 10)]
  {
    var k := Hundredths(if x < 0.0 then -x else x);
    Pad2Digits(k % 100);
    LastDigit(k);
  }

  /** The last digit of the last two digits is the last digit. */
  lemma LastDigit(k: nat)
    ensures k % 100 % 10 == k % 10
  {
    var q, m := k / 100, k % 100;
    assert k == 10 * (10 * q) + m;
    assert k / 10 == 10 * q + m / 10;
  }

  /** A whole number is written with ".00". */
  lemma Fixed2Whole(n: nat)
    ensures Fixed2(n as real) == Text.NatText(n) + ".00"
  {
    HundredthsWhole(n);
    WholeHundreds(n);
    Fixed2OfHundreds(n as real, n);
  }

  /** A non-negative number of exactly `n` hundreds of hundredths is written as `n` and ".00". */
  lemma Fixed2OfHundreds(x: real, n: nat)
    requires x >= 0.0 && Hundredths(x) / 100 == n && Hundredths(x) % 100 == 0
    ensures Fixed2(x) == Text.NatText(n) + ".00"
  {
    assert Text.Pad2(0) == "00";
  }

  /** 100 n is n hundreds and no remainder, down to the last digit. */
  lemma WholeHundreds(n: nat)
    ensures (100 * n) / 100 == n && (100 * n) % 100 == 0 && (100 * n) % 10 == 0
  {
    assert 100 * n == 10 * (10 * n);
  }

  /** A whole number is a whole number of hundreds of hundredths. */
  lemma HundredthsWhole(n: nat)
    ensures Hundredths(n as real) == 100 * n
  {
    var k := Hundredths(n as real);
    var d := k - 100 * n;
    assert (d as real) == (k as real) - (n as real) * 100.0;
    assert -0.5 < d as real <= 0.5;
  }

  /** `format2(v)`. */
  function Format2(v: JsValue, parse: string -> Option<real>): string {
    if v == JNull || v == Undefined || v == JStr("") then ""
    else match NumberOf(v, parse)
      case None => CellText(v)
      case Some(n) => Fixed2(n)
  }

  /** `format2` writes nothing for null, undefined and "". */
  lemma Format2Blank(v: JsValue, parse: string -> Option<real>)
    requires v.JNull? || v.Undefined? || v == JStr("")
    ensures Format2(v, parse) == ""
  {
  }

  /** `format2` returns a string that does not read as a number unchanged. */
  lemma Format2NotNumeric(s: string, parse: string -> Option<real>)
    requires s != "" && parse(s).None?
    ensures Format2(JStr(s), parse) == s
  {
  }

  /** `format2` writes every other value with exactly two decimals, rounded to the nearest
      hundredth. */
  lemma Format2Numeric(v: JsValue, parse: string -> Option<real>)
    requires NumberOf(v, parse).Some? && !v.JNull? && v != JStr("")
    ensures Format2(v, parse) == Fixed2(NumberOf(v, parse).value)
    ensures var r := Format2(v, parse); |r| >= 4 && r[|r| - 3] == '.'
  {
    var n := NumberOf(v, parse).value;
    assert Format2(v, parse) == Fixed2(n);
  }

  /** `true` and `false` read as 1 and 0. */
  lemma Format2Flag(b: bool, parse: string -> Option<real>)
    ensures Format2(JBool(b), parse) == if b then "1.00" else "0.00"
  {
    var n := if b then 1 else 0;
    assert NumberOf(JBool(b), parse) == Some(n as real);
    FlagText(n);
    assert [Text.Digit(n)] + ".00" == if b then "1.00" else "0.00";
  }

  /** A one-digit whole number is written as its digit and ".00". */
  lemma FlagText(n: nat)
    requires n < 10
    ensures Fixed2(n as real) == [Text.Digit(n)] + ".00"
  {
    Fixed2Whole(n);
  }

  /** `r[c]`. */
  function Get(row: map<string, JsValue>, c: string): JsValue {
    if c in row then row[c] else Undefined
  }

  /** The text of one cell of column `c`. */
  function CellOf(row: map<string, JsValue>, c: string, parse: string -> Option<real>): string {
    if c in TWO_DECIMAL_COLUMNS then Format2(Get(row, c), parse) else CellText(Get(row, c))
  }

  function Cells(row: map<string, JsValue>, columns: seq<string>, parse: string -> Option<real>): (cells: seq<string>)
    ensures |cells| == |columns|
    ensures forall j :: 0 <= j < |columns| ==> cells[j] == CellOf(row, columns[j], parse)
  {
    seq(|columns|, j requires 0 <= j < |columns| => CellOf(row, columns[j], parse))
  }

  /** The line above the table. */
  function Caption(shown: nat, total: JsValue): string {
    "Showing " + Text.NatText(shown) + " rows (Total: " + ChildText(total) + ")"
  }

  /** The table `DataTable` renders for `preview`; `None` renders nothing. */
  function Render(preview: Option<PreviewJson>, parse: string -> Option<real>): (t: Option<Table>)
    ensures t.None? <==> preview.None?
  {
    match preview
    case None => None
    case Some(p) =>
      var columns := p.columns.GetOr([]);
      var rows := p.rows.GetOr([]);
      var total := if p.totalRows.Undefined? then JNum(0.0, "0") else p.totalRows;
      var visible := VisibleColumns(columns);
      Some(Table(
        Caption(|rows|, total),
        visible,
        seq(|rows|, i requires 0 <= i < |rows| => RowView(i + 1, Cells(rows[i], visible, parse)))))
  }

  /** What a rendered preview shows: one line per row numbered from 1, the columns other than
      the internal one in their order, each rate cell through `format2` and every other cell
      as its plain text, and absent parts read as empty (and a total of 0). */
  lemma RenderFacts(p: PreviewJson, parse: string -> Option<real>)
    ensures var t := Render(Some(p), parse).value;
            var rows := p.rows.GetOr([]);
            && t.columns == VisibleColumns(p.columns.GetOr([]))
            && "Date_dt" !in t.columns
            && |t.rows| == |rows|
            && (forall i :: 0 <= i < |rows| ==> t.rows[i].number == i + 1)
            && (forall i, j :: 0 <= i < |rows| && 0 <= j < |t.columns| ==>
                 |t.rows[i].cells| == |t.columns|
                 && (t.columns[j] in TWO_DECIMAL_COLUMNS ==>
                       t.rows[i].cells[j] == Format2(Get(rows[i], t.columns[j]), parse))
                 && (t.columns[j] !in TWO_DECIMAL_COLUMNS ==>
                       t.rows[i].cells[j] == CellText(Get(rows[i], t.columns[j]))))
            && t.caption == Caption(|rows|, if p.totalRows.Undefined? then JNum(0.0, "0") else p.totalRows)
  {
  }

  /** A preview with the internal date column and one rate. */
  const EXAMPLE_PREVIEW := PreviewJson(
    Some(["Date", "Date_dt", "Rate Card Rate"]),
    Some([map["Date" := JStr("01/02/2025"), "Rate Card Rate" := JNum(1500.0, "1500")]]),
    JNum(1.0, "1"))

  lemma ExampleRows(parse: string -> Option<real>)
    ensures Render(Some(EXAMPLE_PREVIEW), parse).value.rows == [RowView(1, ["01/02/2025", "1500.00"])]
  {
    var t := Render(Some(EXAMPLE_PREVIEW), parse).value;
    RenderFacts(EXAMPLE_PREVIEW, parse);
    ExampleColumns();
    ExampleCells(parse);
    assert |t.rows| == 1 && t.rows[0].number == 1;
    assert t.rows[0].cells == ["01/02/2025", "1500.00"];
  }

  lemma ExampleCaption(parse: string -> Option<real>)
    ensures Render(Some(EXAMPLE_PREVIEW), parse).value.caption == "Showing 1 rows (Total: 1)"
  {
    var p := EXAMPLE_PREVIEW;
    assert |p.rows.GetOr([])| == 1;
    assert p.totalRows == JNum(1.0, "1");
    assert Render(Some(p), parse).value.caption == Caption(1, JNum(1.0, "1"));
    CaptionOfOne();
  }

  lemma CaptionOfOne()
    ensures Caption(1, JNum(1.0, "1")) == "Showing 1 rows (Total: 1)"
  {
    assert Text.NatText(1) == "1";
  }

  /** The internal date column is dropped and a rate is written with two decimals. */
  lemma RenderExample(parse: string -> Option<real>)
    ensures Render(Some(EXAMPLE_PREVIEW), parse)
            == Some(Table("Showing 1 rows (Total: 1)", ["Date", "Rate Card Rate"],
                          [RowView(1, ["01/02/2025", "1500.00"])]))
  {
    RenderFacts(EXAMPLE_PREVIEW, parse);
    ExampleColumns();
    ExampleRows(parse);
    ExampleCaption(parse);
  }

  lemma ExampleColumns()
    ensures VisibleColumns(["Date", "Date_dt", "Rate Card Rate"]) == ["Date", "Rate Card Rate"]
  {
    var columns := ["Date", "Date_dt", "Rate Card Rate"];
    assert columns[1..] == ["Date_dt", "Rate Card Rate"];
    assert columns[1..][1..] == ["Rate Card Rate"];
    assert columns[1..][1..][1..] == [];
    assert "Date" !in HIDDEN_COLUMNS && "Rate Card Rate" !in HIDDEN_COLUMNS;
  }

  lemma ExampleRate(parse: string -> Option<real>)
    ensures Format2(JNum(1500.0, "1500"), parse) == "1500.00"
  {
    assert Text.NatText(1500) == "1500" by {
      assert Text.NatText(1) == "1";
      assert Text.NatText(15) == "15";
      assert Text.NatText(150) == "150";
    }
    Fixed2Whole(1500);
    assert Format2(JNum(1500.0, "1500"), parse) == Fixed2(1500.0);
  }

  lemma ExampleCells(parse: string -> Option<real>)
    ensures Cells(map["Date" := JStr("01/02/2025"), "Rate Card Rate" := JNum(1500.0, "1500")],
                  ["Date", "Rate Card Rate"], parse) == ["01/02/2025", "1500.00"]
  {
    ExampleRate(parse);
    assert "Date" !in TWO_DECIMAL_COLUMNS;
    var row := map["Date" := JStr("01/02/2025"), "Rate Card Rate" := JNum(1500.0, "1500")];
    assert CellOf(row, "Date", parse) == "01/02/2025";
    assert CellOf(row, "Rate Card Rate", parse) == "1500.00";
  }
}
