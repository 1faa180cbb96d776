/** backend/extractor.py: reading a media-plan worksheet and expanding its grid of spot
    counts into one record per spot. The workbook is a grid of cell values with its merged
    ranges; loading it from the file is not part of this model. */
module Extractor {
  import opened Wrappers
  import opened Frames
  import Text

  const FINAL_KPIS: string := "Final KPIs"
  const HEADER_ERROR: string := "Could not find program header row."
  /** What openpyxl raises for a cell address below row 1 or column 1. */
  const CELL_ERROR: string := "Row or column values must be at least 1"
  /** The last row searched for the header, and the last of the fixed columns A-R. */
  const HEADER_SEARCH_LAST: int := 24
  const FIXED_LAST: int := 18

  /** COL_MAP in its order: a key of `indices` and the header text that sets it. */
  const COL_MAP: seq<(string, string)> := [
    ("program", "program"), ("com_name", "com name"), ("duration", "duration"),
    ("language", "language"), ("time", "time"), ("rate_card", "nrate"), ("negotiated", "ncost")]

  /** Programme-cell words that mark a row as a summary row rather than a spot row. */
  const SKIP_WORDS: seq<string> := ["total", "benefit", "bonus", "commercial"]

  /** OUTPUT_HEADERS: the columns of the exported sheet. */
  const OUTPUT_HEADERS: seq<string> := [
    "Program", "Time", "Language", "Dur", "Rate Card Rate",
    "Negotiated Rate", "Date", "Commercial Name", "Channel", "Advertiser"]
  /** The columns of the returned frame, in order. */
  const OUTPUT_COLUMNS: seq<string> := OUTPUT_HEADERS + ["Date_dt"]

  /** A merged range, both corners included. */
  datatype CellRange = CellRange(minRow: int, minCol: int, maxRow: int, maxCol: int)

  /** A worksheet: its non-empty cells by (row, column), its extent and its merged ranges. */
  datatype Sheet = Sheet(cells: map<(int, int), Value>, maxRow: int, maxColumn: int, merged: seq<CellRange>)

  datatype Workbook = Workbook(sheetNames: seq<string>, sheets: map<string, Sheet>)

  /** The columns a spot record is read from, after defaults. */
  datatype Columns = Columns(program: int, comName: int, duration: int, language: int, time: int, rateCard: int, negotiated: int)

  /** One output record before it becomes a frame row. */
  datatype Spot = Spot(
    program: Value, comName: Value, dur: Value, language: Value, time: Value,
    date: string, rateCard: Value, negotiated: Value, channel: string, advertiser: string)

  // ---------------------------------------------------------------------------------------
  // Sheets

  /** `wb.sheetnames` without "Final KPIs". */
  function ValidSheets(names: seq<string>): (r: seq<string>)
    ensures forall n :: n in r <==> n in names && n != FINAL_KPIS
    ensures |r| <= |names|
  {
    if names == [] then []
    else (if names[0] != FINAL_KPIS then [names[0]] else []) + ValidSheets(names[1..])
  }

  /** The filter keeps the workbook's order: it works piece by piece. */
  lemma {:induction false} ValidSheetsAppend(a: seq<string>, b: seq<string>)
    ensures ValidSheets(a + b) == ValidSheets(a) + ValidSheets(b)
  {
    if a == [] {
      assert a + b == b;
    } else {
      assert (a + b)[0] == a[0];
      assert (a + b)[1..] == a[1..] + b;
      ValidSheetsAppend(a[1..], b);
    }
  }

  /** A workbook with no "Final KPIs" sheet is listed unchanged. */
  lemma {:induction false} ValidSheetsKeepsOthers(names: seq<string>)
    requires FINAL_KPIS !in names
    ensures ValidSheets(names) == names
  {
    if names != [] {
      ValidSheetsKeepsOthers(names[1..]);
    }
  }

  /** The value at a valid address (an absent cell reads as None). */
  function At(sheet: Sheet, r: int, c: int): Value {
    if (r, c) in sheet.cells then sheet.cells[(r, c)] else Null
  }

  /** `sheet.cell(row=r, column=c).value`. */
  function CellValue(sheet: Sheet, r: int, c: int): (v: Result<Value, string>)
    ensures v.Err? <==> r < 1 || c < 1
  {
    if r < 1 || c < 1 then Err(CELL_ERROR) else Ok(At(sheet, r, c))
  }

  predicate InCellRange(rg: CellRange, r: int, c: int) {
    rg.minRow <= r <= rg.maxRow && rg.minCol <= c <= rg.maxCol
  }

  /** The index of the first merged range holding the cell. */
  function FirstRange(ranges: seq<CellRange>, r: int, c: int): (k: Option<nat>)
    ensures k.None? <==> forall m :: 0 <= m < |ranges| ==> !InCellRange(ranges[m], r, c)
    ensures k.Some? ==> k.value < |ranges| && InCellRange(ranges[k.value], r, c)
                        && forall m :: 0 <= m < k.value ==> !InCellRange(ranges[m], r, c)
  {
    if ranges == [] then None
    else if InCellRange(ranges[0], r, c) then Some(0)
    else match FirstRange(ranges[1..], r, c)
      case None => None
      case Some(k) => Some(k + 1)
  }

  /** `get_merged_value`: the value of the top-left cell of the first merged range holding
      the cell, or the cell's own value. */
  function MergedValue(sheet: Sheet, r: int, c: int): Result<Value, string> {
    if r < 1 || c < 1 then Err(CELL_ERROR)
    else match FirstRange(sheet.merged, r, c)
      case Some(k) => Ok(At(sheet, sheet.merged[k].minRow, sheet.merged[k].minCol))
      case None => Ok(At(sheet, r, c))
  }

  /** Every cell of a merged range reads as its top-left cell, as long as no earlier range
      claims it; a cell outside every range reads as itself. */
  lemma MergedValueFacts(sheet: Sheet, k: nat, r: int, c: int)
    requires k < |sheet.merged| && r >= 1 && c >= 1
    requires InCellRange(sheet.merged[k], r, c)
    requires forall m :: 0 <= m < k ==> !InCellRange(sheet.merged[m], r, c)
    ensures MergedValue(sheet, r, c) == Ok(At(sheet, sheet.merged[k].minRow, sheet.merged[k].minCol))
  {
  }

  lemma UnmergedValue(sheet: Sheet, r: int, c: int)
    requires r >= 1 && c >= 1
    requires forall m :: 0 <= m < |sheet.merged| ==> !InCellRange(sheet.merged[m], r, c)
    ensures MergedValue(sheet, r, c) == CellValue(sheet, r, c)
  {
  }

  /** `get_merged_value` as the source writes it: a search over the merged ranges. */
  method GetMergedValue(sheet: Sheet, r: int, c: int) returns (v: Result<Value, string>)
    ensures v == MergedValue(sheet, r, c)
  {
    if r < 1 || c < 1 {
      return Err(CELL_ERROR);
    }
    var m := 0;
    while m < |sheet.merged|
      invariant 0 <= m <= |sheet.merged|
      invariant forall p :: 0 <= p < m ==> !InCellRange(sheet.merged[p], r, c)
    {
      var rg := sheet.merged[m];
      if InCellRange(rg, r, c) {
        return Ok(At(sheet, rg.minRow, rg.minCol));
      }
      m := m + 1;
    }
    return Ok(At(sheet, r, c));
  }

  // ---------------------------------------------------------------------------------------
  // Header row and column map

  /** `"program" in str(v).lower()` for a non-empty cell. */
  predicate IsHeaderCell(v: Value) {
    v != Null && Text.Contains(Text.Lower(ValueText(v)), "program")
  }

  /** The first row from `r` to 24 whose column-A cell marks the header. */
  function FindHeader(sheet: Sheet, r: int): Option<int> {
    FirstWhere(q => IsHeaderCell(At(sheet, q, 1)), r, HEADER_SEARCH_LAST)
  }

  /** The first of r..last at which `p` holds. */
  function FirstWhere(p: int -> bool, r: int, last: int): (h: Option<int>)
    decreases last + 1 - r
    ensures h.None? <==> forall q :: r <= q <= last ==> !p(q)
    ensures h.Some? ==> r <= h.value <= last && p(h.value) && forall q :: r <= q < h.value ==> !p(q)
  {
    if r > last then None
    else if p(r) then Some(r)
    else FirstWhere(p, r + 1, last)
  }

  /** A header cell's text for matching: "" for an empty cell, else `str(v).lower()`. */
  function HeaderText(sheet: Sheet, h: int, c: int): string {
    var v := At(sheet, h, c);
    if v == Null then "" else Text.Lower(ValueText(v))
  }

  /** Column q of the header row names `target`. */
  predicate Labelled(sheet: Sheet, h: int, q: int, target: string) {
    Text.Contains(HeaderText(sheet, h, q), target)
  }

  /** The last of columns 1..n whose header text contains `target`. */
  function LastColumnWith(sheet: Sheet, h: int, target: string, n: int): Option<int> {
    LastWhere(q => Labelled(sheet, h, q, target), n)
  }

  /** The last of 1..n at which `p` holds. */
  function LastWhere(p: int -> bool, n: int): (c: Option<int>)
    decreases n
    ensures c.None? <==> forall q :: 1 <= q <= n ==> !p(q)
    ensures c.Some? ==> 1 <= c.value <= n && p(c.value) && forall q :: c.value < q <= n ==> !p(q)
  {
    if n < 1 then None
    else if p(n) then Some(n)
    else LastWhere(p, n - 1)
  }

  /** `indices.get(key)` after the column scan has seen columns 1..n. */
  function Lookup(indices: map<string, int>, key: string): Option<int> {
    if key in indices then Some(indices[key]) else None
  }

  function GetOr(indices: map<string, int>, key: string, default: int): int {
    if key in indices then indices[key] else default
  }

  /** The keys of COL_MAP are distinct, so each entry writes its own slot of `indices`. */
  lemma ColMapKeysDistinct()
    ensures forall m, p :: 0 <= m < p < |COL_MAP| ==> COL_MAP[m].0 != COL_MAP[p].0
  {
  }

  /** Step 1: the first of rows 1..24 whose column-A cell mentions "program". */
  method FindHeaderRow(sheet: Sheet) returns (res: Result<int, string>)
    ensures res.Err? <==> FindHeader(sheet, 1).None?
    ensures res.Err? ==> res.error == HEADER_ERROR
    ensures res.Ok? ==> res.value == FindHeader(sheet, 1).value
  {
    var r := 1;
    while r <= HEADER_SEARCH_LAST
      invariant 1 <= r <= HEADER_SEARCH_LAST + 1
      invariant FindHeader(sheet, 1) == FindHeader(sheet, r)
    {
      if IsHeaderCell(At(sheet, r, 1)) {
        return Ok(r);
      }
      r := r + 1;
    }
    return Err(HEADER_ERROR);
  }

  /** Step 2: scan columns A-R of the header row, pointing each COL_MAP key whose text the
      header contains at the column, so that the last such column wins. */
  method MapColumns(sheet: Sheet, h: int) returns (indices: map<string, int>)
    ensures forall m :: 0 <= m < |COL_MAP| ==> Lookup(indices, COL_MAP[m].0) == LastColumnWith(sheet, h, COL_MAP[m].1, FIXED_LAST)
  {
    ColMapKeysDistinct();
    indices := map[];
    var c := 1;
    while c <= FIXED_LAST
      invariant 1 <= c <= FIXED_LAST + 1
      invariant forall m :: 0 <= m < |COL_MAP| ==> Lookup(indices, COL_MAP[m].0) == LastColumnWith(sheet, h, COL_MAP[m].1, c - 1)
    {
      var text := HeaderText(sheet, h, c);
      var k := 0;
      while k < |COL_MAP|
        invariant 0 <= k <= |COL_MAP|
        invariant forall m :: 0 <= m < k ==> Lookup(indices, COL_MAP[m].0) == LastColumnWith(sheet, h, COL_MAP[m].1, c)
        invariant forall m :: k <= m < |COL_MAP| ==> Lookup(indices, COL_MAP[m].0) == LastColumnWith(sheet, h, COL_MAP[m].1, c - 1)
      {
        if Text.Contains(text, COL_MAP[k].1) {
          indices := indices[COL_MAP[k].0 := c];
        }
        k := k + 1;
      }
      c := c + 1;
    }
  }

  /** `indices.get(key, default)` for the seven keys, with the source's defaults. */
  function ColumnsOf(indices: map<string, int>): Columns {
    Columns(GetOr(indices, "program", 1), GetOr(indices, "com_name", 2), GetOr(indices, "duration", 3),
            GetOr(indices, "language", 4), GetOr(indices, "time", 6), GetOr(indices, "rate_card", 8),
            GetOr(indices, "negotiated", 9))
  }

  // ---------------------------------------------------------------------------------------
  // Date columns

  /** Step 3 from column `c` on: each column whose day-number cell (row h - 1) is filled
      gets the label "{day} {month}", the month read through the merged range of row h - 3;
      the scan stops at the first empty day cell or after the last column. */
  function DateColumns(sheet: Sheet, h: int, c: int): (r: Result<seq<(int, string)>, string>)
    decreases sheet.maxColumn + 1 - c
    ensures r.Ok? ==> forall k :: 0 <= k < |r.value| ==> c <= r.value[k].0 <= sheet.maxColumn && At(sheet, h - 1, r.value[k].0) != Null
    ensures r.Ok? ==> forall k :: 0 <= k < |r.value| ==> r.value[k].0 == c + k
    ensures r.Ok? ==> c + |r.value| > sheet.maxColumn || At(sheet, h - 1, c + |r.value|) == Null
  {
    if c > sheet.maxColumn then Ok([])
    else match CellValue(sheet, h - 1, c)
      case Err(e) => Err(e)
      case Ok(day) =>
        if day == Null then Ok([])
        else match MergedValue(sheet, h - 3, c)
          case Err(e) => Err(e)
          case Ok(month) =>
            match DateColumns(sheet, h, c + 1)
            case Err(e) => Err(e)
            case Ok(rest) => Ok([(c, ValueText(day) + " " + ValueText(month))] + rest)
  }

  /** A header in row 1 reads row 0 for the day numbers, and openpyxl refuses that address,
      as soon as the sheet reaches column S. */
  lemma HeaderInFirstRowFails(sheet: Sheet)
    requires sheet.maxColumn >= 19
    ensures DateColumns(sheet, 1, 19) == Err(CELL_ERROR)
  {
  }

  /** `r` with `p` in front of its columns. */
  function Prefixed(p: seq<(int, string)>, r: Result<seq<(int, string)>, string>): Result<seq<(int, string)>, string> {
    match r
    case Err(e) => Err(e)
    case Ok(rest) => Ok(p + rest)
  }

  lemma PrefixedNil(r: Result<seq<(int, string)>, string>)
    ensures Prefixed([], r) == r
  {
    if r.Ok? {
      assert [] + r.value == r.value;
    }
  }

  lemma PrefixedSnoc(p: seq<(int, string)>, x: (int, string), r: Result<seq<(int, string)>, string>)
    ensures Prefixed(p, Prefixed([x], r)) == Prefixed(p + [x], r)
  {
    if r.Ok? {
      assert p + ([x] + r.value) == (p + [x]) + r.value;
    }
  }

  /** Step 3 as a loop. */
  method CollectDateColumns(sheet: Sheet, h: int) returns (res: Result<seq<(int, string)>, string>)
    ensures res == DateColumns(sheet, h, 19)
  {
    var cols: seq<(int, string)> := [];
    var c := 19;
    PrefixedNil(DateColumns(sheet, h, 19));
    while c <= sheet.maxColumn
      invariant c >= 19
      invariant DateColumns(sheet, h, 19) == Prefixed(cols, DateColumns(sheet, h, c))
      decreases sheet.maxColumn + 1 - c
    {
      var day := CellValue(sheet, h - 1, c);
      if day.Err? {
        return Err(day.error);
      }
      if day.value == Null {
        assert cols + [] == cols;
        return Ok(cols);
      }
      var month := GetMergedValue(sheet, h - 3, c);
      if month.Err? {
        return Err(month.error);
      }
      var entry := (c, ValueText(day.value) + " " + ValueText(month.value));
      PrefixedSnoc(cols, entry, DateColumns(sheet, h, c + 1));
      cols := cols + [entry];
      c := c + 1;
    }
    assert cols + [] == cols;
    return Ok(cols);
  }

  // ---------------------------------------------------------------------------------------
  // Spot expansion

  /** Rows whose programme cell is empty or names a summary line yield no spots. */
  predicate Skipped(prog: Value) {
    !Truthy(prog) || exists w :: w in SKIP_WORDS && Text.Contains(Text.Lower(ValueText(prog)), w)
  }

  /** `int(spot_count)` for a cell that passes `spot_count and isinstance(spot_count, (int,
      float)) and spot_count > 0`, else 0 (a bool is an int in Python, True counting 1). */
  function SpotCount(v: Value): nat {
    match v
    case Num(n, _) => if n > 0.0 then n.Floor else 0
    case Flag(b) => if b then 1 else 0
    case _ => 0
  }

  /** The record appended for row `r` and date label `date`. */
  function SpotOf(sheet: Sheet, r: int, cols: Columns, date: string, channel: string, advertiser: string): Spot {
    Spot(At(sheet, r, cols.program), At(sheet, r, cols.comName), At(sheet, r, cols.duration),
         At(sheet, r, cols.language), At(sheet, r, cols.time), date,
         At(sheet, r, cols.rateCard), At(sheet, r, cols.negotiated), channel, advertiser)
  }

  /** The records of row `r` for the given date columns: `int(count)` copies per column. */
  function RowSpots(sheet: Sheet, r: int, cols: Columns, dates: seq<(int, string)>, channel: string, advertiser: string): seq<Spot> {
    if dates == [] then []
    else
      var last := dates[|dates| - 1];
      RowSpots(sheet, r, cols, dates[..|dates| - 1], channel, advertiser)
      + seq(SpotCount(At(sheet, r, last.0)), _ => SpotOf(sheet, r, cols, last.1, channel, advertiser))
  }

  /** The records of rows h+1 .. n. */
  function GridSpots(sheet: Sheet, h: int, cols: Columns, dates: seq<(int, string)>, channel: string, advertiser: string, n: int): seq<Spot>
    decreases n - h
  {
    if n <= h then []
    else GridSpots(sheet, h, cols, dates, channel, advertiser, n - 1)
         + (if Skipped(At(sheet, n, cols.program)) then [] else RowSpots(sheet, n, cols, dates, channel, advertiser))
  }

  /** The sum of the spot counts of one row over the date columns. */
  function RowTotal(sheet: Sheet, r: int, dates: seq<(int, string)>): nat {
    if dates == [] then 0 else SpotCount(At(sheet, r, dates[0].0)) + RowTotal(sheet, r, dates[1..])
  }

  /** The sum of the spot counts over the kept rows h+1 .. n. */
  function GridTotal(sheet: Sheet, h: int, prog: int, dates: seq<(int, string)>, n: int): nat
    decreases n - h
  {
    if n <= h then 0
    else GridTotal(sheet, h, prog, dates, n - 1) + (if Skipped(At(sheet, n, prog)) then 0 else RowTotal(sheet, n, dates))
  }

  lemma {:induction false} RowTotalSnoc(sheet: Sheet, r: int, dates: seq<(int, string)>, d: (int, string))
    ensures RowTotal(sheet, r, dates + [d]) == RowTotal(sheet, r, dates) + SpotCount(At(sheet, r, d.0))
  {
    if dates != [] {
      assert (dates + [d])[1..] == dates[1..] + [d];
      RowTotalSnoc(sheet, r, dates[1..], d);
    }
  }

  /** One row yields as many records as its counts add up to, every one of them carrying the
      row's programme cell, the arguments' channel and advertiser and one of the labels. */
  lemma {:induction false} RowSpotsFacts(sheet: Sheet, r: int, cols: Columns, dates: seq<(int, string)>, channel: string, advertiser: string)
    ensures var s := RowSpots(sheet, r, cols, dates, channel, advertiser);
      && |s| == RowTotal(sheet, r, dates)
      && forall k :: 0 <= k < |s| ==>
           s[k].channel == channel && s[k].advertiser == advertiser && s[k].program == At(sheet, r, cols.program)
           && exists d :: d in dates && s[k].date == d.1
  {
    if dates != [] {
      var init, last := dates[..|dates| - 1], dates[|dates| - 1];
      RowSpotsFacts(sheet, r, cols, init, channel, advertiser);
      assert dates == init + [last];
      RowTotalSnoc(sheet, r, init, last);
      var s := RowSpots(sheet, r, cols, dates, channel, advertiser);
      var p := RowSpots(sheet, r, cols, init, channel, advertiser);
      forall k | 0 <= k < |s|
        ensures exists d :: d in dates && s[k].date == d.1
      {
        if k < |p| {
          assert s[k] == p[k];
          var d :| d in init && p[k].date == d.1;
          assert d in dates;
        } else {
          assert s[k].date == last.1;
        }
      }
    }
  }

  /** The whole grid: the number of records is the sum of the counts over the kept rows;
      every record carries the channel and advertiser passed in and a programme cell that
      is filled and not a summary line. */
  lemma {:induction false} GridSpotsFacts(sheet: Sheet, h: int, cols: Columns, dates: seq<(int, string)>, channel: string, advertiser: string, n: int)
    decreases n - h
    ensures var s := GridSpots(sheet, h, cols, dates, channel, advertiser, n);
      && |s| == GridTotal(sheet, h, cols.program, dates, n)
      && forall k :: 0 <= k < |s| ==> s[k].channel == channel && s[k].advertiser == advertiser && !Skipped(s[k].program)
  {
    if n > h {
      GridSpotsFacts(sheet, h, cols, dates, channel, advertiser, n - 1);
      RowSpotsFacts(sheet, n, cols, dates, channel, advertiser);
    }
  }

  /** The records of one kept row, as the two inner loops append them. */
  method ExpandRow(sheet: Sheet, r: int, cols: Columns, dates: seq<(int, string)>, channel: string, advertiser: string)
    returns (spots: seq<Spot>)
    ensures spots == RowSpots(sheet, r, cols, dates, channel, advertiser)
  {
    spots := [];
    var k := 0;
    while k < |dates|
      invariant 0 <= k <= |dates|
      invariant spots == RowSpots(sheet, r, cols, dates[..k], channel, advertiser)
    {
      assert dates[..k + 1][..k] == dates[..k];
      var count := SpotCount(At(sheet, r, dates[k].0));
      var spot := SpotOf(sheet, r, cols, dates[k].1, channel, advertiser);
      ghost var before := spots;
      var i := 0;
      while i < count
        invariant 0 <= i <= count
        invariant spots == before + seq(i, _ => spot)
      {
        spots := spots + [spot];
        i := i + 1;
      }
      k := k + 1;
    }
    assert dates[..|dates|] == dates;
  }

  // ---------------------------------------------------------------------------------------
  // The output frame

  /** One record as a row of the returned frame, in OUTPUT_COLUMNS order: Date_dt is the
      label parsed with "%d %b - %Y" (NaT when it does not parse) and Date its "%d/%m/%Y"
      rendering. `strptime` stands for the parse of the stripped label. */
  function SpotRow(s: Spot, strptime: string -> Option<Day>): (row: seq<Value>)
    ensures |row| == |OUTPUT_COLUMNS|
    ensures row[8] == Str(s.channel) && row[9] == Str(s.advertiser) && row[0] == s.program
  {
    var parsed := strptime(Text.Trim(s.date));
    var stamp := if parsed.Some? then Stamp(parsed.value, 0) else Null;
    var shown := if parsed.Some? then Str(DisplayDateText(parsed.value)) else Null;
    [s.program, s.time, s.language, s.dur, s.rateCard, s.negotiated, shown,
     s.comName, Str(s.channel), Str(s.advertiser), stamp]
  }

  /** Lines 102-124 as written: a run with no spots builds `pd.DataFrame([])`, which has no
      columns, so selecting the output columns raises KeyError. */
  function BuildFrameAsWritten(spots: seq<Spot>, strptime: string -> Option<Day>): (r: Result<Frame, string>)
    ensures r.Err? <==> spots == []
    ensures r.Err? ==> r.error == "KeyError"
    ensures r.Ok? ==> r.value.columns == OUTPUT_COLUMNS && |r.value.rows| == |spots| && WellFormed(r.value)
    ensures r.Ok? ==> forall k :: 0 <= k < |spots| ==> r.value.rows[k] == SpotRow(spots[k], strptime)
  {
    if spots == [] then Err("KeyError")
    else Ok(Frame(OUTPUT_COLUMNS, seq(|spots|, k requires 0 <= k < |spots| => SpotRow(spots[k], strptime))))
  }

  /** The frame with the fixed columns whether or not any spot was found. */
  function BuildFrame(spots: seq<Spot>, strptime: string -> Option<Day>): (f: Frame)
    ensures f.columns == OUTPUT_COLUMNS && |f.rows| == |spots| && WellFormed(f)
    ensures forall k :: 0 <= k < |spots| ==> f.rows[k] == SpotRow(spots[k], strptime)
  {
    Frame(OUTPUT_COLUMNS, seq(|spots|, k requires 0 <= k < |spots| => SpotRow(spots[k], strptime)))
  }

  /** The as-written frame fails exactly on a grid with no spots, and agrees with the fixed
      one everywhere else. */
  lemma EmptyGridRaises(strptime: string -> Option<Day>)
    ensures BuildFrameAsWritten([], strptime).Err?
    ensures BuildFrame([], strptime) == Frame(OUTPUT_COLUMNS, [])
  {
  }

  lemma BuildFrameAgrees(spots: seq<Spot>, strptime: string -> Option<Day>)
    requires spots != []
    ensures BuildFrameAsWritten(spots, strptime) == Ok(BuildFrame(spots, strptime))
  {
  }

  // ---------------------------------------------------------------------------------------
  // extract_schedule_grid

  /** `extract_schedule_grid(path, sheet_name, channel, advertiser)` on a loaded workbook. */
  function Extraction(wb: Workbook, sheetName: string, channel: string, advertiser: string, strptime: string -> Option<Day>): (r: Result<Frame, string>)
    ensures r.Ok? ==> r.value.columns == OUTPUT_COLUMNS && WellFormed(r.value)
  {
    if sheetName !in wb.sheets then Err("KeyError")
    else
      var sheet := wb.sheets[sheetName];
      match FindHeader(sheet, 1)
      case None => Err(HEADER_ERROR)
      case Some(h) =>
        var cols := HeaderColumns(sheet, h);
        match DateColumns(sheet, h, 19)
        case Err(e) => Err(e)
        case Ok(dates) => BuildFrameAsWritten(GridSpots(sheet, h, cols, dates, channel, advertiser, sheet.maxRow), strptime)
  }

  /** For each COL_MAP entry, in order, the last header column naming it. */
  function Found(sheet: Sheet, h: int): (f: seq<Option<int>>)
    ensures |f| == |COL_MAP|
    ensures forall m :: 0 <= m < |COL_MAP| ==> f[m] == LastColumnWith(sheet, h, COL_MAP[m].1, FIXED_LAST)
  {
    seq(|COL_MAP|, m requires 0 <= m < |COL_MAP| => LastColumnWith(sheet, h, COL_MAP[m].1, FIXED_LAST))
  }

  /** The columns for the found positions, each missing one replaced by the source's default. */
  function ColumnsFrom(f: seq<Option<int>>): Columns
    requires |f| == |COL_MAP|
  {
    Columns(f[0].GetOr(1), f[1].GetOr(2), f[2].GetOr(3), f[3].GetOr(4), f[4].GetOr(6), f[5].GetOr(8), f[6].GetOr(9))
  }

  /** The columns step 2 settles on. */
  function HeaderColumns(sheet: Sheet, h: int): Columns {
    ColumnsFrom(Found(sheet, h))
  }

  /** A column map that holds the found position of every COL_MAP key (and no position for a
      key not found) reads back, defaults included, as the columns for those positions. */
  lemma ScannedColumns(indices: map<string, int>, found: seq<Option<int>>)
    requires |found| == |COL_MAP|
    requires forall m :: 0 <= m < |COL_MAP| ==> Lookup(indices, COL_MAP[m].0) == found[m]
    ensures ColumnsOf(indices) == ColumnsFrom(found)
  {
    assert COL_MAP[0].0 == "program" && COL_MAP[1].0 == "com_name" && COL_MAP[2].0 == "duration";
    assert COL_MAP[3].0 == "language" && COL_MAP[4].0 == "time" && COL_MAP[5].0 == "rate_card";
    assert COL_MAP[6].0 == "negotiated";
  }

  /** Step 4: every row below the header whose programme cell is kept is expanded. */
  method ExpandGrid(sheet: Sheet, h: int, cols: Columns, dates: seq<(int, string)>, channel: string, advertiser: string)
    returns (rows: seq<Spot>)
    ensures rows == GridSpots(sheet, h, cols, dates, channel, advertiser, sheet.maxRow)
  {
    rows := [];
    var r := h + 1;
    while r <= sheet.maxRow
      invariant h + 1 <= r <= if sheet.maxRow + 1 < h + 1 then h + 1 else sheet.maxRow + 1
      invariant rows == GridSpots(sheet, h, cols, dates, channel, advertiser, r - 1)
      decreases sheet.maxRow + 1 - r
    {
      var prog := At(sheet, r, cols.program);
      if !Skipped(prog) {
        var spots := ExpandRow(sheet, r, cols, dates, channel, advertiser);
        rows := rows + spots;
      }
      r := r + 1;
    }
  }

  /** The steps in the source's order: open the sheet, find the header, map the columns,
      collect the date columns, expand every row below the header, build the frame. */
  method ExtractScheduleGrid(wb: Workbook, sheetName: string, channel: string, advertiser: string, strptime: string -> Option<Day>)
    returns (res: Result<Frame, string>)
    ensures res == Extraction(wb, sheetName, channel, advertiser, strptime)
  {
    if sheetName !in wb.sheets {
      return Err("KeyError");
    }
    var sheet := wb.sheets[sheetName];
    var header := FindHeaderRow(sheet);
    if header.Err? {
      return Err(header.error);
    }
    var h := header.value;
    var indices := MapColumns(sheet, h);
    ScannedColumns(indices, Found(sheet, h));
    var cols := ColumnsOf(indices);
    var dated := CollectDateColumns(sheet, h);
    if dated.Err? {
      return Err(dated.error);
    }
    var rows := ExpandGrid(sheet, h, cols, dated.value, channel, advertiser);
    if rows == [] {
      return Err("KeyError");
    }
    BuildFrameAgrees(rows, strptime);
    return Ok(BuildFrame(rows, strptime));
  }

  /** What a successful extraction returns: the fixed columns, one row per counted spot (so
      at least one), and the channel and advertiser passed in on every row. */
  lemma ExtractionFacts(wb: Workbook, sheetName: string, channel: string, advertiser: string, strptime: string -> Option<Day>)
    requires Extraction(wb, sheetName, channel, advertiser, strptime).Ok?
    ensures sheetName in wb.sheets && FindHeader(wb.sheets[sheetName], 1).Some?
    ensures DateColumns(wb.sheets[sheetName], FindHeader(wb.sheets[sheetName], 1).value, 19).Ok?
    ensures var f := Extraction(wb, sheetName, channel, advertiser, strptime).value;
      var sheet := wb.sheets[sheetName];
      var h := FindHeader(sheet, 1).value;
      && f.columns == OUTPUT_COLUMNS && WellFormed(f)
      && |f.rows| == GridTotal(sheet, h, HeaderColumns(sheet, h).program, DateColumns(sheet, h, 19).value, sheet.maxRow)
      && |f.rows| > 0
      && forall k :: 0 <= k < |f.rows| ==> f.rows[k][8] == Str(channel) && f.rows[k][9] == Str(advertiser)
  {
    var sheet := wb.sheets[sheetName];
    var h := FindHeader(sheet, 1).value;
    var cols := HeaderColumns(sheet, h);
    var dates := DateColumns(sheet, h, 19).value;
    var spots := GridSpots(sheet, h, cols, dates, channel, advertiser, sheet.maxRow);
    assert Extraction(wb, sheetName, channel, advertiser, strptime) == BuildFrameAsWritten(spots, strptime);
    GridSpotsFacts(sheet, h, cols, dates, channel, advertiser, sheet.maxRow);
    FrameCarries(spots, strptime, channel, advertiser);
  }

  /** Every row of a built frame carries the channel and advertiser its spots carry. */
  lemma FrameCarries(spots: seq<Spot>, strptime: string -> Option<Day>, channel: string, advertiser: string)
    requires forall k :: 0 <= k < |spots| ==> spots[k].channel == channel && spots[k].advertiser == advertiser
    requires BuildFrameAsWritten(spots, strptime).Ok?
    ensures var f := BuildFrameAsWritten(spots, strptime).value;
      forall k :: 0 <= k < |f.rows| ==> f.rows[k][8] == Str(channel) && f.rows[k][9] == Str(advertiser)
  {
  }

  /** A sheet whose header and date columns are found but whose grid counts no spot raises
      KeyError: the empty frame has none of the output columns. */
  lemma NoSpotsRaises(wb: Workbook, sheetName: string, channel: string, advertiser: string, strptime: string -> Option<Day>)
    requires sheetName in wb.sheets && FindHeader(wb.sheets[sheetName], 1).Some?
    requires var sheet := wb.sheets[sheetName];
      var h := FindHeader(sheet, 1).value;
      && DateColumns(sheet, h, 19).Ok?
      && GridTotal(sheet, h, HeaderColumns(sheet, h).program, DateColumns(sheet, h, 19).value, sheet.maxRow) == 0
    ensures Extraction(wb, sheetName, channel, advertiser, strptime) == Err("KeyError")
  {
    var sheet := wb.sheets[sheetName];
    var h := FindHeader(sheet, 1).value;
    GridSpotsFacts(sheet, h, HeaderColumns(sheet, h), DateColumns(sheet, h, 19).value, channel, advertiser, sheet.maxRow);
  }

  /** The extraction fails with the header message exactly when no row 1..24 has a column-A
      cell mentioning "program". */
  lemma NoHeaderFails(wb: Workbook, sheetName: string, channel: string, advertiser: string, strptime: string -> Option<Day>)
    requires sheetName in wb.sheets
    ensures Extraction(wb, sheetName, channel, advertiser, strptime) == Err(HEADER_ERROR)
            <==> forall q :: 1 <= q <= HEADER_SEARCH_LAST ==> !IsHeaderCell(At(wb.sheets[sheetName], q, 1))
  {
    var sheet := wb.sheets[sheetName];
    var marked := q => IsHeaderCell(At(sheet, q, 1));
    assert FindHeader(sheet, 1) == FirstWhere(marked, 1, HEADER_SEARCH_LAST);
    match FindHeader(sheet, 1)
    case None =>
      forall q | 1 <= q <= HEADER_SEARCH_LAST
        ensures !IsHeaderCell(At(sheet, q, 1))
      {
        assert !marked(q);
      }
    case Some(h) =>
      assert marked(h);
      var cols := HeaderColumns(sheet, h);
      match DateColumns(sheet, h, 19)
      case Err(e) =>
        assert e == CELL_ERROR by { DateColumnsError(sheet, h, 19); }
      case Ok(dates) =>
  }

  /** The only error the date scan raises is openpyxl's address error. */
  lemma DateColumnsError(sheet: Sheet, h: int, c: int)
    requires DateColumns(sheet, h, c).Err?
    ensures DateColumns(sheet, h, c).error == CELL_ERROR
    decreases sheet.maxColumn + 1 - c
  {
    if c <= sheet.maxColumn && CellValue(sheet, h - 1, c).Ok? && At(sheet, h - 1, c) != Null && MergedValue(sheet, h - 3, c).Ok? {
      DateColumnsError(sheet, h, c + 1);
    }
  }
}
