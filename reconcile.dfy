/** `find_unmatched_records` of backend/monitoring.py: matching the extracted schedule against
    the Nilson report, classifying every schedule spot that fails, and stamping the RO number
    on the Nilson rows that a spot matched. */
module Reconcile {
  import opened Wrappers
  import opened TimeRange
  import Text

  /** One schedule spot after the preprocessing of monitoring.py lines 62-100: the Time
      split into Prog_time/End_Time (None where unparseable) and the Date reduced to the
      "%Y-%m-%d" key (None for NaT). */
  datatype ScheduleRow = ScheduleRow(
    advertiser: string, channel: string, program: string, dur: int,
    dateKey: Option<string>, progTime: Option<Time>, endTime: Option<Time>)

  /** The schedule frame: its column names and its rows. */
  datatype Schedule = Schedule(columns: seq<string>, rows: seq<ScheduleRow>)

  /** One Nilson row after preprocessing: Prog_time is None where it did not parse (NaT),
      and `theme` is `str()` of its Advt_Theme cell. */
  datatype NilsonRow = NilsonRow(
    advertiser: string, channel: string, dateKey: Option<string>, dur: int,
    progTime: Option<Time>, theme: string)

  /** The Nilson frame; `hasTheme` says whether it has an Advt_Theme column. */
  datatype Nilson = Nilson(hasTheme: bool, rows: seq<NilsonRow>)

  /** Why a schedule row is unmatched; `ReasonText` gives the Unmatched_Reason it prints as. */
  datatype Reason =
    | OutsideHours
    | KeyNotFound
    | NoTagTheme
    | NoTime(w: Window)
    | TooFew(found: nat, needed: int)

  /** A schedule row copied to the unmatched table with its Unmatched_Reason. */
  datatype UnmatchedRecord = UnmatchedRecord(row: ScheduleRow, reason: Reason)

  /** The (Advertiser, Channel, Date_key, Dur, Program) key of `matched_counts`. */
  datatype SpotKey = SpotKey(advertiser: string, channel: string, dateKey: Option<string>, dur: int, program: string)

  /** The exceptions the matching itself raises: the ValueError of the required-column check,
      and the TypeError of comparing a missing (NaT) time with a window bound. */
  datatype Error = MissingColumn(column: string) | TimeTypeError

  /** The returned pair: the unmatched table and the Nilson table's new "RO Number" column. */
  datatype Outcome = Outcome(unmatched: seq<UnmatchedRecord>, roColumn: seq<string>)

  const TAG: string := "Tag"
  const REQUIRED_COLUMNS: seq<string> := ["Advertiser", "Channel", "Program", "Dur"]
  const TAG_OUTSIDE_HOURS: string := "Tag program outside allowed time ranges (6AM-6PM or 6PM-10:59PM)"
  const NO_TAG_THEME: string := "No matching Tag theme found"
  const NO_MATCH: string := "No match"
  const ADVERTISER_NOT_FOUND: string := "Advertiser not found"
  const CHANNEL_NOT_FOUND: string := "Channel not found"
  const DATE_NOT_FOUND: string := "Date not found"
  const DURATION_NOT_FOUND: string := "Duration not found"

  /** The Advt_Theme values a Tag spot accepts, as monitoring.py line 147 writes them. */
  const TAG_THEMES_AS_WRITTEN: seq<string> := ["Tag", "-Tr", "-BB", " Com Break", "-Extro", "-Intro", " Time Check"]
  /** The same list with the two entries that carry a leading space trimmed. */
  const TAG_THEMES: seq<string> := ["Tag", "-Tr", "-BB", "Com Break", "-Extro", "-Intro", "Time Check"]

  function ErrorText(e: Error): string {
    match e
    case MissingColumn(c) => "Schedule is missing required column: " + c
    case TimeTypeError => "TypeError"
  }

  // ---------------------------------------------------------------------------------------
  // Candidate selection

  /** pandas `==` on the Date_key column: NaT keys never compare equal, not even to each other. */
  predicate SameDate(a: Option<string>, b: Option<string>) {
    a.Some? && b.Some? && a.value == b.value
  }

  /** The filter of lines 120-125: same Advertiser, Channel, Date_key and Dur. */
  predicate KeyMatch(n: NilsonRow, row: ScheduleRow) {
    n.advertiser == row.advertiser && n.channel == row.channel && SameDate(n.dateKey, row.dateKey) && n.dur == row.dur
  }

  /** The Advt_Theme test as written: the trimmed theme is in TAG_THEMES_AS_WRITTEN. */
  predicate ThemeAllowedAsWritten(theme: string) {
    Text.Trim(theme) in TAG_THEMES_AS_WRITTEN
  }

  /** The Advt_Theme test with the allowed names trimmed like the theme is. */
  predicate ThemeAllowed(theme: string) {
    Text.Trim(theme) in TAG_THEMES
  }

  /** A trimmed theme never starts with a blank, so it is never one of the two entries
      written with a leading space. */
  lemma TrimmedThemeNotSpaced(theme: string)
    ensures Text.Trim(theme) != " Com Break" && Text.Trim(theme) != " Time Check"
  {
    var t := Text.Trim(theme);
    if t == " Com Break" || t == " Time Check" {
      assert Text.IsSpace(t[0]);
    }
  }

  /** Hence the as-written test accepts exactly the other five names, and rejects a report
      cell that holds " Com Break" or " Time Check" verbatim. */
  lemma SpacedThemesNeverMatch(theme: string)
    ensures ThemeAllowedAsWritten(theme) <==> Text.Trim(theme) in ["Tag", "-Tr", "-BB", "-Extro", "-Intro"]
  {
    TrimmedThemeNotSpaced(theme);
  }

  lemma SpacedThemesRejected()
    ensures !ThemeAllowedAsWritten(" Com Break") && !ThemeAllowedAsWritten(" Time Check")
  {
    SpacedThemesNeverMatch(" Com Break");
    SpacedThemesNeverMatch(" Time Check");
    ComBreakTrimmed();
    TimeCheckTrimmed();
    UnspacedThemesShort();
  }

  /** The five names the as-written test can accept are at most six characters long. */
  lemma UnspacedThemesShort()
    ensures forall x :: x in ["Tag", "-Tr", "-BB", "-Extro", "-Intro"] ==> |x| <= 6
  {
  }

  lemma ComBreakTrimmed()
    ensures Text.Trim(" Com Break") == "Com Break"
  {
    assert " Com Break" == " " + "Com Break" + "";
    Text.TrimPadded("Com Break", " ", "");
  }

  lemma TimeCheckTrimmed()
    ensures Text.Trim(" Time Check") == "Time Check"
  {
    assert " Time Check" == " " + "Time Check" + "";
    Text.TrimPadded("Time Check", " ", "");
  }

  /** With the trimmed list, every theme name of the written list is accepted, also when
      the report pads it with a blank. */
  lemma EveryListedThemeMatches(name: string)
    requires name in TAG_THEMES_AS_WRITTEN
    ensures ThemeAllowed(name) && ThemeAllowed(name + " ")
  {
    var k :| 0 <= k < |TAG_THEMES_AS_WRITTEN| && TAG_THEMES_AS_WRITTEN[k] == name;
    var t := TAG_THEMES[k];
    ThemesUnpadded(k);
    PaddedThemeAllowed(t);
  }

  /** An allowed name with a blank on either side, or on both, is still allowed. */
  lemma PaddedThemeAllowed(t: string)
    requires t in TAG_THEMES && t != [] && !Text.IsSpace(t[0]) && !Text.IsSpace(t[|t| - 1])
    ensures ThemeAllowed(t) && ThemeAllowed(t + " ") && ThemeAllowed(" " + t) && ThemeAllowed(" " + t + " ")
  {
    Text.TrimPadded(t, "", "");
    assert "" + t + "" == t;
    Text.TrimPadded(t, "", " ");
    assert "" + t + " " == t + " ";
    Text.TrimPadded(t, " ", "");
    assert " " + t + "" == " " + t;
    Text.TrimPadded(t, " ", " ");
  }

  /** Each allowed name is its own trim, and the written list differs from it at most by a
      leading blank. */
  lemma ThemesUnpadded(k: int)
    requires 0 <= k < |TAG_THEMES|
    ensures var t := TAG_THEMES[k];
      t != [] && !Text.IsSpace(t[0]) && !Text.IsSpace(t[|t| - 1])
    ensures TAG_THEMES_AS_WRITTEN[k] == TAG_THEMES[k] || TAG_THEMES_AS_WRITTEN[k] == " " + TAG_THEMES[k]
  {
  }

  /** A Nilson row is a candidate for a schedule row when the keys match and, for a Tag
      spot, the report has an Advt_Theme column and the row's trimmed theme is one of
      `themes`. The source passes TAG_THEMES_AS_WRITTEN; TAG_THEMES is the corrected list. */
  predicate IsCandidate(nil: Nilson, themes: seq<string>, row: ScheduleRow, j: int)
    requires 0 <= j < |nil.rows|
  {
    KeyMatch(nil.rows[j], row) && (row.program == TAG ==> nil.hasTheme && Text.Trim(nil.rows[j].theme) in themes)
  }

  predicate AnyKeyMatch(nil: Nilson, row: ScheduleRow) {
    exists j :: 0 <= j < |nil.rows| && KeyMatch(nil.rows[j], row)
  }

  predicate AnyCandidate(nil: Nilson, themes: seq<string>, row: ScheduleRow) {
    exists j :: 0 <= j < |nil.rows| && IsCandidate(nil, themes, row, j)
  }

  /** Some candidate has no Prog_time: comparing it with the window raises TypeError. */
  predicate UntimedCandidate(nil: Nilson, themes: seq<string>, row: ScheduleRow) {
    exists j :: 0 <= j < |nil.rows| && IsCandidate(nil, themes, row, j) && nil.rows[j].progTime.None?
  }

  // ---------------------------------------------------------------------------------------
  // Reasons

  predicate HasAdvertiser(nil: Nilson, a: string) { exists j :: 0 <= j < |nil.rows| && nil.rows[j].advertiser == a }
  predicate HasChannel(nil: Nilson, c: string) { exists j :: 0 <= j < |nil.rows| && nil.rows[j].channel == c }
  predicate HasDate(nil: Nilson, d: Option<string>) { exists j :: 0 <= j < |nil.rows| && SameDate(nil.rows[j].dateKey, d) }
  predicate HasDuration(nil: Nilson, d: int) { exists j :: 0 <= j < |nil.rows| && nil.rows[j].dur == d }

  function Rank(part: string): nat {
    if part == ADVERTISER_NOT_FOUND then 0
    else if part == CHANNEL_NOT_FOUND then 1
    else if part == DATE_NOT_FOUND then 2
    else 3
  }

  /** `reason_parts` of lines 128-136: one part per field of the row that occurs nowhere
      in the Nilson table, in the order Advertiser, Channel, Date, Duration. */
  function MissingParts(nil: Nilson, row: ScheduleRow): (parts: seq<string>)
    ensures ADVERTISER_NOT_FOUND in parts <==> !HasAdvertiser(nil, row.advertiser)
    ensures CHANNEL_NOT_FOUND in parts <==> !HasChannel(nil, row.channel)
    ensures DATE_NOT_FOUND in parts <==> !HasDate(nil, row.dateKey)
    ensures DURATION_NOT_FOUND in parts <==> !HasDuration(nil, row.dur)
    ensures forall p :: p in parts ==> p in [ADVERTISER_NOT_FOUND, CHANNEL_NOT_FOUND, DATE_NOT_FOUND, DURATION_NOT_FOUND]
    ensures forall i, j :: 0 <= i < j < |parts| ==> Rank(parts[i]) < Rank(parts[j])
  {
    (if !HasAdvertiser(nil, row.advertiser) then [ADVERTISER_NOT_FOUND] else [])
    + (if !HasChannel(nil, row.channel) then [CHANNEL_NOT_FOUND] else [])
    + (if !HasDate(nil, row.dateKey) then [DATE_NOT_FOUND] else [])
    + (if !HasDuration(nil, row.dur) then [DURATION_NOT_FOUND] else [])
  }

  /** The Unmatched_Reason of a row with no key match: the missing parts joined with " & ",
      or "No match" when every field occurs somewhere in the report. */
  function NotFoundReason(nil: Nilson, row: ScheduleRow): (r: string)
    ensures r == NO_MATCH <==> HasAdvertiser(nil, row.advertiser) && HasChannel(nil, row.channel)
                               && HasDate(nil, row.dateKey) && HasDuration(nil, row.dur)
  {
    var parts := MissingParts(nil, row);
    if parts == [] then NO_MATCH
    else
      assert parts[0] in [ADVERTISER_NOT_FOUND, CHANNEL_NOT_FOUND, DATE_NOT_FOUND, DURATION_NOT_FOUND];
      assert Text.Join(parts, " & ")[0] == parts[0][0];
      Text.Join(parts, " & ")
  }

  function NoTimeReason(w: Window): string {
    "No matching program time found in range " + TimeText(w.lo) + " to " + TimeText(w.hi)
  }

  function TooFewReason(found: nat, needed: int): string {
    "Found only " + Text.NatText(found) + " matches, needed " + Text.IntText(needed) + " more"
  }

  /** The Unmatched_Reason column of a record of the unmatched table. */
  function ReasonText(nil: Nilson, rec: UnmatchedRecord): string {
    match rec.reason
    case OutsideHours => TAG_OUTSIDE_HOURS
    case KeyNotFound => NotFoundReason(nil, rec.row)
    case NoTagTheme => NO_TAG_THEME
    case NoTime(w) => NoTimeReason(w)
    case TooFew(found, needed) => TooFewReason(found, needed)
  }

  // ---------------------------------------------------------------------------------------
  // Spot counts

  function KeyOf(row: ScheduleRow): SpotKey {
    SpotKey(row.advertiser, row.channel, row.dateKey, row.dur, row.program)
  }

  /** Rows of the group `key` whose Prog_time is not null (what `.count()` counts). */
  function GroupCount(rows: seq<ScheduleRow>, key: SpotKey): nat {
    if rows == [] then 0
    else GroupCount(rows[..|rows| - 1], key) + (if KeyOf(rows[|rows| - 1]) == key && rows[|rows| - 1].progTime.Some? then 1 else 0)
  }

  /** `spot_counts_data.get(spot_key, 1)`: groupby drops keys with a NaT date, and has a
      group for every other key some row carries. */
  function Required(rows: seq<ScheduleRow>, key: SpotKey): nat {
    if key.dateKey.Some? && exists i :: 0 <= i < |rows| && KeyOf(rows[i]) == key then GroupCount(rows, key) else 1
  }

  // ---------------------------------------------------------------------------------------
  // Time-range hits

  /** Nilson row `j` is a candidate whose Prog_time lies in the window. */
  predicate Hit(nil: Nilson, themes: seq<string>, row: ScheduleRow, w: Window, j: int)
    requires 0 <= j < |nil.rows|
  {
    IsCandidate(nil, themes, row, j) && nil.rows[j].progTime.Some? && InRange(nil.rows[j].progTime.value, w.lo, w.hi)
  }

  /** Row by row, whether the Nilson row is a hit. */
  function HitFlags(nil: Nilson, themes: seq<string>, row: ScheduleRow, w: Window): (f: seq<bool>)
    ensures |f| == |nil.rows|
    ensures forall j :: 0 <= j < |f| ==> (f[j] <==> Hit(nil, themes, row, w, j))
  {
    seq(|nil.rows|, j requires 0 <= j < |nil.rows| => Hit(nil, themes, row, w, j))
  }

  /** The indices below `n` whose flag is set. */
  function SetIndices(f: seq<bool>, n: nat): (s: set<nat>)
    requires n <= |f|
    ensures forall j: nat :: j in s <==> j < n && f[j]
  {
    if n == 0 then {} else SetIndices(f, n - 1) + (if f[n - 1] then {n - 1} else {})
  }

  /** How many of the first `n` flags are set, counted one at a time as the loop does. */
  function CountSet(f: seq<bool>, n: nat): nat
    requires n <= |f|
  {
    if n == 0 then 0 else CountSet(f, n - 1) + (if f[n - 1] then 1 else 0)
  }

  /** Counting one flag at a time gives the number of distinct indices. */
  lemma {:induction false} CountIsSize(f: seq<bool>, n: nat)
    requires n <= |f|
    ensures CountSet(f, n) == |SetIndices(f, n)| <= n
  {
    if n > 0 {
      CountIsSize(f, n - 1);
      var prev := SetIndices(f, n - 1);
      assert n - 1 !in prev;
      if f[n - 1] {
        assert SetIndices(f, n) == prev + {n - 1};
      } else {
        assert SetIndices(f, n) == prev;
      }
    }
  }

  /** The hits among the first `n` Nilson rows. */
  function Hits(nil: Nilson, themes: seq<string>, row: ScheduleRow, w: Window, n: nat): set<nat>
    requires n <= |nil.rows|
  {
    SetIndices(HitFlags(nil, themes, row, w), n)
  }

  /** `time_range_matches` after the first `n` Nilson rows. */
  function HitCount(nil: Nilson, themes: seq<string>, row: ScheduleRow, w: Window, n: nat): nat
    requires n <= |nil.rows|
  {
    CountSet(HitFlags(nil, themes, row, w), n)
  }

  /** The count of a spot is the number of distinct Nilson rows that match it. */
  lemma HitCountIsSize(nil: Nilson, themes: seq<string>, row: ScheduleRow, w: Window, n: nat)
    requires n <= |nil.rows|
    ensures HitCount(nil, themes, row, w, n) == |Hits(nil, themes, row, w, n)| <= n
    ensures forall j: nat :: j in Hits(nil, themes, row, w, n) <==> j < n && Hit(nil, themes, row, w, j)
  {
    CountIsSize(HitFlags(nil, themes, row, w), n);
  }

  // ---------------------------------------------------------------------------------------
  // The loop over schedule rows, as a function

  /** What the loop carries from one schedule row to the next. */
  datatype State = State(unmatched: seq<UnmatchedRecord>, counts: map<SpotKey, int>, stamped: set<nat>)

  const INIT: State := State([], map[], {})

  /** The body of the loop of lines 109-182 for one schedule row. */
  function Step(rows: seq<ScheduleRow>, nil: Nilson, themes: seq<string>, s: State, row: ScheduleRow): Result<State, Error> {
    match CreateTimeRange(row.program, row.progTime, row.endTime)
    case TimeMissing => Err(TimeTypeError)
    case NoRange => Ok(s.(unmatched := s.unmatched + [UnmatchedRecord(row, OutsideHours)]))
    case Ranged(w) =>
      if !AnyKeyMatch(nil, row) then
        Ok(s.(unmatched := s.unmatched + [UnmatchedRecord(row, KeyNotFound)]))
      else if row.program == TAG && !AnyCandidate(nil, themes, row) then
        Ok(s.(unmatched := s.unmatched + [UnmatchedRecord(row, NoTagTheme)]))
      else if UntimedCandidate(nil, themes, row) then
        Err(TimeTypeError)
      else
        Ok(Tally(rows, nil, themes, s, row, w))
  }

  /** A spot that passed both filters: its time matches are stamped, its key's count goes up
      when it found any, and a shortfall is recorded. */
  function Tally(rows: seq<ScheduleRow>, nil: Nilson, themes: seq<string>, s: State, row: ScheduleRow, w: Window): State {
    var found := HitCount(nil, themes, row, w, |nil.rows|);
    var key := KeyOf(row);
    var before := if key in s.counts then s.counts[key] else 0;
    var current := if found > 0 then before + 1 else before;
    State(s.unmatched + Shortfall(row, w, found, current, Required(rows, key)),
          s.counts[key := current], s.stamped + Hits(nil, themes, row, w, |nil.rows|))
  }

  /** The record lines 174-181 add for a spot with `found` time matches, its key now counted
      `current` times out of `required`: none when it is covered. */
  function Shortfall(row: ScheduleRow, w: Window, found: nat, current: int, required: int): seq<UnmatchedRecord> {
    if found == 0 then [UnmatchedRecord(row, NoTime(w))]
    else if current < required && found < required - current then [UnmatchedRecord(row, TooFew(found, required - current))]
    else []
  }

  /** The loop state after the first `n` schedule rows, or the exception raised on the way. */
  function RunPrefix(sched: Schedule, nil: Nilson, themes: seq<string>, n: nat): Result<State, Error>
    requires n <= |sched.rows|
  {
    if n == 0 then Ok(INIT)
    else
      match RunPrefix(sched, nil, themes, n - 1)
      case Err(e) => Err(e)
      case Ok(s) => Step(sched.rows, nil, themes, s, sched.rows[n - 1])
  }

  function FirstMissingColumn(columns: seq<string>, required: seq<string>): (r: Option<string>)
    ensures r.None? <==> forall c :: c in required ==> c in columns
    ensures r.Some? ==> r.value in required && r.value !in columns
    ensures forall k :: 0 <= k < |required| && required[k] !in columns && (forall m :: 0 <= m < k ==> required[m] in columns)
                        ==> r == Some(required[k])
  {
    if required == [] then None
    else if required[0] !in columns then Some(required[0])
    else FirstMissingColumn(columns, required[1..])
  }

  /** The "RO Number" column: `ro_number` on the stamped rows, "" elsewhere. */
  function RoColumn(n: nat, stamped: set<nat>, roNumber: string): (col: seq<string>)
    ensures |col| == n
    ensures forall j :: 0 <= j < n ==> col[j] == "" || col[j] == roNumber
    ensures roNumber != "" ==> forall j :: 0 <= j < n ==> (col[j] == roNumber <==> j in stamped)
  {
    seq(n, j requires 0 <= j < n => if j in stamped then roNumber else "")
  }

  /** `find_unmatched_records(schedule, nilson, ro_number)` as a function. */
  function Reconciliation(sched: Schedule, nil: Nilson, themes: seq<string>, roNumber: string): Result<Outcome, Error> {
    match FirstMissingColumn(sched.columns, REQUIRED_COLUMNS)
    case Some(c) => Err(MissingColumn(c))
    case None =>
      match RunPrefix(sched, nil, themes, |sched.rows|)
      case Err(e) => Err(e)
      case Ok(s) => Ok(Outcome(s.unmatched, RoColumn(|nil.rows|, s.stamped, roNumber)))
  }

  // ---------------------------------------------------------------------------------------
  // The imperative function

  /** `find_unmatched_records`: the required-column check, then the loop over schedule rows,
      with the RO Number column written in place. */
  method FindUnmatchedRecords(sched: Schedule, nil: Nilson, roNumber: string) returns (res: Result<Outcome, Error>)
    ensures res == Reconciliation(sched, nil, TAG_THEMES_AS_WRITTEN, roNumber)
  {
    var missing := CheckRequiredColumns(sched.columns);
    if missing.Some? {
      return Err(MissingColumn(missing.value));
    }
    var run, ro := MatchRows(sched, nil, TAG_THEMES_AS_WRITTEN, roNumber);
    if run.Err? {
      return Err(run.error);
    }
    res := Ok(Outcome(run.value.unmatched, ro));
  }

  /** The loop of lines 76-79: the first required column the schedule lacks, if any. */
  method CheckRequiredColumns(columns: seq<string>) returns (missing: Option<string>)
    ensures missing == FirstMissingColumn(columns, REQUIRED_COLUMNS)
  {
    var k := 0;
    while k < |REQUIRED_COLUMNS|
      invariant 0 <= k <= |REQUIRED_COLUMNS|
      invariant forall m :: 0 <= m < k ==> REQUIRED_COLUMNS[m] in columns
    {
      if REQUIRED_COLUMNS[k] !in columns {
        return Some(REQUIRED_COLUMNS[k]);
      }
      k := k + 1;
    }
    return None;
  }

  /** The loop of lines 109-182 over every schedule row, with `matched_counts` and
      `matched_indices` updated and the RO Number column written as it goes. */
  method MatchRows(sched: Schedule, nil: Nilson, themes: seq<string>, roNumber: string) returns (run: Result<State, Error>, ro: seq<string>)
    ensures run == RunPrefix(sched, nil, themes, |sched.rows|)
    ensures run.Ok? ==> ro == RoColumn(|nil.rows|, run.value.stamped, roNumber)
  {
    ro := seq(|nil.rows|, _ => "");
    var state := INIT;
    var i := 0;
    while i < |sched.rows|
      invariant 0 <= i <= |sched.rows|
      invariant RunPrefix(sched, nil, themes, i) == Ok(state)
      invariant |ro| == |nil.rows|
      invariant Linked(ro, state.stamped, roNumber)
    {
      var next;
      next, ro := ReconcileRow(sched.rows, nil, themes, roNumber, state, ro, sched.rows[i]);
      RunPrefixNext(sched, nil, themes, i, state);
      if next.Err? {
        ErrorPersists(sched, nil, themes, i + 1, |sched.rows|);
        return next, ro;
      }
      state := next.value;
      i := i + 1;
    }
    LinkedIsRoColumn(ro, state.stamped, roNumber);
    run := Ok(state);
  }

  /** One more row of the loop: the state after `i + 1` rows is one step from the state after `i`. */
  lemma RunPrefixNext(sched: Schedule, nil: Nilson, themes: seq<string>, i: nat, s: State)
    requires i < |sched.rows| && RunPrefix(sched, nil, themes, i) == Ok(s)
    ensures RunPrefix(sched, nil, themes, i + 1) == Step(sched.rows, nil, themes, s, sched.rows[i])
  {
  }

  /** A column in step with the stamped set is the RO column of that set. */
  lemma LinkedIsRoColumn(ro: seq<string>, stamped: set<nat>, roNumber: string)
    requires Linked(ro, stamped, roNumber)
    ensures ro == RoColumn(|ro|, stamped, roNumber)
  {
  }

  /** The body of the loop of lines 109-182 for one schedule row, the `continue`s included. */
  method ReconcileRow(rows: seq<ScheduleRow>, nil: Nilson, themes: seq<string>, roNumber: string, s: State, ro: seq<string>, row: ScheduleRow)
    returns (next: Result<State, Error>, ro': seq<string>)
    requires |ro| == |nil.rows| && Linked(ro, s.stamped, roNumber)
    ensures next == Step(rows, nil, themes, s, row)
    ensures |ro'| == |nil.rows|
    ensures next.Ok? ==> Linked(ro', next.value.stamped, roNumber)
  {
    ro' := ro;
    var range := CreateTimeRange(row.program, row.progTime, row.endTime);
    if range.TimeMissing? {
      return Err(TimeTypeError), ro';
    }
    if range.NoRange? {
      return Ok(s.(unmatched := s.unmatched + [UnmatchedRecord(row, OutsideHours)])), ro';
    }
    var w := range.w;
    if !AnyKeyMatch(nil, row) {
      return Ok(s.(unmatched := s.unmatched + [UnmatchedRecord(row, KeyNotFound)])), ro';
    }
    if row.program == TAG && !AnyCandidate(nil, themes, row) {
      return Ok(s.(unmatched := s.unmatched + [UnmatchedRecord(row, NoTagTheme)])), ro';
    }

    var untimed, found, stamped;
    untimed, found, ro', stamped := MatchTimes(nil, themes, row, w, roNumber, ro, s.stamped);
    assert CreateTimeRange(row.program, row.progTime, row.endTime) == Ranged(w);
    if untimed {
      return Err(TimeTypeError), ro';
    }

    var t := TallyRow(rows, nil, themes, s, row, w, found, stamped);
    next := Ok(t);
  }

  /** Lines 167-182 for a spot that passed both filters, given its time matches and the
      stamped set after them: the key's count, then the shortfall record. */
  method TallyRow(rows: seq<ScheduleRow>, nil: Nilson, themes: seq<string>, s: State, row: ScheduleRow, w: Window,
                  found: nat, stamped: set<nat>) returns (t: State)
    requires found == HitCount(nil, themes, row, w, |nil.rows|)
    requires stamped == s.stamped + Hits(nil, themes, row, w, |nil.rows|)
    ensures t == Tally(rows, nil, themes, s, row, w)
  {
    var counts := s.counts;
    var key := KeyOf(row);
    if key !in counts {
      counts := counts[key := 0];
    }
    if found > 0 {
      counts := counts[key := counts[key] + 1];
    }
    var required := Required(rows, key);
    var current := counts[key];
    assert counts == s.counts[key := current];
    var unmatched := s.unmatched;
    if found == 0 {
      unmatched := unmatched + [UnmatchedRecord(row, NoTime(w))];
    } else if current < required && found < required - current {
      unmatched := unmatched + [UnmatchedRecord(row, TooFew(found, required - current))];
    } else {
      assert unmatched == s.unmatched + [];
    }
    t := State(unmatched, counts, stamped);
  }

  /** The inner loop of lines 159-165: count the candidates whose Prog_time is in the
      window and write `ro_number` into the RO Number cell of each one not written before;
      `untimed` reports the TypeError of a candidate without a Prog_time, which ends the loop. */
  method MatchTimes(nil: Nilson, themes: seq<string>, row: ScheduleRow, w: Window, roNumber: string, ro: seq<string>, stamped: set<nat>)
    returns (untimed: bool, found: nat, ro': seq<string>, stamped': set<nat>)
    requires |ro| == |nil.rows|
    requires Linked(ro, stamped, roNumber)
    ensures untimed <==> UntimedCandidate(nil, themes, row)
    ensures !untimed ==> found == HitCount(nil, themes, row, w, |nil.rows|)
    ensures !untimed ==> stamped' == stamped + Hits(nil, themes, row, w, |nil.rows|)
    ensures |ro'| == |nil.rows|
    ensures Linked(ro', stamped', roNumber)
    ensures forall m :: 0 <= m < |ro| && m in stamped ==> ro'[m] == ro[m]
  {
    untimed, found, ro', stamped' := false, 0, ro, stamped;
    ghost var flags := HitFlags(nil, themes, row, w);
    var j := 0;
    while j < |nil.rows|
      invariant 0 <= j <= |nil.rows|
      invariant forall k :: 0 <= k < j && IsCandidate(nil, themes, row, k) ==> nil.rows[k].progTime.Some?
      invariant found == CountSet(flags, j)
      invariant stamped' == stamped + SetIndices(flags, j)
      invariant |ro'| == |nil.rows|
      invariant Linked(ro', stamped', roNumber)
      invariant forall m :: 0 <= m < |ro| && m in stamped ==> ro'[m] == ro[m]
    {
      if IsCandidate(nil, themes, row, j) {
        var t := nil.rows[j].progTime;
        if t.None? {
          untimed := true;
          return;
        }
        if InRange(t.value, w.lo, w.hi) {
          found := found + 1;
          if j !in stamped' {
            ro' := ro'[j := roNumber];
            stamped' := stamped' + {j};
          }
        }
      }
      j := j + 1;
    }
  }

  /** The RO Number column holds `roNumber` exactly on the stamped rows. */
  predicate Linked(ro: seq<string>, stamped: set<nat>, roNumber: string) {
    forall m :: 0 <= m < |ro| ==> ro[m] == if m in stamped then roNumber else ""
  }

  /** Once a row raises, the whole call raises. */
  lemma {:induction false} ErrorPersists(sched: Schedule, nil: Nilson, themes: seq<string>, n: nat, m: nat)
    requires n <= m <= |sched.rows|
    requires RunPrefix(sched, nil, themes, n).Err?
    ensures RunPrefix(sched, nil, themes, m) == RunPrefix(sched, nil, themes, n)
  {
    if m > n {
      ErrorPersists(sched, nil, themes, n, m - 1);
    }
  }

  // ---------------------------------------------------------------------------------------
  // What the whole loop guarantees

  /** The window the loop computes for a schedule row. */
  function WindowOf(row: ScheduleRow): RangeResult {
    CreateTimeRange(row.program, row.progTime, row.endTime)
  }

  /** Nilson row `j` lies in the window of one of the first `n` schedule rows and is a
      candidate for it: the only way the RO number reaches row `j`. */
  predicate StampedBy(sched: Schedule, nil: Nilson, themes: seq<string>, n: nat, j: nat)
    requires n <= |sched.rows|
  {
    j < |nil.rows| &&
    exists i :: 0 <= i < n && WindowOf(sched.rows[i]).Ranged? && Hit(nil, themes, sched.rows[i], WindowOf(sched.rows[i]).w, j)
  }

  /** How many of the first `n` schedule rows with spot key `key` found at least one Nilson
      row in their window: what `matched_counts[key]` records. */
  function MatchedRows(sched: Schedule, nil: Nilson, themes: seq<string>, n: nat, key: SpotKey): nat
    requires n <= |sched.rows|
  {
    if n == 0 then 0
    else
      var row := sched.rows[n - 1];
      MatchedRows(sched, nil, themes, n - 1, key)
      + (if KeyOf(row) == key && WindowOf(row).Ranged? && HitCount(nil, themes, row, WindowOf(row).w, |nil.rows|) > 0 then 1 else 0)
  }

  /** A spot that found a Nilson row in its window passed both earlier filters: some row
      matches its key and, for a Tag spot, some row has an allowed theme. */
  lemma FoundImpliesCandidate(nil: Nilson, themes: seq<string>, row: ScheduleRow, w: Window)
    requires HitCount(nil, themes, row, w, |nil.rows|) > 0
    ensures AnyKeyMatch(nil, row) && (row.program == TAG ==> AnyCandidate(nil, themes, row))
  {
    HitCountIsSize(nil, themes, row, w, |nil.rows|);
    var j :| j in Hits(nil, themes, row, w, |nil.rows|);
    assert Hit(nil, themes, row, w, j);
  }

  /** A spot that stops at one of the filters stamps nothing. */
  lemma FilteredSpotStampsNothing(nil: Nilson, themes: seq<string>, row: ScheduleRow, w: Window)
    requires !AnyKeyMatch(nil, row) || (row.program == TAG && !AnyCandidate(nil, themes, row))
    ensures Hits(nil, themes, row, w, |nil.rows|) == {}
    ensures HitCount(nil, themes, row, w, |nil.rows|) == 0
  {
    HitCountIsSize(nil, themes, row, w, |nil.rows|);
    if HitCount(nil, themes, row, w, |nil.rows|) > 0 {
      FoundImpliesCandidate(nil, themes, row, w);
    }
  }

  /** Every candidate the written list admits, the corrected list admits too. */
  lemma WrittenCandidatesAreCandidates(nil: Nilson, row: ScheduleRow, j: int)
    requires 0 <= j < |nil.rows| && IsCandidate(nil, TAG_THEMES_AS_WRITTEN, row, j)
    ensures IsCandidate(nil, TAG_THEMES, row, j)
  {
    if row.program == TAG {
      SpacedThemesNeverMatch(nil.rows[j].theme);
    }
  }

  /** A Tag spot none of whose key matches has an admitted theme is recorded as such. */
  lemma ThemeFilterRecords(rows: seq<ScheduleRow>, nil: Nilson, themes: seq<string>, s: State, row: ScheduleRow)
    requires WindowOf(row).Ranged? && row.program == TAG && AnyKeyMatch(nil, row) && !AnyCandidate(nil, themes, row)
    ensures Step(rows, nil, themes, s, row) == Ok(s.(unmatched := s.unmatched + [UnmatchedRecord(row, NoTagTheme)]))
  {
  }

  /** A candidate whose Prog_time lies in the window is stamped when no candidate lacks a time. */
  lemma HitStamped(rows: seq<ScheduleRow>, nil: Nilson, themes: seq<string>, s: State, row: ScheduleRow, j: int)
    requires WindowOf(row).Ranged? && 0 <= j < |nil.rows| && Hit(nil, themes, row, WindowOf(row).w, j)
    requires !UntimedCandidate(nil, themes, row)
    ensures Step(rows, nil, themes, s, row).Ok? && j in Step(rows, nil, themes, s, row).value.stamped
  {
    var w := WindowOf(row).w;
    assert AnyKeyMatch(nil, row) && AnyCandidate(nil, themes, row);
    HitCountIsSize(nil, themes, row, w, |nil.rows|);
  }

  lemma ComBreakListed()
    ensures "Com Break" !in TAG_THEMES_AS_WRITTEN && "Com Break" in TAG_THEMES
  {
    assert TAG_THEMES[3] == "Com Break";
  }

  /** A Tag spot whose key-matching Nilson rows all carry the theme "Com Break" (a report
      cell " Com Break" trims to it): with the list as written the spot is recorded as having
      no Tag theme, while with the corrected list it stamps the row in its window. */
  lemma ComBreakSpot(rows: seq<ScheduleRow>, nil: Nilson, s: State, row: ScheduleRow, j: int)
    requires WindowOf(row).Ranged? && row.program == TAG && nil.hasTheme
    requires 0 <= j < |nil.rows| && KeyMatch(nil.rows[j], row)
    requires forall k :: 0 <= k < |nil.rows| ==> Text.Trim(nil.rows[k].theme) == "Com Break" && nil.rows[k].progTime.Some?
    requires InRange(nil.rows[j].progTime.value, WindowOf(row).w.lo, WindowOf(row).w.hi)
    ensures Step(rows, nil, TAG_THEMES_AS_WRITTEN, s, row) == Ok(s.(unmatched := s.unmatched + [UnmatchedRecord(row, NoTagTheme)]))
    ensures Step(rows, nil, TAG_THEMES, s, row).Ok? && j in Step(rows, nil, TAG_THEMES, s, row).value.stamped
  {
    ComBreakListed();
    assert AnyKeyMatch(nil, row);
    ThemeFilterRecords(rows, nil, TAG_THEMES_AS_WRITTEN, s, row);
    HitStamped(rows, nil, TAG_THEMES, s, row, j);
  }

  /** A schedule row raises exactly when its own times are missing, or when it passes both
      filters and one of its candidates has no Prog_time; the exception is then TypeError. */
  lemma StepRaises(rows: seq<ScheduleRow>, nil: Nilson, themes: seq<string>, s: State, row: ScheduleRow)
    ensures Step(rows, nil, themes, s, row).Err? <==>
      WindowOf(row).TimeMissing?
      || (WindowOf(row).Ranged? && AnyKeyMatch(nil, row) && (row.program == TAG ==> AnyCandidate(nil, themes, row))
          && UntimedCandidate(nil, themes, row))
    ensures Step(rows, nil, themes, s, row).Err? ==> Step(rows, nil, themes, s, row).error == TimeTypeError
  {
  }

  /** One schedule row adds at most one unmatched record, about itself; it stamps exactly
      the candidates in its window; and it moves its own key's count by one exactly when
      it found something. */
  lemma StepFacts(rows: seq<ScheduleRow>, nil: Nilson, themes: seq<string>, s: State, row: ScheduleRow)
    requires Step(rows, nil, themes, s, row).Ok?
    ensures var t := Step(rows, nil, themes, s, row).value;
      && |s.unmatched| <= |t.unmatched| <= |s.unmatched| + 1
      && t.unmatched[..|s.unmatched|] == s.unmatched
      && (forall r :: r in t.unmatched[|s.unmatched|..] ==> r.row == row)
      && t.stamped == s.stamped + (if WindowOf(row).Ranged? then Hits(nil, themes, row, WindowOf(row).w, |nil.rows|) else {})
      && (forall key :: key != KeyOf(row) ==> (key in t.counts <==> key in s.counts))
      && (forall key :: key != KeyOf(row) && key in s.counts ==> t.counts[key] == s.counts[key])
      && Count(t.counts, KeyOf(row)) == Count(s.counts, KeyOf(row))
           + (if WindowOf(row).Ranged? && HitCount(nil, themes, row, WindowOf(row).w, |nil.rows|) > 0 then 1 else 0)
  {
    var t := Step(rows, nil, themes, s, row).value;
    if WindowOf(row).Ranged? {
      var w := WindowOf(row).w;
      if !AnyKeyMatch(nil, row) || (row.program == TAG && !AnyCandidate(nil, themes, row)) {
        FilteredSpotStampsNothing(nil, themes, row, w);
        assert t.stamped == s.stamped;
      } else {
        assert t == Tally(rows, nil, themes, s, row, w);
        TallyFacts(rows, nil, themes, s, row, w);
      }
    }
  }

  /** A spot that passed the filters adds at most one record, about itself, and raises only
      its own key's count, by one exactly when it found something. */
  lemma TallyFacts(rows: seq<ScheduleRow>, nil: Nilson, themes: seq<string>, s: State, row: ScheduleRow, w: Window)
    ensures var t := Tally(rows, nil, themes, s, row, w);
      && |s.unmatched| <= |t.unmatched| <= |s.unmatched| + 1
      && t.unmatched[..|s.unmatched|] == s.unmatched
      && (forall r :: r in t.unmatched[|s.unmatched|..] ==> r.row == row)
      && Count(t.counts, KeyOf(row)) == Count(s.counts, KeyOf(row)) + (if HitCount(nil, themes, row, w, |nil.rows|) > 0 then 1 else 0)
  {
    var t := Tally(rows, nil, themes, s, row, w);
    var found := HitCount(nil, themes, row, w, |nil.rows|);
    var key := KeyOf(row);
    var before := if key in s.counts then s.counts[key] else 0;
    var current := if found > 0 then before + 1 else before;
    var added := Shortfall(row, w, found, current, Required(rows, key));
    assert t.unmatched == s.unmatched + added;
    assert t.unmatched[|s.unmatched|..] == added;
  }

  /** `matched_counts.get(key, 0)`. */
  function Count(counts: map<SpotKey, int>, key: SpotKey): int {
    if key in counts then counts[key] else 0
  }

  /** Row n-1 adds to the stamped set exactly the hits in its own window. */
  lemma StampedByStep(sched: Schedule, nil: Nilson, themes: seq<string>, n: nat, j: nat)
    requires 0 < n <= |sched.rows|
    ensures var row := sched.rows[n - 1];
      StampedBy(sched, nil, themes, n, j) <==>
        StampedBy(sched, nil, themes, n - 1, j) || (WindowOf(row).Ranged? && j in Hits(nil, themes, row, WindowOf(row).w, |nil.rows|))
  {
    var row := sched.rows[n - 1];
    if WindowOf(row).Ranged? {
      HitCountIsSize(nil, themes, row, WindowOf(row).w, |nil.rows|);
    }
    if StampedBy(sched, nil, themes, n - 1, j) {
      var i :| 0 <= i < n - 1 && WindowOf(sched.rows[i]).Ranged? && Hit(nil, themes, sched.rows[i], WindowOf(sched.rows[i]).w, j);
      assert 0 <= i < n;
    }
    if WindowOf(row).Ranged? && j in Hits(nil, themes, row, WindowOf(row).w, |nil.rows|) {
      assert Hit(nil, themes, sched.rows[n - 1], WindowOf(sched.rows[n - 1]).w, j);
    }
    if StampedBy(sched, nil, themes, n, j) && !StampedBy(sched, nil, themes, n - 1, j) {
      var i :| 0 <= i < n && WindowOf(sched.rows[i]).Ranged? && Hit(nil, themes, sched.rows[i], WindowOf(sched.rows[i]).w, j);
      assert i == n - 1;
    }
  }

  /** One more row adds at most one unmatched record, and only about that row. */
  lemma UnmatchedUpdate(sched: Schedule, nil: Nilson, themes: seq<string>, n: nat, before: State)
    requires 0 < n <= |sched.rows|
    requires |before.unmatched| <= n - 1
    requires forall r :: r in before.unmatched ==> r.row in sched.rows[..n - 1]
    requires Step(sched.rows, nil, themes, before, sched.rows[n - 1]).Ok?
    ensures var after := Step(sched.rows, nil, themes, before, sched.rows[n - 1]).value;
      && |after.unmatched| <= n
      && forall r :: r in after.unmatched ==> r.row in sched.rows[..n]
  {
    var row := sched.rows[n - 1];
    StepFacts(sched.rows, nil, themes, before, row);
    var after := Step(sched.rows, nil, themes, before, row).value;
    assert after.unmatched == before.unmatched + after.unmatched[|before.unmatched|..];
    forall r | r in after.unmatched
      ensures r.row in sched.rows[..n]
    {
      if r in before.unmatched {
        assert r.row in sched.rows[..n - 1];
      } else {
        assert r in after.unmatched[|before.unmatched|..];
      }
    }
  }

  /** The stamped set stays the set of rows some spot so far matched. */
  lemma StampedUpdate(sched: Schedule, nil: Nilson, themes: seq<string>, n: nat, before: State)
    requires 0 < n <= |sched.rows|
    requires forall j: nat :: j in before.stamped <==> StampedBy(sched, nil, themes, n - 1, j)
    requires Step(sched.rows, nil, themes, before, sched.rows[n - 1]).Ok?
    ensures var after := Step(sched.rows, nil, themes, before, sched.rows[n - 1]).value;
      forall j: nat :: j in after.stamped <==> StampedBy(sched, nil, themes, n, j)
  {
    StepFacts(sched.rows, nil, themes, before, sched.rows[n - 1]);
    var after := Step(sched.rows, nil, themes, before, sched.rows[n - 1]).value;
    forall j: nat
      ensures j in after.stamped <==> StampedBy(sched, nil, themes, n, j)
    {
      StampedByStep(sched, nil, themes, n, j);
    }
  }

  /** Every key's count stays the number of its rows so far that matched. */
  lemma CountsUpdate(sched: Schedule, nil: Nilson, themes: seq<string>, n: nat, before: State)
    requires 0 < n <= |sched.rows|
    requires forall key :: Count(before.counts, key) == MatchedRows(sched, nil, themes, n - 1, key)
    requires Step(sched.rows, nil, themes, before, sched.rows[n - 1]).Ok?
    ensures var after := Step(sched.rows, nil, themes, before, sched.rows[n - 1]).value;
      forall key :: Count(after.counts, key) == MatchedRows(sched, nil, themes, n, key)
  {
    StepFacts(sched.rows, nil, themes, before, sched.rows[n - 1]);
    var after := Step(sched.rows, nil, themes, before, sched.rows[n - 1]).value;
    forall key
      ensures Count(after.counts, key) == MatchedRows(sched, nil, themes, n, key)
    {
      if key != KeyOf(sched.rows[n - 1]) {
        assert Count(after.counts, key) == Count(before.counts, key);
      }
    }
  }

  /** After the first `n` rows: no more unmatched records than rows, each about one of those
      rows; the stamped Nilson rows are exactly those some spot matched; and every spot key's
      count is the number of its rows that found a match. */
  lemma RunPrefixFacts(sched: Schedule, nil: Nilson, themes: seq<string>, n: nat)
    requires n <= |sched.rows|
    requires RunPrefix(sched, nil, themes, n).Ok?
    ensures var s := RunPrefix(sched, nil, themes, n).value;
      && |s.unmatched| <= n
      && (forall r :: r in s.unmatched ==> r.row in sched.rows[..n])
      && (forall j: nat :: j in s.stamped <==> StampedBy(sched, nil, themes, n, j))
      && (forall key :: Count(s.counts, key) == MatchedRows(sched, nil, themes, n, key))
  {
    UnmatchedFacts(sched, nil, themes, n);
    StampedFacts(sched, nil, themes, n);
    CountsFacts(sched, nil, themes, n);
  }

  /** A prefix that did not raise left a row that raises nowhere before it. */
  lemma RunPrefixPrev(sched: Schedule, nil: Nilson, themes: seq<string>, n: nat) returns (p: State)
    requires 0 < n <= |sched.rows| && RunPrefix(sched, nil, themes, n).Ok?
    ensures RunPrefix(sched, nil, themes, n - 1) == Ok(p)
    ensures RunPrefix(sched, nil, themes, n) == Step(sched.rows, nil, themes, p, sched.rows[n - 1])
  {
    p := RunPrefix(sched, nil, themes, n - 1).value;
  }

  lemma {:induction false} UnmatchedFacts(sched: Schedule, nil: Nilson, themes: seq<string>, n: nat)
    requires n <= |sched.rows|
    requires RunPrefix(sched, nil, themes, n).Ok?
    ensures var s := RunPrefix(sched, nil, themes, n).value;
      && |s.unmatched| <= n
      && (forall r :: r in s.unmatched ==> r.row in sched.rows[..n])
  {
    if n > 0 {
      var p := RunPrefixPrev(sched, nil, themes, n);
      UnmatchedFacts(sched, nil, themes, n - 1);
      UnmatchedUpdate(sched, nil, themes, n, p);
    }
  }

  lemma {:induction false} StampedFacts(sched: Schedule, nil: Nilson, themes: seq<string>, n: nat)
    requires n <= |sched.rows|
    requires RunPrefix(sched, nil, themes, n).Ok?
    ensures forall j: nat :: j in RunPrefix(sched, nil, themes, n).value.stamped <==> StampedBy(sched, nil, themes, n, j)
  {
    if n > 0 {
      var p := RunPrefixPrev(sched, nil, themes, n);
      StampedFacts(sched, nil, themes, n - 1);
      StampedUpdate(sched, nil, themes, n, p);
    }
  }

  lemma {:induction false} CountsFacts(sched: Schedule, nil: Nilson, themes: seq<string>, n: nat)
    requires n <= |sched.rows|
    requires RunPrefix(sched, nil, themes, n).Ok?
    ensures forall key :: Count(RunPrefix(sched, nil, themes, n).value.counts, key) == MatchedRows(sched, nil, themes, n, key)
  {
    if n > 0 {
      var p := RunPrefixPrev(sched, nil, themes, n);
      CountsFacts(sched, nil, themes, n - 1);
      CountsUpdate(sched, nil, themes, n, p);
    }
  }

  /** The whole call: at most one unmatched record per schedule row, the RO Number column as
      long as the Nilson table, holding "" or the RO number, and the RO number exactly on the
      rows some spot matched. */
  lemma OutcomeFacts(sched: Schedule, nil: Nilson, themes: seq<string>, roNumber: string)
    requires Reconciliation(sched, nil, themes, roNumber).Ok?
    ensures var o := Reconciliation(sched, nil, themes, roNumber).value;
      && |o.unmatched| <= |sched.rows|
      && (forall r :: r in o.unmatched ==> r.row in sched.rows)
      && |o.roColumn| == |nil.rows|
      && (forall j :: 0 <= j < |nil.rows| ==> o.roColumn[j] == "" || o.roColumn[j] == roNumber)
      && (roNumber != "" ==> forall j: nat :: j < |nil.rows| ==> (o.roColumn[j] == roNumber <==> StampedBy(sched, nil, themes, |sched.rows|, j)))
  {
    RunPrefixFacts(sched, nil, themes, |sched.rows|);
    assert sched.rows[..|sched.rows|] == sched.rows;
  }
}
