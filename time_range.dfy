/** The time-of-day windows of backend/monitoring.py: `create_time_range` and
    `check_time_in_range`. A `datetime.time` is modelled as its second of the day. */
module TimeRange {
  import opened Wrappers
  import Text

  const DAY: int := 86400

  /** A time of day, in seconds since midnight. */
  type Time = t: int | 0 <= t < 86400

  const MORNING_START: Time := 6 * 3600             // 06:00:00
  const EVENING_START: Time := 18 * 3600            // 18:00:00
  const EVENING_END: Time := 22 * 3600 + 59 * 60    // 22:59:00
  /** A non-Tag spot may air this long before the programme starts ... */
  const LEAD: int := 7 * 60
  /** ... and this long after it ends. */
  const LAG: int := 5 * 60

  /** An inclusive window; `lo > hi` means the window wraps past midnight. */
  datatype Window = Window(lo: Time, hi: Time)

  /** `create_time_range`'s three outcomes: a window, `(None, None)` for a Tag spot outside
      both dayparts, and the `TypeError` Python raises when it compares or combines `None`. */
  datatype RangeResult = Ranged(w: Window) | NoRange | TimeMissing

  /** How far `t` lies past `lo`, going forward round the clock. */
  function Offset(lo: Time, t: Time): (d: nat)
    ensures d < DAY
  {
    (t - lo) % DAY
  }

  /** `check_time_in_range(t, lo, hi)`: `t` lies on the arc of the clock that runs forward
      from `lo` to `hi`, both ends included. */
  function InRange(t: Time, lo: Time, hi: Time): (b: bool)
    ensures b <==> Offset(lo, t) <= Offset(lo, hi)
  {
    if lo > hi then t >= lo || t <= hi else lo <= t <= hi
  }

  /** Both ends of every window, wrapping or not, belong to it. */
  lemma EndsInRange(lo: Time, hi: Time)
    ensures InRange(lo, lo, hi) && InRange(hi, lo, hi)
  {
  }

  /** `create_time_range(row)` for a row with the given Program, Prog_time and End_Time. */
  function CreateTimeRange(program: string, start: Option<Time>, end: Option<Time>): (r: RangeResult)
    ensures r.TimeMissing? <==> start.None? || (program != "Tag" && end.None?)
    ensures r.NoRange? ==> program == "Tag"
    ensures program == "Tag" && r.Ranged? ==> InRange(start.value, r.w.lo, r.w.hi)
  {
    if program == "Tag" then
      if start.None? then TimeMissing
      else if MORNING_START <= start.value < EVENING_START then Ranged(Window(MORNING_START, EVENING_START))
      else if EVENING_START <= start.value <= EVENING_END then Ranged(Window(EVENING_START, EVENING_END))
      else NoRange
    else
      if start.None? || end.None? then TimeMissing
      else Ranged(Window((start.value - LEAD) % DAY, (end.value + LAG) % DAY))
  }

  /** A Tag spot is placed in the daytime daypart, the evening daypart, or nowhere,
      according to its start time alone. */
  lemma TagDayparts(start: Time, end: Option<Time>)
    ensures var r := CreateTimeRange("Tag", Some(start), end);
      && (6 * 3600 <= start < 18 * 3600 <==> r == Ranged(Window(6 * 3600, 18 * 3600)))
      && (18 * 3600 <= start <= 22 * 3600 + 59 * 60 <==> r == Ranged(Window(18 * 3600, 22 * 3600 + 59 * 60)))
      && (start < 6 * 3600 || start > 22 * 3600 + 59 * 60 <==> r == NoRange)
  {
  }

  /** The window of a non-Tag spot stretches the programme slot by LEAD before and LAG
      after, modulo a day: as long as the stretched slot is shorter than a day, a Nilson
      time is in the window exactly when it is at most LEAD before the start and at most
      LAG after the end. In particular every time inside the slot itself is accepted. */
  lemma {:induction false} ProgrammeWindow(program: string, start: Time, end: Time, t: Time)
    requires program != "Tag"
    requires Offset(start, end) + LEAD + LAG < DAY
    ensures var r := CreateTimeRange(program, Some(start), Some(end));
      && r.Ranged?
      && (InRange(t, r.w.lo, r.w.hi) <==> (t - start + LEAD) % DAY <= Offset(start, end) + LEAD + LAG)
      && (Offset(start, t) <= Offset(start, end) ==> InRange(t, r.w.lo, r.w.hi))
  {
    var lo: Time := (start - LEAD) % DAY;
    var hi: Time := (end + LAG) % DAY;
    assert CreateTimeRange(program, Some(start), Some(end)) == Ranged(Window(lo, hi));
    OpeningShift(start, t);
    WindowLength(start, end);
    assert Offset(lo, hi) == Offset(start, end) + LEAD + LAG;
    if Offset(start, t) <= Offset(start, end) {
      SlotShift(start, t);
    }
  }

  /** A time that lies d after the start lies d + LEAD after the opening. */
  lemma SlotShift(start: Time, t: Time)
    requires Offset(start, t) + LEAD < DAY
    ensures (t - start + LEAD) % DAY == Offset(start, t) + LEAD
  {
    var d := Offset(start, t);
    assert t - start - d == DAY * ((t - start) / DAY);
    ShiftMod(t - start + LEAD, d + LEAD);
  }

  /** Measured from the opening of the window, a time lies LEAD further on than measured
      from the start of the slot. */
  lemma OpeningShift(start: Time, t: Time)
    ensures Offset((start - LEAD) % DAY, t) == (t - start + LEAD) % DAY
  {
    var lo := (start - LEAD) % DAY;
    assert start - LEAD - lo == DAY * ((start - LEAD) / DAY);
    ShiftMod(t - lo, t - start + LEAD);
  }

  /** The window is the slot stretched by LEAD and LAG, round the clock. */
  lemma WindowLength(start: Time, end: Time)
    ensures Offset((start - LEAD) % DAY, (end + LAG) % DAY) == (Offset(start, end) + LEAD + LAG) % DAY
  {
    var lo := (start - LEAD) % DAY;
    var hi := (end + LAG) % DAY;
    assert start - LEAD - lo == DAY * ((start - LEAD) / DAY);
    assert end + LAG - hi == DAY * ((end + LAG) / DAY);
    ShiftMod(hi - lo, end - start + LEAD + LAG);
    ShiftMod(end - start + LEAD + LAG, Offset(start, end) + LEAD + LAG);
  }

  /** Two integers that differ by a multiple of a day leave the same remainder. */
  lemma ShiftMod(a: int, b: int)
    requires (a - b) % DAY == 0
    ensures a % DAY == b % DAY
  {
    var k := (a - b) / DAY;
    assert a - b == k * DAY;
  }

  /** `str(t)` for a `datetime.time`: "HH:MM:SS". */
  function TimeText(t: Time): string {
    Text.Pad2(t / 3600) + ":" + Text.Pad2(t / 60 % 60) + ":" + Text.Pad2(t % 60)
  }
}
