/**
 * The month view of the cultural calendar (components/CalendarModal.tsx):
 * the month length and first weekday that `Date` reports, the day grid,
 * month navigation and the per-day event lookup. Months are 0-based, as
 * `getMonth()` returns them; the calendar is the proleptic Gregorian one.
 */
module CalendarModal {
  import opened Wrappers
  import opened Strings
  import opened Types
  import opened Seqs
  import opened Dates

  /** The date the modal is showing (`viewDate`). */
  datatype ViewDate = ViewDate(year: int, month: int, day: int)

  predicate ValidMonth(v: ViewDate) {
    0 <= v.month < 12
  }

  // ---------------------------------------------------------------------------
  // Month length and first weekday
  // ---------------------------------------------------------------------------

  predicate IsLeap(y: int) {
    y % 4 == 0 && (y % 100 != 0 || y % 400 == 0)
  }

  /** `new Date(y, m + 1, 0).getDate()`: the last day of month `m`. */
  function DaysInMonth(y: int, m: int): (d: int)
    requires 0 <= m < 12
    ensures 28 <= d <= 31
    ensures m == 1 ==> (d == 29 <==> IsLeap(y))
  {
    if m == 1 then (if IsLeap(y) then 29 else 28)
    else if m == 3 || m == 5 || m == 8 || m == 10 then 30
    else 31
  }

  /** Days from the first of January to the first of month `m`. */
  function DaysBeforeMonth(y: int, m: int): int
    requires 0 <= m <= 12
    decreases m
  {
    if m == 0 then 0 else DaysBeforeMonth(y, m - 1) + DaysInMonth(y, m - 1)
  }

  /** The month lengths add up to the length of the year. */
  lemma YearLength(y: int)
    ensures DaysBeforeMonth(y, 12) == if IsLeap(y) then 366 else 365
  {
  }

  /** Sakamoto's month offsets: the weekday shift of each month's first day within a March-based year. */
  function MonthOffset(m: int): int
    requires 0 <= m < 12
  {
    match m
    case 0 => 0 case 1 => 3 case 2 => 2 case 3 => 5 case 4 => 0 case 5 => 3
    case 6 => 5 case 7 => 1 case 8 => 4 case 9 => 6 case 10 => 2 case _ => 4
  }

  /** Days of the years before `yy`, reduced modulo 7 up to a constant: one per year plus the leap days. */
  function YearShift(yy: int): int {
    yy + yy / 4 - yy / 100 + yy / 400
  }

  /**
   * `new Date(y, m, 1).getDay()`, 0 for Sunday, by Sakamoto's method: the
   * year counts from March, so January and February belong to the year before.
   */
  function StartDay(y: int, m: int): (d: int)
    requires 0 <= m < 12
    ensures 0 <= d < 7
  {
    var yy := if m < 2 then y - 1 else y;
    (YearShift(yy) + MonthOffset(m) + 1) % 7
  }

  /** YearShift grows by two across a leap year and by one otherwise. */
  lemma LeapStep(y: int)
    ensures YearShift(y) - YearShift(y - 1) == if IsLeap(y) then 2 else 1
  {
    if y % 4 != 0 {
      assert y / 4 == (y - 1) / 4;
      assert y % 100 != 0 && y / 100 == (y - 1) / 100;
      assert y % 400 != 0 && y / 400 == (y - 1) / 400;
    } else if y % 100 != 0 {
      assert y / 4 == (y - 1) / 4 + 1;
      assert y / 100 == (y - 1) / 100;
      assert y % 400 != 0 && y / 400 == (y - 1) / 400;
    } else if y % 400 != 0 {
      assert y / 4 == (y - 1) / 4 + 1;
      assert y / 100 == (y - 1) / 100 + 1;
      assert y / 400 == (y - 1) / 400;
    } else {
      assert y / 4 == (y - 1) / 4 + 1;
      assert y / 100 == (y - 1) / 100 + 1;
      assert y / 400 == (y - 1) / 400 + 1;
    }
  }

  lemma ModShift(x: int, c: int, j: int)
    ensures ((x % 7) + c) % 7 == (x + c + 7 * j) % 7
  {
  }

  // ---------------------------------------------------------------------------
  // Navigation
  // ---------------------------------------------------------------------------

  /** Months counted from year 0. */
  function MonthIndex(v: ViewDate): int {
    v.year * 12 + v.month
  }

  /** `new Date(y, m, 1)` for any `m`: the month number is normalised into the year. */
  function FirstOfMonth(y: int, m: int): (v: ViewDate)
    ensures ValidMonth(v) && v.day == 1 && MonthIndex(v) == y * 12 + m
  {
    ViewDate(y + m / 12, m % 12, 1)
  }

  /** handlePrevMonth. */
  function PrevMonth(v: ViewDate): (r: ViewDate)
    requires ValidMonth(v)
    ensures ValidMonth(r) && r.day == 1
    ensures r.year == (if v.month == 0 then v.year - 1 else v.year)
    ensures r.month == (if v.month == 0 then 11 else v.month - 1)
  {
    var r := FirstOfMonth(v.year, v.month - 1);
    assert MonthIndex(r) == MonthIndex(v) - 1;
    r
  }

  /** handleNextMonth. */
  function NextMonth(v: ViewDate): (r: ViewDate)
    requires ValidMonth(v)
    ensures ValidMonth(r) && r.day == 1
    ensures r.year == (if v.month == 11 then v.year + 1 else v.year)
    ensures r.month == (if v.month == 11 then 0 else v.month + 1)
  {
    var r := FirstOfMonth(v.year, v.month + 1);
    assert MonthIndex(r) == MonthIndex(v) + 1;
    r
  }

  /** Next after previous, and previous after next, return to the first of the same month. */
  lemma PrevNextInverse(v: ViewDate)
    requires ValidMonth(v)
    ensures NextMonth(PrevMonth(v)) == v.(day := 1)
    ensures PrevMonth(NextMonth(v)) == v.(day := 1)
  {
  }

  /** The first weekday of the next month follows on from this month's first weekday and length. */
  lemma StartDayOfNextMonth(v: ViewDate)
    requires ValidMonth(v)
    ensures var n := NextMonth(v);
      StartDay(n.year, n.month) == (StartDay(v.year, v.month) + DaysInMonth(v.year, v.month)) % 7
  {
    var y, m := v.year, v.month;
    var yy := if m < 2 then y - 1 else y;
    var x := YearShift(yy) + MonthOffset(m) + 1;
    if m == 1 {
      LeapStep(y);
      ModShift(x, DaysInMonth(y, m), -4);
    } else if m == 11 {
      ModShift(x, DaysInMonth(y, m), -5);
    } else {
      var j := (MonthOffset(m) + DaysInMonth(y, m) - MonthOffset(m + 1)) / 7;
      assert MonthOffset(m + 1) == MonthOffset(m) + DaysInMonth(y, m) - 7 * j;
      ModShift(x, DaysInMonth(y, m), -j);
    }
  }

  /** The first of January 2024 fell on a Monday. */
  lemma StartDayAnchor()
    ensures StartDay(2024, 0) == 1
  {
  }

  // ---------------------------------------------------------------------------
  // The grid
  // ---------------------------------------------------------------------------

  /** The cells of the grid: `startDay` blanks (`null`), then the days 1..daysInMonth. */
  method BuildGrid(startDay: nat, daysInMonth: nat) returns (days: seq<Option<nat>>)
    ensures |days| == startDay + daysInMonth
    ensures forall i :: 0 <= i < startDay ==> days[i] == None
    ensures forall i :: startDay <= i < |days| ==> days[i] == Some(i - startDay + 1)
  {
    days := [];
    var i := 0;
    while i < startDay
      invariant 0 <= i <= startDay
      invariant |days| == i
      invariant forall j :: 0 <= j < i ==> days[j] == None
    {
      days := days + [None];
      i := i + 1;
    }
    i := 1;
    while i <= daysInMonth
      invariant 1 <= i <= daysInMonth + 1
      invariant |days| == startDay + i - 1
      invariant forall j :: 0 <= j < startDay ==> days[j] == None
      invariant forall j :: startDay <= j < |days| ==> days[j] == Some(j - startDay + 1)
    {
      days := days + [Some(i)];
      i := i + 1;
    }
  }

  /** The grid of the month the modal shows. */
  method MonthGrid(v: ViewDate) returns (days: seq<Option<nat>>)
    requires ValidMonth(v)
    ensures |days| == StartDay(v.year, v.month) + DaysInMonth(v.year, v.month)
    ensures forall i :: 0 <= i < |days| ==>
      (days[i].None? <==> i < StartDay(v.year, v.month))
    ensures forall i :: 0 <= i < |days| && days[i].Some? ==>
      1 <= days[i].value <= DaysInMonth(v.year, v.month)
    ensures forall i :: StartDay(v.year, v.month) <= i < |days| ==>
      days[i] == Some(i - StartDay(v.year, v.month) + 1)
  {
    days := BuildGrid(StartDay(v.year, v.month), DaysInMonth(v.year, v.month));
  }

  // ---------------------------------------------------------------------------
  // Events of a day, and today's cell
  // ---------------------------------------------------------------------------

  /** The `YYYY-MM-DD` string getEventForDay compares against. */
  function DayKey(v: ViewDate, day: nat): (r: string)
    requires ValidMonth(v)
    ensures v.year >= 0 && day < 100 ==> ParseDate(r) == Some((v.year, v.month + 1, day))
  {
    KeyParses(v.year, v.month + 1, day);
    IntToString(v.year) + "-" + Pad2(v.month + 1) + "-" + Pad2(day)
  }

  lemma KeyParses(year: int, month: nat, day: nat)
    ensures year >= 0 && month < 100 && day < 100 ==>
      ParseDate(IntToString(year) + "-" + Pad2(month) + "-" + Pad2(day)) == Some((year, month, day))
  {
    if year >= 0 && month < 100 && day < 100 {
      assert IntToString(year) + "-" + Pad2(month) + "-" + Pad2(day) == FormatDate(year, month, day);
      ParseFormatDate(year, month, day);
    }
  }

  /** getEventForDay: the events dated exactly that day, in order. */
  function EventsForDay(events: seq<CalendarEvent>, v: ViewDate, day: nat): (r: seq<CalendarEvent>)
    requires ValidMonth(v)
    ensures forall e :: e in r <==> e in events && e.date == DayKey(v, day)
    ensures SubsequenceOf(r, events)
    ensures forall e :: multiset(r)[e] == if e.date == DayKey(v, day) then multiset(events)[e] else 0
  {
    FilterCounts((e: CalendarEvent) => e.date == DayKey(v, day), events);
    Filter((e: CalendarEvent) => e.date == DayKey(v, day), events)
  }

  /**
   * An event dated `YYYY-MM-DD` (as the calendar generator writes dates)
   * shows on that day of that month, and on no other day of any month.
   */
  lemma DatedEventShowsOnItsDay(events: seq<CalendarEvent>, e: CalendarEvent,
                                m: nat, d: nat, v: ViewDate, day: nat)
    requires e in events && ValidMonth(v) && v.year >= 0
    requires e.date == FormatDate(v.year, m + 1, d) && m < 12 && d < 100 && day < 100
    ensures e in EventsForDay(events, v, day) <==> v.month == m && day == d
  {
    DayKeyMatchesDate(v, day, m, d);
  }

  /** The key of a cell equals a formatted date exactly when month and day agree. */
  lemma DayKeyMatchesDate(v: ViewDate, day: nat, m: nat, d: nat)
    requires ValidMonth(v) && v.year >= 0 && m < 12 && d < 100 && day < 100
    ensures FormatDate(v.year, m + 1, d) == DayKey(v, day) <==> v.month == m && day == d
  {
    if v.month == m && day == d {
      assert DayKey(v, day) == FormatDate(v.year, v.month + 1, day);
    } else {
      ParseFormatDate(v.year, m + 1, d);
    }
  }

  /** The cell of `day` is highlighted when day, month and year all match today's date. */
  predicate IsToday(day: nat, v: ViewDate, today: ViewDate) {
    day == today.day && v.month == today.month && v.year == today.year
  }

  /**
   * handleToday, and opening the modal: the view jumps to the current date,
   * whose month holds a cell highlighted as today.
   */
  function ShowToday(today: ViewDate): (v: ViewDate)
    requires ValidMonth(today) && 1 <= today.day <= DaysInMonth(today.year, today.month)
    ensures ValidMonth(v) && IsToday(today.day, v, today)
  {
    today
  }

  /**
   * In the grid of the month handleToday shows, the cell at `StartDay + day - 1`
   * holds today's day and is highlighted; by TodayAtMostOnce it is the only one.
   */
  lemma ShowTodayHighlightsToday(today: ViewDate, days: seq<Option<nat>>)
    requires ValidMonth(today) && 1 <= today.day <= DaysInMonth(today.year, today.month)
    requires var v := ShowToday(today);
      && |days| == StartDay(v.year, v.month) + DaysInMonth(v.year, v.month)
      && forall i :: StartDay(v.year, v.month) <= i < |days| ==> days[i] == Some(i - StartDay(v.year, v.month) + 1)
    ensures var v := ShowToday(today);
      var k := StartDay(v.year, v.month) + today.day - 1;
      && k < |days| && days[k] == Some(today.day) && IsToday(days[k].value, v, today)
  {
    var v := ShowToday(today);
    var k := StartDay(v.year, v.month) + today.day - 1;
    assert StartDay(v.year, v.month) <= k < |days|;
  }

  /** At most one cell of a grid is today's. */
  lemma TodayAtMostOnce(days: seq<Option<nat>>, v: ViewDate, today: ViewDate, startDay: nat)
    requires forall i :: 0 <= i < startDay && i < |days| ==> days[i] == None
    requires forall i :: startDay <= i < |days| ==> days[i] == Some(i - startDay + 1)
    ensures forall i, j :: 0 <= i < j < |days| && days[i].Some? && days[j].Some? ==>
      !(IsToday(days[i].value, v, today) && IsToday(days[j].value, v, today))
  {
  }
}
