/**
 * The festival and muhurat calendar of constants.ts: the entries
 * generateYearlyEvents produces from a per-month table for the current year,
 * and getUpcomingFestivals.
 */
module FestivalCalendar {
  import opened Wrappers
  import opened Strings
  import opened Types
  import opened Seqs
  import opened Dates

  // ---------------------------------------------------------------------------
  // The festival and muhurat calendar
  // ---------------------------------------------------------------------------

  type Day = d: nat | 1 <= d <= 31 witness 1

  /** One row of the per-month table. */
  datatype CalendarRow = CalendarRow(name: string, kind: CalendarKind, day: Day, desc: string)

  /** `cal-${monthIndex}-${idx}`. */
  function CalId(monthIndex: nat, idx: nat): string {
    "cal-" + NatToString(monthIndex) + "-" + NatToString(idx)
  }

  /** Distinct (month, row) positions give distinct ids. */
  lemma CalIdInjective(m1: nat, i1: nat, m2: nat, i2: nat)
    requires CalId(m1, i1) == CalId(m2, i2)
    ensures m1 == m2 && i1 == i2
  {
    var a, b, c, d := NatToString(m1), NatToString(i1), NatToString(m2), NatToString(i2);
    var s := CalId(m1, i1);
    assert s == "cal-" + a + "-" + b;
    assert s == "cal-" + c + "-" + d;
    // The first '-' after the prefix ends the month digits on both sides.
    assert s[4..] == a + ("-" + b) == c + ("-" + d);
    FirstNonDigitAfterDigits(a, "-" + b);
    FirstNonDigitAfterDigits(c, "-" + d);
    assert a == s[4..4 + |a|] == c;
    assert b == s[5 + |a|..] == d;
    NatToStringInjective(m1, m2);
    NatToStringInjective(i1, i2);
  }

  /** A per-month table of rows, indexed by month 0 (January) .. 11 (December). */
  type Table = seq<seq<CalendarRow>>

  /** Whether (monthIndex, idx) names a row of `table`. */
  predicate IsRow(table: Table, k: (nat, nat)) {
    k.0 < |table| && k.1 < |table[k.0]|
  }

  /** The calendar entry generated from row `idx` of month `monthIndex` in `year`. */
  function CalendarEntry(table: Table, year: nat, k: (nat, nat)): CalendarEvent
    requires IsRow(table, k)
  {
    var row := table[k.0][k.1];
    CalendarEvent(CalId(k.0, k.1), row.name, FormatDate(year, k.0 + 1, row.day), row.kind, row.desc)
  }

  /** The row positions of one month, in row order. */
  function MonthRows(table: Table, m: nat): (ks: seq<(nat, nat)>)
    requires m < |table|
    ensures |ks| == |table[m]|
    ensures forall i :: 0 <= i < |ks| ==> ks[i] == (m, i) && IsRow(table, ks[i])
  {
    seq(|table[m]|, i requires 0 <= i < |table[m]| => (m, i))
  }

  /** The row positions of the first `months` months, in month then row order. */
  function RowsBefore(table: Table, months: nat): (ks: seq<(nat, nat)>)
    requires months <= |table|
    ensures forall i :: 0 <= i < |ks| ==> IsRow(table, ks[i]) && ks[i].0 < months
  {
    if months == 0 then [] else RowsBefore(table, months - 1) + MonthRows(table, months - 1)
  }

  function EntriesAt(table: Table, year: nat, ks: seq<(nat, nat)>): (es: seq<CalendarEvent>)
    requires forall i :: 0 <= i < |ks| ==> IsRow(table, ks[i])
    ensures |es| == |ks|
  {
    seq(|ks|, i requires 0 <= i < |ks| => CalendarEntry(table, year, ks[i]))
  }

  /** The entries of every row of `table`, month by month. */
  function TableEvents(table: Table, year: nat): seq<CalendarEvent> {
    EntriesAt(table, year, RowsBefore(table, |table|))
  }

  /** The body of generateYearlyEvents: walks the months in key order and pushes one entry per row. */
  method GenerateEvents(table: Table, year: nat) returns (events: seq<CalendarEvent>)
    ensures events == TableEvents(table, year)
  {
    events := [];
    var monthIndex := 0;
    while monthIndex < |table|
      invariant 0 <= monthIndex <= |table|
      invariant events == EntriesAt(table, year, RowsBefore(table, monthIndex))
    {
      var monthData := table[monthIndex];
      var idx := 0;
      while idx < |monthData|
        invariant 0 <= idx <= |monthData|
        invariant events == EntriesAt(table, year, RowsBefore(table, monthIndex) + MonthRows(table, monthIndex)[..idx])
      {
        var before := RowsBefore(table, monthIndex) + MonthRows(table, monthIndex)[..idx];
        assert before + [(monthIndex, idx)] == RowsBefore(table, monthIndex) + MonthRows(table, monthIndex)[..idx + 1];
        EntriesAtAppend(table, year, before, (monthIndex, idx));
        events := events + [CalendarEntry(table, year, (monthIndex, idx))];
        idx := idx + 1;
      }
      assert MonthRows(table, monthIndex)[..idx] == MonthRows(table, monthIndex);
      monthIndex := monthIndex + 1;
    }
  }

  /** Generating one more position appends its entry. */
  lemma EntriesAtAppend(table: Table, year: nat, ks: seq<(nat, nat)>, k: (nat, nat))
    requires forall i :: 0 <= i < |ks| ==> IsRow(table, ks[i])
    requires IsRow(table, k)
    ensures EntriesAt(table, year, ks + [k]) == EntriesAt(table, year, ks) + [CalendarEntry(table, year, k)]
  {
  }

  /** No row position is generated twice. */
  lemma {:induction false} RowsBeforeDistinct(table: Table, months: nat)
    requires months <= |table|
    ensures forall i, j :: 0 <= i < j < |RowsBefore(table, months)| ==>
      RowsBefore(table, months)[i] != RowsBefore(table, months)[j]
  {
    if months > 0 {
      RowsBeforeDistinct(table, months - 1);
      var a, b := RowsBefore(table, months - 1), MonthRows(table, months - 1);
      var ks := RowsBefore(table, months);
      forall i, j | 0 <= i < j < |ks|
        ensures ks[i] != ks[j]
      {
        if j >= |a| && i < |a| {
          assert ks[i] == a[i] && a[i].0 < months - 1;
          assert ks[j] == b[j - |a|];
        } else if i >= |a| {
          assert ks[i] == b[i - |a|] && ks[j] == b[j - |a|];
        }
      }
    }
  }

  /** The entries of a table carry pairwise distinct ids. */
  lemma TableIdsDistinct(table: Table, year: nat)
    ensures var es := TableEvents(table, year);
      forall i, j :: 0 <= i < j < |es| ==> es[i].id != es[j].id
  {
    var ks := RowsBefore(table, |table|);
    var es := TableEvents(table, year);
    RowsBeforeDistinct(table, |table|);
    forall i, j | 0 <= i < j < |es|
      ensures es[i].id != es[j].id
    {
      if es[i].id == es[j].id {
        assert es[i] == CalendarEntry(table, year, ks[i]) && es[j] == CalendarEntry(table, year, ks[j]);
        CalIdInjective(ks[i].0, ks[i].1, ks[j].0, ks[j].1);
      }
    }
  }

  /** Each entry of a table is its row, dated `year`-(month index + 1)-day. */
  lemma TableEventsFollowTable(table: Table, year: nat)
    requires |table| <= 12
    ensures var ks := RowsBefore(table, |table|);
      var es := TableEvents(table, year);
      forall i :: 0 <= i < |es| ==>
        var row := table[ks[i].0][ks[i].1];
        && es[i].name == row.name && es[i].kind == row.kind && es[i].description == row.desc
        && ParseDate(es[i].date) == Some((year, ks[i].0 + 1, row.day as nat))
  {
    var ks := RowsBefore(table, |table|);
    var es := TableEvents(table, year);
    forall i | 0 <= i < |es|
      ensures var row := table[ks[i].0][ks[i].1];
        && es[i].name == row.name && es[i].kind == row.kind && es[i].description == row.desc
        && ParseDate(es[i].date) == Some((year, ks[i].0 + 1, row.day as nat))
    {
      assert es[i] == CalendarEntry(table, year, ks[i]);
      EntryFollowsRow(table, year, ks[i]);
    }
  }

  /** One generated entry carries its row's name, type and description, and reads back as its date. */
  lemma EntryFollowsRow(table: Table, year: nat, k: (nat, nat))
    requires IsRow(table, k) && k.0 < 12
    ensures var e := CalendarEntry(table, year, k);
      var row := table[k.0][k.1];
      && e.name == row.name && e.kind == row.kind && e.description == row.desc
      && ParseDate(e.date) == Some((year, k.0 + 1, row.day as nat))
  {
    ParseFormatDate(year, k.0 + 1, table[k.0][k.1].day);
  }

  // ---------------------------------------------------------------------------
  // Upcoming festivals
  // ---------------------------------------------------------------------------

  /**
   * The filter of getUpcomingFestivals: a festival dated in `year`, in the
   * current month (0-based) or in `(currentMonth + 1) % 12`.
   */
  predicate IsUpcoming(e: CalendarEvent, currentMonth: nat, year: nat)
    requires currentMonth < 12
  {
    var d := ParseDate(e.date);
    && d.Some?
    && (d.value.1 == currentMonth + 1 || d.value.1 == (currentMonth + 1) % 12 + 1)
    && d.value.0 == year
    && e.kind == FestivalDay
  }

  function UpcomingFestivals(calendar: seq<CalendarEvent>, currentMonth: nat, year: nat)
    : (r: seq<CalendarEvent>)
    requires currentMonth < 12
    ensures forall e :: e in r <==> e in calendar && IsUpcoming(e, currentMonth, year)
    ensures SubsequenceOf(r, calendar)
    ensures forall e :: multiset(r)[e] == if IsUpcoming(e, currentMonth, year) then multiset(calendar)[e] else 0
  {
    FilterCounts((e: CalendarEvent) => IsUpcoming(e, currentMonth, year), calendar);
    Filter((e: CalendarEvent) => IsUpcoming(e, currentMonth, year), calendar)
  }

  /** In December the next month wraps to January of the same year, so January festivals of this year are listed. */
  lemma DecemberListsJanuaryOfSameYear(year: nat, e: CalendarEvent, day: nat)
    requires day < 100 && e.date == FormatDate(year, 1, day) && e.kind == FestivalDay
    ensures IsUpcoming(e, 11, year)
    ensures !IsUpcoming(e, 10, year)
  {
    ParseFormatDate(year, 1, day);
  }

  /** A muhurat is never listed. */
  lemma MuhuratNeverUpcoming(e: CalendarEvent, currentMonth: nat, year: nat)
    requires currentMonth < 12 && e.kind == Muhurat
    ensures e !in UpcomingFestivals([e], currentMonth, year)
  {
  }
}
