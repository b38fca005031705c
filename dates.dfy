/**
 * The `YYYY-MM-DD` date strings of the seed data and the calendar
 * (constants.ts), and reading them back.
 */
module Dates {
  import opened Wrappers
  import opened Strings

  /** `${year}-${MM}-${DD}` with month and day zero-padded to two digits. */
  function FormatDate(year: nat, month: nat, day: nat): string {
    NatToString(year) + "-" + Pad2(month) + "-" + Pad2(day)
  }

  /** Reads a `YYYY-MM-DD` string back into (year, month, day). */
  function ParseDate(s: string): Option<(nat, nat, nat)> {
    if |s| >= 7 && s[|s| - 6] == '-' && s[|s| - 3] == '-'
       && AllDigits(s[..|s| - 6]) && AllDigits(s[|s| - 5..|s| - 3]) && AllDigits(s[|s| - 2..])
    then Some((ParseNat(s[..|s| - 6]), ParseNat(s[|s| - 5..|s| - 3]), ParseNat(s[|s| - 2..])))
    else None
  }

  /** A formatted date reads back as the numbers it was built from. */
  lemma ParseFormatDate(year: nat, month: nat, day: nat)
    requires month < 100 && day < 100
    ensures ParseDate(FormatDate(year, month, day)) == Some((year, month, day))
  {
    var y, m, d := NatToString(year), Pad2(month), Pad2(day);
    var s := y + "-" + m + "-" + d;
    assert s == FormatDate(year, month, day);
    assert |m| == 2 && |d| == 2;
    assert s[..|s| - 6] == y;
    assert s[|s| - 5..|s| - 3] == m;
    assert s[|s| - 2..] == d;
    ParseNatToString(year);
  }

  /** Two dates format to the same string only when they are the same date. */
  lemma FormatDateInjective(y1: nat, m1: nat, d1: nat, y2: nat, m2: nat, d2: nat)
    requires m1 < 100 && d1 < 100 && m2 < 100 && d2 < 100
    requires FormatDate(y1, m1, d1) == FormatDate(y2, m2, d2)
    ensures y1 == y2 && m1 == m2 && d1 == d2
  {
    ParseFormatDate(y1, m1, d1);
    ParseFormatDate(y2, m2, d2);
  }
}
