/**
 * The week helpers of client/src/utils/dateUtils.ts: the Monday-start seven-day window
 * around a date, and the heading text of a week. A calendar day is a day number counted
 * from 1970-01-01 (a Thursday); local-time and daylight-saving shifts are not modelled.
 */
module DateUtils {
  import opened Wrappers
  import opened Strings

  /** A calendar day, as a day number (1970-01-01 is 0). */
  type Day = int

  /** `getDay`: 0 for Sunday, 1 for Monday, ..., 6 for Saturday. */
  function Weekday(d: Day): (w: int)
    ensures 0 <= w < 7
  {
    (d + 4) % 7
  }

  /** The step `getWeekDates` takes back to Monday: 6 days from a Sunday, `day - 1` otherwise. */
  function MondayOffset(d: Day): (diff: int)
    ensures -6 <= diff <= 0
    ensures Weekday(d + diff) == 1
  {
    var day := Weekday(d);
    if day == 0 then -6 else 1 - day
  }

  /** The Monday of the week `d` lies in. */
  function WeekStart(d: Day): Day {
    d + MondayOffset(d)
  }

  /** The Monday-to-Sunday week of `d`. */
  function WeekOf(d: Day): seq<Day> {
    seq(7, i => WeekStart(d) + i)
  }

  /** A week's start is a Monday at most six days before the day, so the day lies in its week. */
  lemma WeekStartIsMondayBefore(d: Day)
    ensures Weekday(WeekStart(d)) == 1
    ensures WeekStart(d) <= d < WeekStart(d) + 7
    ensures d in WeekOf(d)
  {
    assert WeekOf(d)[d - WeekStart(d)] == d;
  }

  /** Two days of the same Monday-to-Sunday week give the same window. */
  lemma SameWeekSameDates(a: Day, b: Day)
    requires WeekStart(a) <= b < WeekStart(a) + 7
    ensures WeekStart(b) == WeekStart(a)
    ensures WeekOf(b) == WeekOf(a)
  {
    var k := b - WeekStart(a);
    assert Weekday(b) == (k + 1) % 7 by {
      assert b + 4 == (WeekStart(a) + 4) + k;
      assert WeekStart(a) + 4 == 7 * ((WeekStart(a) + 4) / 7) + 1;
    }
  }

  /** Seven days later is the next week: the window moves by seven. */
  lemma WeekStartShift(d: Day)
    ensures WeekStart(d + 7) == WeekStart(d) + 7
    ensures WeekStart(d - 7) == WeekStart(d) - 7
  {
    assert Weekday(d + 7) == Weekday(d) by {
      assert d + 7 + 4 == (d + 4) + 7 * 1;
    }
    assert Weekday(d - 7) == Weekday(d) by {
      assert d - 7 + 4 == (d + 4) - 7 * 1;
    }
  }

  /** `getWeekDates`: seven consecutive days starting from the Monday of the week of `date`. */
  method GetWeekDates(date: Day) returns (dates: seq<Day>)
    ensures dates == WeekOf(date)
    ensures |dates| == 7 && forall i :: 0 < i < 7 ==> dates[i] == dates[i - 1] + 1
    ensures Weekday(dates[0]) == 1 && date in dates
  {
    var current := date;
    var day := Weekday(current);
    var diff := if day == 0 then -6 else 1 - day;
    current := current + diff;
    dates := [];
    for i := 0 to 7
      invariant |dates| == i && current == WeekStart(date) + i
      invariant forall j :: 0 <= j < i ==> dates[j] == WeekStart(date) + j
    {
      dates := dates + [current];
      current := current + 1;
    }
    WeekStartIsMondayBefore(date);
  }

  /** What the heading reads from a date: its short month name and its day of the month. */
  datatype DayLabel = DayLabel(month: string, dayOfMonth: nat)

  /** `formatWeekRange`: one month name for a week inside a month, two otherwise. */
  function FormatWeekRange(dates: seq<DayLabel>): string
    requires |dates| >= 7
  {
    var first, last := dates[0], dates[6];
    if first.month == last.month then
      first.month + " " + NatText(first.dayOfMonth) + "-" + NatText(last.dayOfMonth)
    else
      first.month + " " + NatText(first.dayOfMonth) + " - " + last.month + " " + NatText(last.dayOfMonth)
  }

  /** What a heading says: the month and day of the first and of the last date. */
  datatype Range = Range(firstMonth: string, firstDay: nat, lastMonth: string, lastDay: nat)

  /** Reads a heading back. */
  function ParseWeekRange(text: string): Option<Range> {
    var firstMonth := Before(text, ' ');
    var rest := After(text, ' ');
    if rest.None? then None
    else if After(rest.value, ' ').None? then ParseSameMonth(firstMonth, rest.value)
    else ParseTwoMonths(firstMonth, rest.value)
  }

  /** The part `a-b` of a heading for a week inside one month. */
  function ParseSameMonth(month: string, rest: string): Option<Range> {
    var a := Before(rest, '-');
    var b := After(rest, '-');
    if b.Some? && AllDigits(a) && AllDigits(b.value) then Some(Range(month, ParseNat(a), month, ParseNat(b.value)))
    else None
  }

  /** The part `a - Mon2 b` of a heading for a week across two months. */
  function ParseTwoMonths(firstMonth: string, rest: string): Option<Range> {
    var a := Before(rest, ' ');
    var tail := After(rest, ' ');
    if tail.None? || |tail.value| < 2 || tail.value[..2] != "- " || !AllDigits(a) then None
    else
      var second := tail.value[2..];
      var b := After(second, ' ');
      if b.Some? && AllDigits(b.value) then Some(Range(firstMonth, ParseNat(a), Before(second, ' '), ParseNat(b.value)))
      else None
  }

  /**
   * The heading shows exactly the first and the seventh date, whatever the dates between:
   * for month names without spaces it reads back as their months and days.
   */
  lemma WeekRangeRoundTrip(dates: seq<DayLabel>)
    requires |dates| >= 7
    requires ' ' !in dates[0].month && ' ' !in dates[6].month
    ensures ParseWeekRange(FormatWeekRange(dates)) ==
              Some(Range(dates[0].month, dates[0].dayOfMonth, dates[6].month, dates[6].dayOfMonth))
  {
    if dates[0].month == dates[6].month {
      SameMonthHeading(dates[0].month, dates[0].dayOfMonth, dates[6].dayOfMonth);
    } else {
      TwoMonthsHeading(dates[0].month, dates[0].dayOfMonth, dates[6].month, dates[6].dayOfMonth);
    }
  }

  lemma SameMonthHeading(m: string, d0: nat, d6: nat)
    requires ' ' !in m
    ensures ParseWeekRange(m + " " + NatText(d0) + "-" + NatText(d6)) == Some(Range(m, d0, m, d6))
  {
    var a, b := NatText(d0), NatText(d6);
    NatTextRoundTrip(d0);
    NatTextRoundTrip(d6);
    var rest := a + ['-'] + b;
    assert m + " " + a + "-" + b == m + [' '] + rest;
    SplitAtFirst(m, ' ', rest);
    DigitsHaveNo(a, '-');
    DigitsHaveNo(a, ' ');
    DigitsHaveNo(b, ' ');
    SplitAtFirst(a, '-', b);
    assert ' ' !in rest;
  }

  lemma TwoMonthsHeading(m0: string, d0: nat, m6: string, d6: nat)
    requires ' ' !in m0 && ' ' !in m6
    ensures ParseWeekRange(m0 + " " + NatText(d0) + " - " + m6 + " " + NatText(d6)) == Some(Range(m0, d0, m6, d6))
  {
    var a, b := NatText(d0), NatText(d6);
    var tail := ['-', ' '] + m6 + [' '] + b;
    var rest := a + [' '] + tail;
    assert m0 + " " + a + " - " + m6 + " " + b == m0 + [' '] + rest;
    SplitAtFirst(m0, ' ', rest);
    TwoMonthsTail(m0, a, m6, b);
    NatTextRoundTrip(d0);
    NatTextRoundTrip(d6);
  }

  lemma TwoMonthsTail(m0: string, a: string, m6: string, b: string)
    requires AllDigits(a) && AllDigits(b) && ' ' !in m6
    ensures After(a + [' '] + (['-', ' '] + m6 + [' '] + b), ' ').Some?
    ensures ParseTwoMonths(m0, a + [' '] + (['-', ' '] + m6 + [' '] + b)) == Some(Range(m0, ParseNat(a), m6, ParseNat(b)))
  {
    var tail := ['-', ' '] + m6 + [' '] + b;
    DigitsHaveNo(a, ' ');
    SplitAtFirst(a, ' ', tail);
    assert tail[..2] == "- ";
    assert tail[2..] == m6 + [' '] + b;
    SplitAtFirst(m6, ' ', b);
  }
}
