/**
 * Calendar dates as the components see them: a 'YYYY-MM-DD' string is a
 * `Civil` date, and a JavaScript `Date` built from it is midnight UTC of
 * that day, `DayNumber` days after 1970-01-01. Time zones are not modelled:
 * local time is taken to be UTC.
 */
module Dates {

  /** Milliseconds in a day: `24 * 60 * 60 * 1000`. */
  const MsPerDay: int := 86400000

  datatype Civil = Civil(year: int, month: int, day: int)

  predicate IsLeap(y: int) {
    y % 4 == 0 && (y % 100 != 0 || y % 400 == 0)
  }

  function DaysInMonth(y: int, m: int): (n: int)
    ensures 28 <= n <= 31
    ensures m == 2 ==> (n == 29 <==> IsLeap(y))
  {
    if m == 2 then (if IsLeap(y) then 29 else 28)
    else if m == 4 || m == 6 || m == 9 || m == 11 then 30
    else 31
  }

  /** A date that `toISOString` can produce: a real month and a day inside it. */
  predicate Valid(c: Civil) {
    1 <= c.month <= 12 && 1 <= c.day <= DaysInMonth(c.year, c.month)
  }

  /** Leap years in 1..y (Gregorian rule), counted for any integer y. */
  function LeapsThrough(y: int): int {
    y / 4 - y / 100 + y / 400
  }

  /** Days from 1970-01-01 to January 1 of year `y`. */
  function YearStart(y: int): int {
    365 * (y - 1970) + LeapsThrough(y - 1) - LeapsThrough(1969)
  }

  /** Days from 1970-01-01 to the first of month `m` of year `y`: the months before it, one by one. */
  function MonthStart(y: int, m: int): int
    decreases m
  {
    if m <= 1 then YearStart(y) else MonthStart(y, m - 1) + DaysInMonth(y, m - 1)
  }

  /** Days since 1970-01-01 (negative before it): the `Date` value divided by `MsPerDay`. */
  function DayNumber(c: Civil): int {
    MonthStart(c.year, c.month) + c.day - 1
  }

  /** `new Date(DayNumber(c) * MsPerDay)`: the instant of midnight UTC. */
  function Instant(c: Civil): int {
    DayNumber(c) * MsPerDay
  }

  /** `d.setDate(d.getDate() + 1)`. */
  function NextDay(c: Civil): Civil {
    if c.day < DaysInMonth(c.year, c.month) then Civil(c.year, c.month, c.day + 1)
    else if c.month < 12 then Civil(c.year, c.month + 1, 1)
    else Civil(c.year + 1, 1, 1)
  }

  /**
   * `d.setDate(d.getDate() + 7)`: a day past the month's end overflows into
   * the next month (or the next year's January).
   */
  function AddWeek(c: Civil): Civil {
    if c.day + 7 <= DaysInMonth(c.year, c.month) then Civil(c.year, c.month, c.day + 7)
    else if c.month < 12 then Civil(c.year, c.month + 1, c.day + 7 - DaysInMonth(c.year, c.month))
    else Civil(c.year + 1, 1, c.day + 7 - DaysInMonth(c.year, c.month))
  }

  /**
   * `d.setMonth(d.getMonth() + 1)`: same day of the next month, where a day
   * past that month's end overflows into the month after (Jan 31 -> Mar 3).
   */
  function AddMonth(c: Civil): Civil {
    if c.month == 12 then Civil(c.year + 1, 1, c.day)
    else if c.day <= DaysInMonth(c.year, c.month + 1) then Civil(c.year, c.month + 1, c.day)
    else Civil(c.year, c.month + 2, c.day - DaysInMonth(c.year, c.month + 1))
  }

  lemma DivStep4(y: int)
    ensures y / 4 - (y - 1) / 4 == if y % 4 == 0 then 1 else 0
  {
    var q, r := (y - 1) / 4, (y - 1) % 4;
    assert y == q * 4 + r + 1;
    if r == 3 { assert y == (q + 1) * 4; } else { assert y / 4 == q; }
  }

  lemma DivStep100(y: int)
    ensures y / 100 - (y - 1) / 100 == if y % 100 == 0 then 1 else 0
  {
    var q, r := (y - 1) / 100, (y - 1) % 100;
    assert y == q * 100 + r + 1;
    if r == 99 { assert y == (q + 1) * 100; } else { assert y / 100 == q; }
  }

  lemma DivStep400(y: int)
    ensures y / 400 - (y - 1) / 400 == if y % 400 == 0 then 1 else 0
  {
    var q, r := (y - 1) / 400, (y - 1) % 400;
    assert y == q * 400 + r + 1;
    if r == 399 { assert y == (q + 1) * 400; } else { assert y / 400 == q; }
  }

  lemma Mod400IsMod100(y: int)
    requires y % 400 == 0
    ensures y % 100 == 0
  {
    var t := y / 400;
    assert y == 100 * (4 * t);
  }

  lemma Mod100IsMod4(y: int)
    requires y % 100 == 0
    ensures y % 4 == 0
  {
    var t := y / 100;
    assert y == 4 * (25 * t);
  }

  lemma LeapsStep(y: int)
    ensures LeapsThrough(y) - LeapsThrough(y - 1) == if IsLeap(y) then 1 else 0
  {
    DivStep4(y);
    DivStep100(y);
    DivStep400(y);
    var d4, d100, d400 := y / 4 - (y - 1) / 4, y / 100 - (y - 1) / 100, y / 400 - (y - 1) / 400;
    assert LeapsThrough(y) - LeapsThrough(y - 1) == d4 - d100 + d400;
    if y % 400 == 0 {
      Mod400IsMod100(y);
      Mod100IsMod4(y);
    } else if y % 100 == 0 {
      Mod100IsMod4(y);
    }
  }

  lemma YearLength(y: int)
    ensures YearStart(y + 1) == YearStart(y) + (if IsLeap(y) then 366 else 365)
  {
    LeapsStep(y);
  }

  /** December 1 is 334 days (335 in a leap year) into the year, so the next January 1 is 31 days after it. */
  lemma YearEnd(y: int)
    ensures MonthStart(y + 1, 1) == MonthStart(y, 12) + 31
  {
    YearLength(y);
    var leap := if IsLeap(y) then 1 else 0;
    assert MonthStart(y, 2) == YearStart(y) + 31;
    assert MonthStart(y, 3) == YearStart(y) + 59 + leap;
    assert MonthStart(y, 4) == YearStart(y) + 90 + leap;
    assert MonthStart(y, 5) == YearStart(y) + 120 + leap;
    assert MonthStart(y, 6) == YearStart(y) + 151 + leap;
    assert MonthStart(y, 7) == YearStart(y) + 181 + leap;
    assert MonthStart(y, 8) == YearStart(y) + 212 + leap;
    assert MonthStart(y, 9) == YearStart(y) + 243 + leap;
    assert MonthStart(y, 10) == YearStart(y) + 273 + leap;
    assert MonthStart(y, 11) == YearStart(y) + 304 + leap;
    assert MonthStart(y, 12) == YearStart(y) + 334 + leap;
  }

  /** The first of the next month is the length of this month later. */
  lemma MonthLength(y: int, m: int)
    requires 1 <= m <= 12
    ensures DayNumber(if m < 12 then Civil(y, m + 1, 1) else Civil(y + 1, 1, 1)) == DayNumber(Civil(y, m, 1)) + DaysInMonth(y, m)
  {
    if m == 12 {
      YearEnd(y);
    }
  }

  /** The day after a valid date is a valid date, one day number later. */
  lemma NextDayNumber(c: Civil)
    requires Valid(c)
    ensures Valid(NextDay(c))
    ensures DayNumber(NextDay(c)) == DayNumber(c) + 1
  {
    if c.day == DaysInMonth(c.year, c.month) {
      MonthLength(c.year, c.month);
    }
  }

  /** A week step is a valid date seven days later, the same as seven single-day steps. */
  lemma AddWeekNumber(c: Civil)
    requires Valid(c)
    ensures Valid(AddWeek(c))
    ensures DayNumber(AddWeek(c)) == DayNumber(c) + 7
  {
    if c.day + 7 > DaysInMonth(c.year, c.month) {
      MonthLength(c.year, c.month);
    }
  }

  /**
   * Stepping one month forward advances by exactly the length of the current
   * month, whether or not the day overflows.
   */
  lemma AddMonthNumber(c: Civil)
    requires Valid(c)
    ensures Valid(AddMonth(c))
    ensures DayNumber(AddMonth(c)) == DayNumber(c) + DaysInMonth(c.year, c.month)
  {
    MonthLength(c.year, c.month);
    if c.month < 12 && c.day > DaysInMonth(c.year, c.month + 1) {
      MonthLength(c.year, c.month + 1);
    }
  }

  /** When the next month is long enough, a monthly step keeps the day of the month. */
  lemma AddMonthKeepsDay(c: Civil)
    requires Valid(c)
    requires c.day <= DaysInMonth(if c.month == 12 then c.year + 1 else c.year, if c.month == 12 then 1 else c.month + 1)
    ensures AddMonth(c).day == c.day
    ensures AddMonth(c).month == if c.month == 12 then 1 else c.month + 1
  {
  }

  /** Later months of a year start no earlier. */
  lemma {:induction false} MonthStartMonotone(y: int, m1: int, m2: int)
    requires 1 <= m1 <= m2
    ensures MonthStart(y, m1) <= MonthStart(y, m2)
    decreases m2 - m1
  {
    if m1 < m2 {
      MonthStartMonotone(y, m1, m2 - 1);
    }
  }

  /** Later years start no earlier. */
  lemma {:induction false} YearStartMonotone(y1: int, y2: int)
    requires y1 <= y2
    ensures YearStart(y1) <= YearStart(y2)
    decreases y2 - y1
  {
    if y1 < y2 {
      YearStartMonotone(y1, y2 - 1);
      YearLength(y2 - 1);
    }
  }

  /** A valid date's day number lies inside its own year. */
  lemma WithinYear(c: Civil)
    requires Valid(c)
    ensures YearStart(c.year) <= DayNumber(c) < YearStart(c.year + 1)
  {
    MonthStartMonotone(c.year, 1, c.month);
    if c.month < 12 {
      MonthStartMonotone(c.year, c.month + 1, 12);
    }
    YearEnd(c.year);
  }

  /** Distinct valid dates have distinct day numbers: `DayNumber` reads back the date. */
  lemma DayNumberInjective(a: Civil, b: Civil)
    requires Valid(a) && Valid(b) && DayNumber(a) == DayNumber(b)
    ensures a == b
  {
    SameYear(a, b);
    if a.month < b.month {
      EarlierMonth(a, b);
    } else if b.month < a.month {
      EarlierMonth(b, a);
    }
  }

  /** Valid dates with one day number fall in one year. */
  lemma SameYear(a: Civil, b: Civil)
    requires Valid(a) && Valid(b) && DayNumber(a) == DayNumber(b)
    ensures a.year == b.year
  {
    WithinYear(a);
    WithinYear(b);
    if a.year < b.year {
      YearStartMonotone(a.year + 1, b.year);
    } else if b.year < a.year {
      YearStartMonotone(b.year + 1, a.year);
    }
  }

  /** In one year, a date of an earlier month has a smaller day number. */
  lemma EarlierMonth(a: Civil, b: Civil)
    requires Valid(a) && Valid(b) && a.year == b.year && a.month < b.month
    ensures DayNumber(a) < DayNumber(b)
  {
    assert MonthStart(a.year, a.month + 1) == MonthStart(a.year, a.month) + DaysInMonth(a.year, a.month);
    MonthStartMonotone(a.year, a.month + 1, b.month);
  }

  /** Two valid dates at the same instant are the same date, so an event's `start` determines its day. */
  lemma InstantInjective(a: Civil, b: Civil)
    requires Valid(a) && Valid(b) && Instant(a) == Instant(b)
    ensures a == b
  {
    DayNumberInjective(a, b);
  }

  /** Ceiling division, as `Math.ceil(a / b)` on exact quotients. */
  function CeilDiv(a: int, b: int): int
    requires b > 0
  {
    -((-a) / b)
  }

  /** `Math.ceil((new Date(due) - now) / MsPerDay)`: whole days from now until the due date. */
  function DaysUntil(due: Civil, now: int): int {
    CeilDiv(Instant(due) - now, MsPerDay)
  }

  /** The millisecond rounding cancels: it is the difference of day numbers, today's taken from `now`. */
  lemma DaysUntilIsDayDifference(due: Civil, now: int)
    ensures DaysUntil(due, now) == DayNumber(due) - now / MsPerDay
  {
    var q := now / MsPerDay;
    var r := now % MsPerDay;
    assert now == q * MsPerDay + r && 0 <= r < MsPerDay;
    var a := Instant(due) - now;
    assert -a == (q - DayNumber(due)) * MsPerDay + r;
    assert (-a) / MsPerDay == q - DayNumber(due);
  }
}
