/**
 * ISO 8601 week numbers (ISO 8601:2004, section 4.1.4, week dates) as the plan adapter computes
 * them: move to the Thursday of the date's Monday-based week, then count whole weeks from the
 * Monday-based week that holds January 4 of that Thursday's year. Days are counted from
 * 1970-01-01, in UTC.
 */
module IsoWeek {
  import opened Common

  /** The day an instant (in milliseconds) falls on: midnight of that day, as `setHours(0, 0, 0, 0)`. */
  function DayOf(ms: int): int {
    ms / DayMs
  }

  /** `getDay()`: 0 for Sunday up to 6 for Saturday; 1970-01-01 was a Thursday. */
  function WeekDay(day: int): (w: int)
    ensures 0 <= w < 7
  {
    (day + 4) % 7
  }

  /** `(getDay() + 6) % 7`: days since the Monday of the same week. */
  function SinceMonday(day: int): (m: int)
    ensures 0 <= m < 7
  {
    (WeekDay(day) + 6) % 7
  }

  /** Days since Monday depend only on the day modulo 7. */
  lemma SinceMondayMod(day: int)
    ensures SinceMonday(day) == (day + 3) % 7
  {
    var q := (day + 4) / 7;
    var w := WeekDay(day);
    assert day + 4 == 7 * q + w;
    if w == 0 {
      assert day + 3 == 7 * (q - 1) + 6;
    } else {
      assert day + 3 == 7 * q + (w - 1);
    }
  }

  /** Leap years of the Gregorian calendar. */
  predicate IsLeap(y: int) {
    y % 4 == 0 && (y % 100 != 0 || y % 400 == 0)
  }

  /** Leap years before year `y`, counted from year 1 (floored for earlier years). */
  function LeapsBefore(y: int): int {
    (y - 1) / 4 - (y - 1) / 100 + (y - 1) / 400
  }

  /** The day of January 1 of year `y`. */
  function YearStart(y: int): int {
    365 * (y - 1970) + LeapsBefore(y) - LeapsBefore(1970)
  }

  lemma StepBy4(y: int)
    ensures y / 4 - (y - 1) / 4 == (if y % 4 == 0 then 1 else 0)
  {
  }

  lemma StepBy100(y: int)
    ensures y / 100 - (y - 1) / 100 == (if y % 100 == 0 then 1 else 0)
  {
  }

  lemma StepBy400(y: int)
    ensures y / 400 - (y - 1) / 400 == (if y % 400 == 0 then 1 else 0)
  {
  }

  lemma CenturyDivisibleBy4(y: int)
    requires y % 100 == 0
    ensures y % 4 == 0
  {
    var k := y / 100;
    assert y == 4 * (25 * k);
  }

  lemma FourCenturiesDivisibleBy100(y: int)
    requires y % 400 == 0
    ensures y % 100 == 0
  {
    var k := y / 400;
    assert y == 100 * (4 * k);
  }

  /** A year has 366 days when it is a leap year and 365 otherwise. */
  lemma YearLength(y: int)
    ensures YearStart(y + 1) - YearStart(y) == (if IsLeap(y) then 366 else 365)
  {
    StepBy4(y);
    StepBy100(y);
    StepBy400(y);
    if y % 100 == 0 {
      CenturyDivisibleBy4(y);
    }
    if y % 400 == 0 {
      FourCenturiesDivisibleBy100(y);
    }
  }

  /** The year of day `d`, searching upwards from year `y`. */
  function YearUp(d: int, y: int): (r: int)
    requires YearStart(y) <= d
    ensures YearStart(r) <= d < YearStart(r + 1)
    decreases d - YearStart(y)
  {
    YearLength(y);
    if d < YearStart(y + 1) then y else YearUp(d, y + 1)
  }

  /** The year of day `d`, searching downwards from year `y`. */
  function YearDown(d: int, y: int): (r: int)
    requires d < YearStart(y + 1)
    ensures YearStart(r) <= d < YearStart(r + 1)
    decreases YearStart(y + 1) - d
  {
    YearLength(y);
    if YearStart(y) <= d then y else YearDown(d, y - 1)
  }

  /** `getFullYear()`: the year whose days include `d`. */
  function YearOf(d: int): (y: int)
    ensures YearStart(y) <= d < YearStart(y + 1)
  {
    if d >= 0 then YearUp(d, 1970) else YearDown(d, 1969)
  }

  /** `getISOWeekNumber`: the week number of the instant `ms`, always in 1..53. */
  function IsoWeekNumber(ms: int): (w: int)
    ensures 1 <= w <= 53
  {
    var day := DayOf(ms);
    var thursday := day + 3 - SinceMonday(day);
    var y := YearOf(thursday);
    var week1 := YearStart(y) + 3;
    var n := thursday - week1 - 3 + SinceMonday(week1);
    WeeksBetweenMondays(day, y);
    RoundOfInteger(n / 7);
    1 + Round(n as real / 7.0)
  }

  /**
   * The Thursday of `day`'s week and the Monday-based week holding January 4 of its year lie a
   * whole number of weeks apart, between 0 and 52.
   */
  lemma WeeksBetweenMondays(day: int, y: int)
    requires YearStart(y) <= day + 3 - SinceMonday(day) < YearStart(y + 1)
    ensures var n := day + 3 - SinceMonday(day) - (YearStart(y) + 3) - 3 + SinceMonday(YearStart(y) + 3);
      n % 7 == 0 && 0 <= n / 7 <= 52 && n as real / 7.0 == (n / 7) as real
  {
    var week1 := YearStart(y) + 3;
    SinceMondayMod(day);
    SinceMondayMod(week1);
    YearLength(y);
    var q, p := (day + 3) / 7, (week1 + 3) / 7;
    var thursday := day + 3 - SinceMonday(day);
    assert thursday == 7 * q;
    var n := thursday - week1 - 3 + SinceMonday(week1);
    assert n == 7 * (q - p);
    assert 0 <= q - p <= 52;
    assert n / 7 == q - p;
  }

  lemma {:induction false} YearStartMonotone(a: int, b: int)
    requires a <= b
    ensures YearStart(a) <= YearStart(b)
    decreases b - a
  {
    if a < b {
      YearLength(a);
      YearStartMonotone(a + 1, b);
    }
  }

  /** Years do not overlap: a day lies in exactly one year. */
  lemma YearOfUnique(d: int, y: int)
    requires YearStart(y) <= d < YearStart(y + 1)
    ensures YearOf(d) == y
  {
    var z := YearOf(d);
    if z < y {
      YearStartMonotone(z + 1, y);
    } else if z > y {
      YearStartMonotone(y + 1, z);
    }
  }

  /** Monday 1970-01-05 falls in week 2 of 1970. */
  lemma FirstMondayExample()
    ensures IsoWeekNumber(4 * DayMs) == 2
  {
    assert DayOf(4 * DayMs) == 4;
    SinceMondayMod(4);
    SinceMondayMod(3);
    assert YearStart(1970) == 0 && YearStart(1971) == 365;
    YearOfUnique(7, 1970);
    RoundOfInteger(1);
  }

  /** Sunday 1970-01-04 falls in week 1 of 1970. */
  lemma SundayExample()
    ensures IsoWeekNumber(3 * DayMs) == 1
  {
    assert DayOf(3 * DayMs) == 3;
    SinceMondayMod(3);
    assert YearStart(1970) == 0 && YearStart(1971) == 365;
    YearOfUnique(0, 1970);
    RoundOfInteger(0);
  }

  /** Monday 1971-01-11 falls in week 2 of 1971. */
  lemma SecondMondayExample()
    ensures IsoWeekNumber(375 * DayMs) == 2
  {
    assert DayOf(375 * DayMs) == 375;
    SinceMondayMod(375);
    SinceMondayMod(368);
    assert YearStart(1971) == 365 && YearStart(1972) == 730;
    YearOfUnique(378, 1971);
    RoundOfInteger(1);
  }

  /**
   * The week number ignores the year: Monday 1970-01-05 and Monday 1971-01-11, which lie 53 weeks
   * apart across the 53-week ISO year 1970, both have week number 2.
   */
  lemma WeekIgnoresYear()
    ensures IsoWeekNumber(4 * DayMs) == IsoWeekNumber(375 * DayMs) == 2
  {
    FirstMondayExample();
    SecondMondayExample();
  }
}
