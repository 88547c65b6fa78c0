/**
 * The month template of planned sessions: every Sunday, Tuesday, Thursday and Saturday of the
 * current month gets a session whose kind follows the weekday and the day of the month.
 */
module PlannedSessions {
  import opened Common
  import opened PlanTypes
  import IsoWeek

  // ----- Calendar months -----

  /** `new Date(year, month + 1, 0).getDate()`: the length of month `m` (0 for January). */
  function DaysInMonth(y: int, m: int): (n: int)
    requires 0 <= m < 12
    ensures 28 <= n <= 31
    ensures m == 1 ==> (n == 29 <==> IsoWeek.IsLeap(y))
  {
    if m == 1 then (if IsoWeek.IsLeap(y) then 29 else 28)
    else if m == 3 || m == 5 || m == 8 || m == 10 then 30
    else 31
  }

  /** Days of year `y` before month `m`. */
  function DaysBeforeMonth(y: int, m: int): (n: int)
    requires 0 <= m <= 12
    ensures n >= 0
  {
    if m == 0 then 0 else DaysBeforeMonth(y, m - 1) + DaysInMonth(y, m - 1)
  }

  /** The day (counted from 1970-01-01) of the first of month `m` of year `y`. */
  function MonthStart(y: int, m: int): int
    requires 0 <= m < 12
  {
    IsoWeek.YearStart(y) + DaysBeforeMonth(y, m)
  }

  /** The twelve months tile the year exactly. */
  lemma MonthsFillYear(y: int)
    ensures IsoWeek.YearStart(y) + DaysBeforeMonth(y, 12) == IsoWeek.YearStart(y + 1)
  {
    var leap := if IsoWeek.IsLeap(y) then 1 else 0;
    assert DaysBeforeMonth(y, 1) == 31;
    assert DaysBeforeMonth(y, 2) == 59 + leap;
    assert DaysBeforeMonth(y, 3) == 90 + leap;
    assert DaysBeforeMonth(y, 4) == 120 + leap;
    assert DaysBeforeMonth(y, 5) == 151 + leap;
    assert DaysBeforeMonth(y, 6) == 181 + leap;
    assert DaysBeforeMonth(y, 7) == 212 + leap;
    assert DaysBeforeMonth(y, 8) == 243 + leap;
    assert DaysBeforeMonth(y, 9) == 273 + leap;
    assert DaysBeforeMonth(y, 10) == 304 + leap;
    assert DaysBeforeMonth(y, 11) == 334 + leap;
    assert DaysBeforeMonth(y, 12) == 365 + leap;
    IsoWeek.YearLength(y);
  }

  /** A calendar month: its year, its index (0 for January), its first day and its length. */
  datatype Month = Month(year: int, index: nat, first: int, length: nat)

  /** The month `m` of year `y`, as `new Date(y, m, 1)` and `new Date(y, m + 1, 0)` give it. */
  function CalendarMonth(y: int, m: nat): (r: Month)
    requires m < 12
    ensures r.year == y && r.index == m && r.first == MonthStart(y, m) && r.length == DaysInMonth(y, m)
    ensures r.first + r.length == (if m == 11 then IsoWeek.YearStart(y + 1) else MonthStart(y, m + 1))
  {
    MonthsFillYear(y);
    Month(y, m, MonthStart(y, m), DaysInMonth(y, m))
  }

  // ----- Identifiers -----

  function Digit(d: int): (c: char)
    requires 0 <= d < 10
    ensures '0' <= c <= '9'
  {
    "0123456789"[d]
  }

  /** A natural number in decimal, without leading zeros: template literals' `${n}`. */
  function NatToString(n: nat): (s: string)
    ensures 1 <= |s|
    ensures |s| == 1 <==> n < 10
    ensures forall i :: 0 <= i < |s| ==> '0' <= s[i] <= '9'
  {
    if n < 10 then [Digit(n)] else NatToString(n / 10) + [Digit(n % 10)]
  }

  /** An integer in decimal with a leading `-` when negative. */
  function IntToString(n: int): (s: string)
    ensures 1 <= |s|
  {
    if n < 0 then "-" + NatToString(-n) else NatToString(n)
  }

  lemma DigitInjective(a: int, b: int)
    requires 0 <= a < 10 && 0 <= b < 10 && Digit(a) == Digit(b)
    ensures a == b
  {
  }

  /** Different numbers are written differently. */
  lemma {:induction false} NatToStringInjective(a: nat, b: nat)
    requires NatToString(a) == NatToString(b)
    ensures a == b
  {
    var s := NatToString(a);
    if a < 10 {
      DigitInjective(a, b);
    } else {
      var n := |s| - 1;
      assert s[..n] == NatToString(a / 10) && s[..n] == NatToString(b / 10);
      DigitInjective(a % 10, b % 10);
      NatToStringInjective(a / 10, b / 10);
    }
  }

  /** `planned-${year}-${month}-${day}`, with the month counted from 0. */
  function PlannedId(y: int, m: nat, day: nat): string {
    "planned-" + IntToString(y) + "-" + NatToString(m) + "-" + NatToString(day)
  }

  /** Two days of the same month never share an identifier. */
  lemma PlannedIdsDistinct(y: int, m: nat, d1: nat, d2: nat)
    requires d1 != d2
    ensures PlannedId(y, m, d1) != PlannedId(y, m, d2)
  {
    var prefix := "planned-" + IntToString(y) + "-" + NatToString(m) + "-";
    assert PlannedId(y, m, d1) == prefix + NatToString(d1);
    assert PlannedId(y, m, d2) == prefix + NatToString(d2);
    if PlannedId(y, m, d1) == PlannedId(y, m, d2) {
      assert (prefix + NatToString(d1))[|prefix|..] == NatToString(d1);
      assert (prefix + NatToString(d2))[|prefix|..] == NatToString(d2);
      NatToStringInjective(d1, d2);
    }
  }

  // ----- The template -----

  const Descriptions: map<SessionKind, string> := map[
    Endurance := "Long steady ride in Zone 1-2",
    Tempo := "Tempo intervals - 3x10min at Zone 3",
    Threshold := "Threshold work - 2x20min at Zone 4",
    Vo2max := "VO\U{2082}max intervals - 5x3min at Zone 5",
    Recovery := "Easy recovery spin - Zone 1"]

  /** Sunday, Tuesday, Thursday and Saturday are training days. */
  predicate TrainingDay(weekday: int) {
    weekday == 0 || weekday == 2 || weekday == 4 || weekday == 6
  }

  /** The kind of the session on a training day, from the weekday and the day of the month. */
  function TemplateKind(weekday: int, day: int): (k: SessionKind)
    ensures k in Descriptions
    ensures weekday == 0 ==> k == Endurance
    ensures weekday == 2 ==> (k == Vo2max <==> day % 14 < 7) && (k == Vo2max || k == Threshold)
    ensures weekday == 4 ==> (k == Tempo <==> day % 10 < 5) && (k == Tempo || k == Recovery)
    ensures weekday == 6 ==> (k == Endurance <==> day % 8 < 4) && (k == Endurance || k == Tempo)
  {
    if weekday == 0 then Endurance
    else if weekday == 2 then (if day % 14 < 7 then Vo2max else Threshold)
    else if weekday == 4 then (if day % 10 < 5 then Tempo else Recovery)
    else (if day % 8 < 4 then Endurance else Tempo)
  }

  /** The session planned on day `day` of month `m`, at midnight UTC of that day. */
  function TemplateSession(m: Month, day: nat): (s: Session)
  {
    var date := m.first + day - 1;
    var weekday := IsoWeek.WeekDay(date);
    var kind := TemplateKind(weekday, day);
    var duration :=
      if weekday == 0 then 120
      else if weekday == 2 then 60
      else if weekday == 4 then (if kind == Tempo then 75 else 45)
      else 90;
    var intensity :=
      if weekday == 0 then 3
      else if weekday == 2 then (if kind == Vo2max then 9 else 7)
      else if weekday == 4 then (if kind == Tempo then 5 else 2)
      else (if kind == Endurance then 3 else 5);
    Session(PlannedId(m.year, m.index, day), date * DayMs, kind, duration, intensity, Descriptions[kind], false, None)
  }

  /** Each kind comes with one duration, intensity and description, whatever the weekday. */
  lemma TemplateTable(m: Month, day: nat)
    ensures var s := TemplateSession(m, day);
      s.description == Descriptions[s.kind] && !s.completed &&
      (s.kind == Vo2max ==> s.duration == 60 && s.intensity == 9) &&
      (s.kind == Threshold ==> s.duration == 60 && s.intensity == 7) &&
      (s.kind == Recovery ==> s.duration == 45 && s.intensity == 2) &&
      (s.kind == Tempo ==> s.intensity == 5 && (s.duration == 75 || s.duration == 90)) &&
      (s.kind == Endurance ==> s.intensity == 3 && (s.duration == 120 || s.duration == 90)) &&
      s.kind != Rest
  {
  }

  /**
   * The weekday fixes the session: Sunday a two-hour endurance ride; Tuesday one hour of vo2max or
   * threshold by fortnight; Thursday tempo (75 min) or recovery (45 min); Saturday 90 minutes of
   * endurance or tempo.
   */
  lemma TemplateByWeekday(m: Month, day: nat)
    ensures var s := TemplateSession(m, day);
      var weekday := IsoWeek.WeekDay(m.first + day - 1);
      (weekday == 0 ==> s.kind == Endurance && s.duration == 120 && s.intensity == 3) &&
      (weekday == 2 ==> (
        && s.duration == 60
        && (day % 14 < 7 ==> s.kind == Vo2max && s.intensity == 9)
        && (day % 14 >= 7 ==> s.kind == Threshold && s.intensity == 7))) &&
      (weekday == 4 ==> (
        && (day % 10 < 5 ==> s.kind == Tempo && s.duration == 75 && s.intensity == 5)
        && (day % 10 >= 5 ==> s.kind == Recovery && s.duration == 45 && s.intensity == 2))) &&
      (weekday == 6 ==> (
        && s.duration == 90
        && (day % 8 < 4 ==> s.kind == Endurance && s.intensity == 3)
        && (day % 8 >= 4 ==> s.kind == Tempo && s.intensity == 5)))
  {
  }

  /** Whether day `day` of month `m` is a training day. */
  predicate Planned(m: Month, day: int) {
    TrainingDay(IsoWeek.WeekDay(m.first + day - 1))
  }

  /** The sessions of days 1 up to `upTo` of the month, in day order. */
  function MonthSessions(m: Month, upTo: nat): (r: seq<Session>)
    ensures |r| <= upTo
  {
    if upTo == 0 then []
    else MonthSessions(m, upTo - 1) + (if Planned(m, upTo) then [TemplateSession(m, upTo)] else [])
  }

  /**
   * A day of the month has a session exactly when it is a training day, and every session is the
   * template's session of such a day.
   */
  lemma {:induction false} MonthSessionsExact(m: Month, upTo: nat)
    ensures forall day :: 1 <= day <= upTo && Planned(m, day) ==> TemplateSession(m, day) in MonthSessions(m, upTo)
    ensures forall s :: s in MonthSessions(m, upTo) ==>
      exists day :: 1 <= day <= upTo && Planned(m, day) && s == TemplateSession(m, day)
  {
    if upTo > 0 {
      MonthSessionsExact(m, upTo - 1);
    }
  }

  /** The session of a day is dated at that day's midnight and carries that day's identifier. */
  lemma TemplateDate(m: Month, day: nat)
    ensures TemplateSession(m, day).date == (m.first + day - 1) * DayMs
    ensures TemplateSession(m, day).id == PlannedId(m.year, m.index, day)
  {
  }

  /** Every session of the first `upTo` days precedes, and differs in id from, the session of any later day. */
  lemma {:induction false} EarlierDaysFirst(m: Month, upTo: nat, later: nat)
    requires upTo < later
    ensures forall s :: s in MonthSessions(m, upTo) ==>
      m.first * DayMs <= s.date < TemplateSession(m, later).date && s.id != TemplateSession(m, later).id
  {
    MonthSessionsExact(m, upTo);
    TemplateDate(m, later);
    forall s | s in MonthSessions(m, upTo)
      ensures m.first * DayMs <= s.date < TemplateSession(m, later).date && s.id != TemplateSession(m, later).id
    {
      var day :| 1 <= day <= upTo && Planned(m, day) && s == TemplateSession(m, day);
      TemplateDate(m, day);
      PlannedIdsDistinct(m.year, m.index, day, later);
      ScaleDays(m.first + day - 1, m.first + later - 1);
      ScaleDays(m.first, m.first + day - 1);
    }
  }

  /** Strictly increasing dates and pairwise different ids. */
  predicate Chronological(r: seq<Session>) {
    forall i, j :: 0 <= i < j < |r| ==> r[i].date < r[j].date && r[i].id != r[j].id
  }

  /** Sessions are in strictly increasing date order, so no two share a date; ids never repeat. */
  lemma {:induction false} MonthSessionsOrdered(m: Month, upTo: nat)
    ensures Chronological(MonthSessions(m, upTo))
  {
    if upTo > 0 {
      MonthSessionsOrdered(m, upTo - 1);
      var before := MonthSessions(m, upTo - 1);
      if Planned(m, upTo) {
        var last := TemplateSession(m, upTo);
        EarlierDaysFirst(m, upTo - 1, upTo);
        AppendOrdered(before, last);
      }
    }
  }

  /** Appending a session later than, and with an id other than, every session keeps the order. */
  lemma AppendOrdered(before: seq<Session>, last: Session)
    requires Chronological(before)
    requires forall s :: s in before ==> s.date < last.date && s.id != last.id
    ensures Chronological(before + [last])
  {
    var r := before + [last];
    forall i, j | 0 <= i < j < |r|
      ensures r[i].date < r[j].date && r[i].id != r[j].id
    {
      if j == |before| {
        assert r[i] in before;
      } else {
        assert r[i] == before[i] && r[j] == before[j];
      }
    }
  }

  /** All sessions of a month fall within it. */
  lemma WithinMonth(m: Month)
    ensures forall s :: s in MonthSessions(m, m.length) ==> m.first * DayMs <= s.date < (m.first + m.length) * DayMs
  {
    EarlierDaysFirst(m, m.length, m.length + 1);
    TemplateDate(m, m.length + 1);
  }

  /** Later days have later midnights. */
  lemma ScaleDays(a: int, b: int)
    requires a <= b
    ensures a * DayMs <= b * DayMs
    ensures a < b ==> a * DayMs < b * DayMs
  {
  }

  /** Every session of the month falls on a Sunday, Tuesday, Thursday or Saturday. */
  lemma OnlyTrainingDays(m: Month, upTo: nat)
    ensures forall s :: s in MonthSessions(m, upTo) ==> TrainingDay(IsoWeek.WeekDay(s.date / DayMs))
  {
    MonthSessionsExact(m, upTo);
    forall s | s in MonthSessions(m, upTo)
      ensures TrainingDay(IsoWeek.WeekDay(s.date / DayMs))
    {
      var day :| 1 <= day <= upTo && Planned(m, day) && s == TemplateSession(m, day);
      TemplateOnTrainingDay(m, day);
    }
  }

  /** The session of a planned day is dated on that day, a training day. */
  lemma TemplateOnTrainingDay(m: Month, day: nat)
    requires Planned(m, day)
    ensures TrainingDay(IsoWeek.WeekDay(TemplateSession(m, day).date / DayMs))
  {
    TemplateDate(m, day);
    MidnightDay(m.first + day - 1);
  }

  /** The day of a midnight is the day it was made from. */
  lemma MidnightDay(d: int)
    ensures (d * DayMs) / DayMs == d
  {
  }

  /**
   * The memoised template for the month of `today`, given as its year and month (0 for January):
   * one pass over the days of the month.
   */
  method PlannedSessionsOfMonth(currentYear: int, currentMonth: nat) returns (sessions: seq<Session>)
    requires currentMonth < 12
    ensures var m := CalendarMonth(currentYear, currentMonth);
      sessions == MonthSessions(m, m.length)
  {
    var month := CalendarMonth(currentYear, currentMonth);
    sessions := SessionsOfDays(month);
  }

  /** The loop over days 1 to the month's length, adding the template's session on each training day. */
  method SessionsOfDays(month: Month) returns (sessions: seq<Session>)
    ensures sessions == MonthSessions(month, month.length)
  {
    sessions := [];
    for day := 1 to month.length + 1
      invariant sessions == MonthSessions(month, day - 1)
    {
      var dayOfWeek := IsoWeek.WeekDay(month.first + day - 1);
      assert Planned(month, day) == TrainingDay(dayOfWeek);
      if TrainingDay(dayOfWeek) {
        var session := SessionOfDay(month, day);
        sessions := sessions + [session];
      }
    }
  }

  /** The body of the loop for one training day: the weekday picks the type, duration and intensity. */
  method SessionOfDay(month: Month, day: nat) returns (session: Session)
    ensures session == TemplateSession(month, day)
  {
    var date := month.first + day - 1;
    var dayOfWeek := IsoWeek.WeekDay(date);
    var sessionType: SessionKind;
    var duration: int;
    var intensity: int;
    if dayOfWeek == 0 {
      sessionType, duration, intensity := Endurance, 120, 3;
    } else if dayOfWeek == 2 {
      sessionType := if day % 14 < 7 then Vo2max else Threshold;
      duration := 60;
      intensity := if sessionType == Vo2max then 9 else 7;
    } else if dayOfWeek == 4 {
      sessionType := if day % 10 < 5 then Tempo else Recovery;
      duration := if sessionType == Tempo then 75 else 45;
      intensity := if sessionType == Tempo then 5 else 2;
    } else {
      sessionType := if day % 8 < 4 then Endurance else Tempo;
      duration := 90;
      intensity := if sessionType == Endurance then 3 else 5;
    }
    session := Session(
      PlannedId(month.year, month.index, day), date * DayMs, sessionType, duration, intensity,
      Descriptions[sessionType], false, None);
  }
}
