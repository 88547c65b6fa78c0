/**
 * Pattern analysis over a list of activity insights: recent load and its trend, recovery need,
 * consistency, zone focus and the days since the last rest day. The list is sorted in place,
 * newest first, before it is read.
 */
module TrainingPatterns {
  import opened Common
  import opened TrainingZones
  import opened ActivityInsights

  datatype LoadTrend = Increasing | Stable | Decreasing

  datatype ZoneFocus = Endurance | Tempo | Threshold | Vo2max | Mixed

  /** `consistencyScore` is None where the source computes `Math.round(0 / 0 * 100)`, which is NaN. */
  datatype TrainingPattern = TrainingPattern(
    recentLoad: real,
    loadTrend: LoadTrend,
    recoveryNeeded: bool,
    consistencyScore: Option<int>,
    zoneFocus: ZoneFocus,
    lastRestDay: int)

  // ----- Sorting by date -----

  /** `x` may stand before `y`: newest first compares dates downwards, otherwise upwards. */
  predicate InOrder(x: ActivityInsight, y: ActivityInsight, newestFirst: bool) {
    if newestFirst then x.date >= y.date else x.date <= y.date
  }

  predicate SortedByDate(s: seq<ActivityInsight>, newestFirst: bool) {
    forall i, j :: 0 <= i < j < |s| ==> InOrder(s[i], s[j], newestFirst)
  }

  /** Inserts `x` before the first element it may precede; ties keep `x` in front. */
  function InsertByDate(x: ActivityInsight, s: seq<ActivityInsight>, newestFirst: bool): (r: seq<ActivityInsight>)
    requires SortedByDate(s, newestFirst)
    ensures |r| == |s| + 1 && multiset(r) == multiset(s) + multiset{x}
    ensures SortedByDate(r, newestFirst)
  {
    if |s| == 0 || InOrder(x, s[0], newestFirst) then [x] + s
    else
      var rest := InsertByDate(x, s[1..], newestFirst);
      assert forall j :: 0 <= j < |rest| ==> InOrder(s[0], rest[j], newestFirst) by {
        forall j | 0 <= j < |rest|
          ensures InOrder(s[0], rest[j], newestFirst)
        {
          assert rest[j] in multiset(rest);
          if rest[j] != x {
            assert rest[j] in multiset(s[1..]);
            var k :| 0 <= k < |s[1..]| && s[1..][k] == rest[j];
            assert s[k + 1] == rest[j];
          }
        }
      }
      assert s == [s[0]] + s[1..];
      [s[0]] + rest
  }

  /** `Array.prototype.sort` with a date comparator, as a stable insertion sort. */
  function SortByDate(s: seq<ActivityInsight>, newestFirst: bool): (r: seq<ActivityInsight>)
    ensures |r| == |s| && multiset(r) == multiset(s)
    ensures SortedByDate(r, newestFirst)
  {
    if |s| == 0 then []
    else
      assert s == [s[0]] + s[1..];
      InsertByDate(s[0], SortByDate(s[1..], newestFirst), newestFirst)
  }

  /** After a newest-first sort, the first insight carries the latest date of the list. */
  lemma NewestComesFirst(s: seq<ActivityInsight>)
    requires |s| > 0
    ensures SortByDate(s, true)[0] in s
    ensures forall x :: x in s ==> x.date <= SortByDate(s, true)[0].date
  {
    var r := SortByDate(s, true);
    assert r[0] in r;
    assert r[0] in multiset(s);
    forall x | x in s
      ensures x.date <= r[0].date
    {
      assert x in multiset(r);
      var k :| 0 <= k < |r| && r[k] == x;
      if k > 0 {
        assert InOrder(r[0], r[k], true);
      }
    }
  }

  /** Sorts the array in place, leaving it equal to the sorted list. */
  method SortInPlace(a: array<ActivityInsight>, newestFirst: bool)
    modifies a
    ensures a[..] == SortByDate(old(a[..]), newestFirst)
  {
    var sorted := SortByDate(a[..], newestFirst);
    forall i | 0 <= i < a.Length {
      a[i] := sorted[i];
    }
  }

  // ----- Load windows -----

  /** The insights dated at or after `from` and, when `until` is given, strictly before it; order kept. */
  function DatedBetween(s: seq<ActivityInsight>, from: int, until: Option<int>): (r: seq<ActivityInsight>)
    ensures |r| <= |s|
    ensures forall x :: x in r <==> x in s && from <= x.date && (until.None? || x.date < until.value)
  {
    if |s| == 0 then []
    else
      (if from <= s[0].date && (until.None? || s[0].date < until.value) then [s[0]] else [])
      + DatedBetween(s[1..], from, until)
  }

  /** The last seven days up to `now`. */
  function LastWeek(s: seq<ActivityInsight>, now: int): seq<ActivityInsight> {
    DatedBetween(s, now - 7 * DayMs, None)
  }

  /** The seven days before those. */
  function WeekBefore(s: seq<ActivityInsight>, now: int): seq<ActivityInsight> {
    DatedBetween(s, now - 14 * DayMs, Some(now - 7 * DayMs))
  }

  function TotalLoad(s: seq<ActivityInsight>): int {
    if |s| == 0 then 0 else s[0].trainingLoad + TotalLoad(s[1..])
  }

  predicate IsHard(x: ActivityInsight) {
    x.intensity == Hard || x.intensity == VeryHard
  }

  function HardCount(s: seq<ActivityInsight>): nat {
    if |s| == 0 then 0 else (if IsHard(s[0]) then 1 else 0) + HardCount(s[1..])
  }

  /** Average daily load over a window: the load sum over seven days, however many rides there were. */
  function DailyLoad(s: seq<ActivityInsight>): real {
    TotalLoad(s) as real / 7.0
  }

  /** Trend from the 15% band around the previous week's load. */
  function Trend(recentLoad: real, prevLoad: real): (t: LoadTrend)
    ensures prevLoad == 0.0 ==> (t == Increasing <==> recentLoad > 0.0)
    ensures prevLoad == 0.0 && recentLoad == 0.0 ==> t == Stable
    ensures prevLoad >= 0.0 && t == Increasing ==> recentLoad > prevLoad
    ensures prevLoad >= 0.0 && t == Decreasing ==> recentLoad < prevLoad
  {
    if recentLoad > prevLoad * 1.15 then Increasing
    else if recentLoad < prevLoad * 0.85 then Decreasing
    else Stable
  }

  /** Dividing both weeks by the same positive number leaves the trend unchanged. */
  lemma TrendScaleInvariant(recent: real, prev: real, c: real)
    requires c > 0.0
    ensures Trend(recent / c, prev / c) == Trend(recent, prev)
  {
    assert recent / c > prev / c * 1.15 <==> recent > prev * 1.15;
    assert recent / c < prev / c * 0.85 <==> recent < prev * 0.85;
  }

  /** `Math.round(actual / min(actual, 14) * 100)`; an empty history gives NaN, modelled as None. */
  function ConsistencyScore(actualDays: nat): (r: Option<int>)
    ensures r.None? <==> actualDays == 0
    ensures 1 <= actualDays <= 14 ==> r == Some(100)
    ensures actualDays > 14 ==> r.Some? && r.value > 100
  {
    var expectedDays := Min(actualDays, 14);
    if expectedDays == 0 then None
    else
      var x := actualDays as real / expectedDays as real * 100.0;
      ScoreRatio(actualDays, expectedDays);
      RoundOfInteger(100);
      Some(Round(x))
  }

  lemma ScoreRatio(actualDays: nat, expectedDays: nat)
    requires expectedDays == Min(actualDays, 14) && expectedDays > 0
    ensures actualDays <= 14 ==> actualDays as real / expectedDays as real * 100.0 == 100.0
    ensures actualDays > 14 ==> actualDays as real / expectedDays as real * 100.0 >= 107.0
  {
    if actualDays > 14 {
      assert expectedDays == 14;
      assert actualDays as real / 14.0 * 100.0 >= 15.0 / 14.0 * 100.0;
    } else {
      assert expectedDays == actualDays;
    }
  }

  /** The score never falls below 100: a score under 50 is impossible. */
  lemma ConsistencyAtLeastHundred(actualDays: nat)
    ensures ConsistencyScore(actualDays).Some? ==> ConsistencyScore(actualDays).value >= 100
  {
  }

  // ----- Zone focus -----

  /** Seconds per zone summed over many activities. */
  datatype ZoneTotals = ZoneTotals(z1: nat, z2: nat, z3: nat, z4: nat, z5: nat, z6: nat, z7: nat)

  function AddZones(t: ZoneTotals, z: ZoneDistribution): ZoneTotals {
    ZoneTotals(t.z1 + z.z1, t.z2 + z.z2, t.z3 + z.z3, t.z4 + z.z4, t.z5 + z.z5,
      t.z6 + OrZero(z.z6), t.z7 + OrZero(z.z7))
  }

  /** Zone times of every insight that has a distribution. */
  function SumZoneTimes(s: seq<ActivityInsight>): ZoneTotals {
    if |s| == 0 then ZoneTotals(0, 0, 0, 0, 0, 0, 0)
    else
      var rest := SumZoneTimes(s[1..]);
      if s[0].zones.Some? then AddZones(rest, s[0].zones.value) else rest
  }

  function TotalTime(t: ZoneTotals): nat {
    t.z1 + t.z2 + t.z3 + t.z4 + t.z5 + t.z6 + t.z7
  }

  /** The first share over its bound decides: z1+z2 > 80%, z3 > 30%, z4 > 20%, z5..z7 > 10%. */
  function FocusOf(t: ZoneTotals): (f: ZoneFocus)
    ensures TotalTime(t) == 0 ==> f == Mixed
  {
    var total := TotalTime(t);
    if total == 0 then Mixed
    else
      var t12 := (t.z1 + t.z2) as real / total as real;
      var t3 := t.z3 as real / total as real;
      var t4 := t.z4 as real / total as real;
      var t567 := (t.z5 + t.z6 + t.z7) as real / total as real;
      if t12 > 0.8 then Endurance
      else if t3 > 0.3 then Tempo
      else if t4 > 0.2 then Threshold
      else if t567 > 0.1 then Vo2max
      else Mixed
  }

  /**
   * The thresholds are tried in order, each one only when every earlier one failed: more than 80% in
   * zones 1-2 is endurance, else more than 30% in zone 3 tempo, else more than 20% in zone 4
   * threshold, else more than 10% in zones 5-7 vo2max, and mixed otherwise.
   */
  lemma FocusLadder(t: ZoneTotals)
    requires TotalTime(t) > 0
    ensures var n := TotalTime(t);
      && (FocusOf(t) == Endurance <==> 5 * (t.z1 + t.z2) > 4 * n)
      && (FocusOf(t) == Tempo <==> 5 * (t.z1 + t.z2) <= 4 * n && 10 * t.z3 > 3 * n)
      && (FocusOf(t) == Threshold <==> 5 * (t.z1 + t.z2) <= 4 * n && 10 * t.z3 <= 3 * n && 5 * t.z4 > n)
      && (FocusOf(t) == Vo2max <==>
        5 * (t.z1 + t.z2) <= 4 * n && 10 * t.z3 <= 3 * n && 5 * t.z4 <= n && 10 * (t.z5 + t.z6 + t.z7) > n)
      && (FocusOf(t) == Mixed <==>
        5 * (t.z1 + t.z2) <= 4 * n && 10 * t.z3 <= 3 * n && 5 * t.z4 <= n && 10 * (t.z5 + t.z6 + t.z7) <= n)
  {
    var total := TotalTime(t) as real;
    DivAbove((t.z1 + t.z2) as real, total, 0.8);
    DivAbove(t.z3 as real, total, 0.3);
    DivAbove(t.z4 as real, total, 0.2);
    DivAbove((t.z5 + t.z6 + t.z7) as real, total, 0.1);
  }

  /** All zone time in zones 1 and 2 is an endurance focus; all of it in zone 4 a threshold focus. */
  lemma FocusExamples(t: ZoneTotals)
    requires TotalTime(t) > 0
    ensures t.z3 == t.z4 == t.z5 == t.z6 == t.z7 == 0 ==> FocusOf(t) == Endurance
    ensures t.z1 == t.z2 == t.z3 == t.z5 == t.z6 == t.z7 == 0 ==> FocusOf(t) == Threshold
  {
    var total := TotalTime(t) as real;
    if t.z3 == t.z4 == t.z5 == t.z6 == t.z7 == 0 {
      assert (t.z1 + t.z2) as real == total;
      DivSelf(total);
    }
    if t.z1 == t.z2 == t.z3 == t.z5 == t.z6 == t.z7 == 0 {
      assert t.z4 as real == total;
      DivSelf(total);
    }
  }

  // ----- Last rest day -----

  /**
   * The rest-day loop from index `i` on, with both of its exits: at index 0 it returns the days since
   * that insight plus one, later it stops at the first gap of more than one day.
   */
  function RestScan(sorted: seq<ActivityInsight>, now: int, i: nat): int
    requires i <= |sorted|
    decreases |sorted| - i
  {
    if i == |sorted| then 0
    else if i == 0 then DaysBetween(sorted[i].date, now) + 1
    else
      var gapDays := DaysBetween(sorted[i].date, sorted[i - 1].date);
      if gapDays > 1 then DaysBetween(sorted[i - 1].date, now) - gapDays + 1
      else RestScan(sorted, now, i + 1)
  }

  /**
   * The loop always leaves at index 0: no gap is ever examined, and the result is the days since
   * the newest insight plus one (0 for an empty history).
   */
  lemma LastRestDayIgnoresGaps(sorted: seq<ActivityInsight>, now: int)
    ensures |sorted| == 0 ==> RestScan(sorted, now, 0) == 0
    ensures |sorted| > 0 ==> RestScan(sorted, now, 0) == DaysBetween(sorted[0].date, now) + 1
  {
  }

  // ----- The whole pattern -----

  /** The pattern of a newest-first list at time `now`. */
  function PatternOf(sorted: seq<ActivityInsight>, now: int): (p: TrainingPattern)
    ensures p.recentLoad == DailyLoad(LastWeek(sorted, now))
    ensures p.recoveryNeeded <==> HardCount(LastWeek(sorted, now)) >= 3 || p.recentLoad > 50.0
    ensures p.consistencyScore.None? <==> |sorted| == 0
    ensures p.consistencyScore.Some? ==> p.consistencyScore.value >= 100
  {
    var last7 := LastWeek(sorted, now);
    var recentLoad := DailyLoad(last7);
    var prevLoad := DailyLoad(WeekBefore(sorted, now));
    TrainingPattern(
      recentLoad,
      Trend(recentLoad, prevLoad),
      HardCount(last7) >= 3 || recentLoad > 50.0,
      ConsistencyScore(|sorted|),
      FocusOf(SumZoneTimes(sorted)),
      RestScan(sorted, now, 0))
  }

  lemma EmptyHistoryLoad(s: seq<ActivityInsight>, now: int)
    requires |s| == 0
    ensures PatternOf(s, now).recentLoad == 0.0 && PatternOf(s, now).loadTrend == Stable
  {
  }

  /** An empty history: no load, a stable trend, no recovery, no score, mixed focus, rest day 0. */
  lemma EmptyHistoryPattern(s: seq<ActivityInsight>, now: int)
    requires |s| == 0
    ensures PatternOf(s, now).recentLoad == 0.0 && PatternOf(s, now).loadTrend == Stable
    ensures !PatternOf(s, now).recoveryNeeded && PatternOf(s, now).consistencyScore == None
    ensures PatternOf(s, now).zoneFocus == Mixed && PatternOf(s, now).lastRestDay == 0
  {
    EmptyHistoryLoad(s, now);
  }

  /** Insights at positions `idx` (increasing) that are hard and within the last week. */
  predicate HardInLastWeek(s: seq<ActivityInsight>, now: int, idx: seq<nat>) {
    && (forall n :: 0 <= n < |idx| ==> idx[n] < |s| && IsHard(s[idx[n]]) && now - 7 * DayMs <= s[idx[n]].date)
    && (forall n, m :: 0 <= n < m < |idx| ==> idx[n] < idx[m])
  }

  /** Positions one to the left, for the same insights in the tail of the list. */
  function Shift(idx: seq<nat>): (r: seq<nat>)
    ensures |r| == |idx|
    ensures forall n :: 0 <= n < |idx| && idx[n] > 0 ==> r[n] == idx[n] - 1
  {
    seq(|idx|, n requires 0 <= n < |idx| => if idx[n] == 0 then 0 else idx[n] - 1)
  }

  /** When the first chosen position is the head, the other positions pick hard rides of the tail. */
  lemma HeadChosen(s: seq<ActivityInsight>, now: int, idx: seq<nat>)
    requires |idx| > 0 && idx[0] == 0 && HardInLastWeek(s, now, idx)
    ensures HardInLastWeek(s[1..], now, Shift(idx)[1..])
  {
    var tail := Shift(idx)[1..];
    forall n | 0 <= n < |tail|
      ensures tail[n] < |s[1..]| && IsHard(s[1..][tail[n]]) && now - 7 * DayMs <= s[1..][tail[n]].date
    {
      assert idx[0] < idx[n + 1];
    }
    forall n, m | 0 <= n < m < |tail|
      ensures tail[n] < tail[m]
    {
      assert idx[0] < idx[n + 1] < idx[m + 1];
    }
  }

  /** When the head is not chosen, every chosen position picks a hard ride of the tail. */
  lemma HeadSkipped(s: seq<ActivityInsight>, now: int, idx: seq<nat>)
    requires |idx| > 0 && idx[0] > 0 && HardInLastWeek(s, now, idx)
    ensures HardInLastWeek(s[1..], now, Shift(idx))
  {
    var shifted := Shift(idx);
    forall n | 0 <= n < |shifted|
      ensures shifted[n] < |s[1..]| && IsHard(s[1..][shifted[n]]) && now - 7 * DayMs <= s[1..][shifted[n]].date
    {
      if n > 0 {
        assert idx[0] < idx[n];
      }
    }
    forall n, m | 0 <= n < m < |shifted|
      ensures shifted[n] < shifted[m]
    {
      assert idx[0] <= idx[n] < idx[m];
    }
  }

  /** Distinct hard rides of the last week each add one to the hard count. */
  lemma {:induction false} HardCountAtLeast(s: seq<ActivityInsight>, now: int, idx: seq<nat>)
    requires HardInLastWeek(s, now, idx)
    ensures HardCount(LastWeek(s, now)) >= |idx|
    decreases |s|
  {
    if |idx| > 0 {
      assert idx[0] < |s|;
      var head := if now - 7 * DayMs <= s[0].date then [s[0]] else [];
      assert LastWeek(s, now) == head + LastWeek(s[1..], now);
      HardCountAppend(head, LastWeek(s[1..], now));
      if idx[0] == 0 {
        HeadChosen(s, now, idx);
        HardCountAtLeast(s[1..], now, Shift(idx)[1..]);
      } else {
        HeadSkipped(s, now, idx);
        HardCountAtLeast(s[1..], now, Shift(idx));
      }
    }
  }

  lemma {:induction false} HardCountAppend(a: seq<ActivityInsight>, b: seq<ActivityInsight>)
    ensures HardCount(a + b) == HardCount(a) + HardCount(b)
  {
    if |a| > 0 {
      assert (a + b)[0] == a[0];
      assert (a + b)[1..] == a[1..] + b;
      HardCountAppend(a[1..], b);
    } else {
      assert a + b == b;
    }
  }

  /** Three hard rides within the last week always call for recovery, whatever their loads. */
  lemma ThreeHardRidesNeedRecovery(s: seq<ActivityInsight>, now: int, i: nat, j: nat, k: nat)
    requires i < j < k < |s|
    requires IsHard(s[i]) && IsHard(s[j]) && IsHard(s[k])
    requires now - 7 * DayMs <= s[i].date && now - 7 * DayMs <= s[j].date && now - 7 * DayMs <= s[k].date
    ensures PatternOf(s, now).recoveryNeeded
  {
    HardCountAtLeast(s, now, [i, j, k]);
  }

  /** Rides that are not hard add up to recovery only once their average daily load passes 50. */
  lemma OneRideDividesBySeven(s: seq<ActivityInsight>, now: int)
    requires |s| == 1 && s[0].date == now && s[0].trainingLoad == 70
    ensures PatternOf(s, now).recentLoad == 10.0
  {
    assert LastWeek(s, now) == s;
    assert TotalLoad(s) == 70;
  }

  /** The source's analysis: sorts the array newest first in place, then reads the pattern off it. */
  method AnalyzePatterns(insights: array<ActivityInsight>, now: int) returns (p: TrainingPattern)
    modifies insights
    ensures insights[..] == SortByDate(old(insights[..]), true)
    ensures p == PatternOf(insights[..], now)
  {
    SortInPlace(insights, true);
    p := ReadPattern(insights[..], now);
  }

  /** The statements of the analysis after the sort, on the newest-first list. */
  method ReadPattern(sorted: seq<ActivityInsight>, now: int) returns (p: TrainingPattern)
    ensures p == PatternOf(sorted, now)
  {
    var last7 := LastWeek(sorted, now);
    var recentLoad := TotalLoad(last7) as real / 7.0;
    var prev7 := WeekBefore(sorted, now);
    var prevLoad := TotalLoad(prev7) as real / 7.0;

    var loadTrend := Stable;
    if recentLoad > prevLoad * 1.15 {
      loadTrend := Increasing;
    } else if recentLoad < prevLoad * 0.85 {
      loadTrend := Decreasing;
    }

    var recoveryNeeded := HardCount(last7) >= 3 || recentLoad > 50.0;
    var consistencyScore := ConsistencyScore(|sorted|);
    var zoneFocus := FocusOf(SumZoneTimes(sorted));

    // The rest-day loop always leaves in its first iteration (`LastRestDayIgnoresGaps`): its gap branch
    // is dead code, so only the exit at index 0 is written out.
    var lastRestDay := 0;
    if |sorted| > 0 {
      lastRestDay := DaysBetween(sorted[0].date, now) + 1;
    }
    LastRestDayIgnoresGaps(sorted, now);

    p := TrainingPattern(recentLoad, loadTrend, recoveryNeeded, consistencyScore, zoneFocus, lastRestDay);
  }
}
