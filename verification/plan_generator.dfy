/**
 * The polarized plan generator: the number of sessions per week follows the consistency of recent
 * training, sessions are spread evenly over each week, and about a fifth of them, at every fourth
 * slot, are VO2max sessions while the rest are endurance rides.
 */
module PlanGenerator {
  import opened Common
  import opened PlanTypes
  import ActivityInsights
  import Analysis = TrainingAnalysisModel

  /** The athlete's profile as the generator reads it; a missing threshold is `None`. */
  datatype User = User(id: string, ftp: Option<real>, lthr: Option<real>)

  const DefaultFtp: real := 250.0
  const DefaultLthr: real := 170.0
  const Vo2Description: string := "VO\U{2082}max intervals (e.g., 5\U{00D7}3\U{2032} Z5)"
  const EnduranceDescription: string := "Endurance ride Z1-Z2"

  /** `x ?? fallback`: the value when present, the fallback otherwise. */
  function OrDefault(x: Option<real>, fallback: real): (r: real)
    ensures x.Some? ==> r == x.value
    ensures x.None? ==> r == fallback
  {
    if x.Some? then x.value else fallback
  }

  /** Sessions per week for a consistency score; a NaN score compares false and keeps 3. */
  function SessionsPerWeekOf(score: Option<int>): (n: nat)
    ensures 3 <= n <= 5
  {
    if score.Some? && score.value >= 80 then 5
    else if score.Some? && score.value >= 60 then 4
    else 3
  }

  /** Sessions per week after the analysis; a failed analysis keeps the default of 3. */
  function SessionsPerWeek(analysis: Result<Analysis.TrainingAnalysis, string>): (n: nat)
    ensures 3 <= n <= 5
    ensures analysis.Failure? ==> n == 3
  {
    if analysis.Failure? then 3 else SessionsPerWeekOf(analysis.value.patterns.consistencyScore)
  }

  /** The sessions-per-week rule in full: 5 from a score of 80, 4 from 60, and 3 otherwise. */
  lemma SessionsPerWeekThresholds(score: Option<int>)
    ensures SessionsPerWeekOf(score) == 5 <==> score.Some? && score.value >= 80
    ensures SessionsPerWeekOf(score) == 4 <==> score.Some? && 60 <= score.value < 80
    ensures SessionsPerWeekOf(score) == 3 <==> score.None? || score.value < 60
  {
  }

  /**
   * The analysis of a successful fetch has a score of at least 100 whenever it has one, so the
   * generator plans 5 sessions a week after any recorded ride, 3 after none, and never 4.
   */
  lemma SessionsPerWeekAfterAnalysis(acts: seq<ActivityInsights.Activity>, ftp: real, lthr: real, now: int)
    ensures SessionsPerWeek(Success(Analysis.AnalysisOf(acts, ftp, lthr, now))) == (if |acts| > 0 then 5 else 3)
  {
    var a := Analysis.AnalysisOf(acts, ftp, lthr, now);
    assert |a.activities| == |acts|;
  }

  /** `Math.round(totalSessions * 0.2)`: the number of VO2max sessions. */
  function HighCount(total: nat): (h: nat)
    ensures h == (total + 2) / 5
  {
    var h := Round(total as real * 0.2);
    var q, r := total / 5, total % 5;
    assert total as real * 0.2 == q as real + r as real * 0.2;
    assert h == q + (if r >= 3 then 1 else 0);
    h
  }

  /** The offsets of week `w`: slot `s` is `w * 7 + s * floor(7 / spw)` days after the start. */
  function WeekOffsets(w: int, spw: nat): (r: seq<int>)
    requires spw > 0
    ensures |r| == spw
    ensures forall s :: 0 <= s < spw ==> r[s] == w * 7 + s * (7 / spw)
  {
    seq(spw, s requires 0 <= s < spw => w * 7 + s * (7 / spw))
  }

  /** The offsets of the first `weeks` weeks, week after week. */
  function DayIndexes(weeks: nat, spw: nat): (r: seq<int>)
    requires spw > 0
    ensures |r| == weeks * spw
  {
    if weeks == 0 then []
    else
      assert (weeks - 1) * spw + spw == weeks * spw;
      DayIndexes(weeks - 1, spw) + WeekOffsets(weeks - 1, spw)
  }

  /** With one to seven sessions a week, every offset of week `w` lies within that week. */
  lemma WeekOffsetsWithin(w: int, spw: nat)
    requires 1 <= spw <= 7
    ensures forall x :: x in WeekOffsets(w, spw) ==> 7 * w <= x <= 7 * w + 6
    ensures forall i, j :: 0 <= i < j < spw ==> WeekOffsets(w, spw)[i] < WeekOffsets(w, spw)[j]
  {
    var r := WeekOffsets(w, spw);
    var step := 7 / spw;
    assert 1 <= step && (spw - 1) * step <= 6 by {
      if spw == 1 { } else if spw == 2 { } else if spw == 3 { } else if spw == 4 { }
      else if spw == 5 { } else if spw == 6 { } else { }
    }
    forall x | x in r
      ensures 7 * w <= x <= 7 * w + 6
    {
      var s :| 0 <= s < spw && r[s] == x;
      MulLe(s, spw - 1, step);
    }
    forall i, j | 0 <= i < j < spw
      ensures r[i] < r[j]
    {
      MulLe(i + 1, j, step);
    }
  }

  lemma MulLe(a: nat, b: nat, c: nat)
    requires a <= b
    ensures 0 <= a * c <= b * c
  {
  }

  /** Offsets are strictly increasing and never reach the week after the last. */
  lemma {:induction false} DayIndexesIncreasing(weeks: nat, spw: nat)
    requires 1 <= spw <= 7
    ensures forall i, j :: 0 <= i < j < |DayIndexes(weeks, spw)| ==> DayIndexes(weeks, spw)[i] < DayIndexes(weeks, spw)[j]
    ensures forall x :: x in DayIndexes(weeks, spw) ==> 0 <= x < 7 * weeks
  {
    if weeks > 0 {
      DayIndexesIncreasing(weeks - 1, spw);
      WeekOffsetsWithin(weeks - 1, spw);
      var before, week := DayIndexes(weeks - 1, spw), WeekOffsets(weeks - 1, spw);
      var r := DayIndexes(weeks, spw);
      assert r == before + week;
      forall i, j | 0 <= i < j < |r|
        ensures r[i] < r[j]
      {
        if j >= |before| && i < |before| {
          assert r[i] in before && r[j] in week;
        } else if i >= |before| {
          assert r[i] == week[i - |before|] && r[j] == week[j - |before|];
        }
      }
      forall x | x in r
        ensures 0 <= x < 7 * weeks
      {
        if x in before {
        } else {
          assert x in week;
        }
      }
    }
  }

  /** Index `idx` holds a VO2max session: every fourth slot, until the quota is placed. */
  predicate High(idx: int, highCount: int) {
    idx % 4 == 0 && idx / 4 < highCount
  }

  /** The session of slot `idx`, `offset` days after the start. */
  function SessionAt(idx: nat, offset: int, high: bool, startDate: int, newId: int -> string): (s: Session)
    ensures s.id == newId(idx) && s.date == startDate + offset * DayMs && !s.completed
    ensures high ==> s.kind == Vo2max && s.duration == 60 && s.intensity == 9
    ensures !high ==> s.kind == Endurance && s.duration == 90 && s.intensity == 3
  {
    if high then Session(newId(idx), startDate + offset * DayMs, Vo2max, 60, 9, Vo2Description, false, None)
    else Session(newId(idx), startDate + offset * DayMs, Endurance, 90, 3, EnduranceDescription, false, None)
  }

  /** The sessions of a list of offsets, in slot order. */
  function PlanSessions(offsets: seq<int>, highCount: int, startDate: int, newId: int -> string): (r: seq<Session>)
    ensures |r| == |offsets|
  {
    if |offsets| == 0 then []
    else
      var n := |offsets| - 1;
      PlanSessions(offsets[..n], highCount, startDate, newId) + [SessionAt(n, offsets[n], High(n, highCount), startDate, newId)]
  }

  /** Slot `i` of the plan is the session of offset `i`, a VO2max session exactly at the high slots. */
  lemma {:induction false} PlanSessionsAt(offsets: seq<int>, highCount: int, startDate: int, newId: int -> string)
    ensures forall i :: 0 <= i < |offsets| ==>
      PlanSessions(offsets, highCount, startDate, newId)[i] == SessionAt(i, offsets[i], High(i, highCount), startDate, newId)
  {
    if |offsets| > 0 {
      var n := |offsets| - 1;
      PlanSessionsAt(offsets[..n], highCount, startDate, newId);
    }
  }

  /** How many sessions of `s` are VO2max sessions. */
  function CountVo2(s: seq<Session>): (c: nat)
    ensures c <= |s|
  {
    if |s| == 0 then 0 else CountVo2(s[..|s| - 1]) + (if s[|s| - 1].kind == Vo2max then 1 else 0)
  }

  /** Among `n` slots, every fourth one up to the quota is high: min(quota, ceil(n / 4)) of them. */
  lemma {:induction false} HighSlots(offsets: seq<int>, highCount: nat, startDate: int, newId: int -> string)
    ensures CountVo2(PlanSessions(offsets, highCount, startDate, newId)) == Min(highCount, (|offsets| + 3) / 4)
  {
    if |offsets| > 0 {
      var n := |offsets| - 1;
      HighSlots(offsets[..n], highCount, startDate, newId);
      var r := PlanSessions(offsets, highCount, startDate, newId);
      assert r[..n] == PlanSessions(offsets[..n], highCount, startDate, newId);
    }
  }

  /** The quota never exceeds the number of every-fourth slots, so exactly the quota is placed. */
  lemma ExactQuota(offsets: seq<int>, startDate: int, newId: int -> string)
    ensures CountVo2(PlanSessions(offsets, HighCount(|offsets|), startDate, newId)) == HighCount(|offsets|)
  {
    HighSlots(offsets, HighCount(|offsets|), startDate, newId);
  }

  /** The plan sessions after an analysis: `sessionsPerWeek * weeks` of them. */
  function GeneratedSessions(spw: nat, weeks: nat, startDate: int, newId: int -> string): (r: seq<Session>)
    requires spw > 0
    ensures |r| == spw * weeks
  {
    PlanSessions(DayIndexes(weeks, spw), HighCount(spw * weeks), startDate, newId)
  }

  /** A score of 85 over 4 weeks: 5 sessions a week, 20 sessions, 4 of them VO2max. */
  lemma ConsistentRiderExample(startDate: int, newId: int -> string)
    ensures SessionsPerWeekOf(Some(85)) == 5
    ensures |GeneratedSessions(5, 4, startDate, newId)| == 20
    ensures CountVo2(GeneratedSessions(5, 4, startDate, newId)) == 4
  {
    ExactQuota(DayIndexes(4, 5), startDate, newId);
  }

  /**
   * The source's generator. The analysis of the fetched rides decides the sessions per week; the
   * identifiers come from `newId`, called once per session and once for the plan, in that order.
   */
  method GeneratePolarizedPlan(
    user: User, weeks: nat, startDate: int,
    fetched: Result<seq<ActivityInsights.Activity>, string>, now: int, newId: int -> string)
    returns (plan: TrainingPlan)
    ensures fresh(plan.sessions)
    ensures var spw := SessionsPerWeek(Analysis.AnalysisResult(
        fetched, OrDefault(user.ftp, DefaultFtp), OrDefault(user.lthr, DefaultLthr), now));
      plan.sessions.items == GeneratedSessions(spw, weeks, startDate, newId)
      && plan.id == newId(spw * weeks)
    ensures plan.userId == user.id && plan.createdAt == now && plan.updatedAt == now
  {
    var ftp := OrDefault(user.ftp, DefaultFtp);
    var lthr := OrDefault(user.lthr, DefaultLthr);
    var analysis := Analysis.AnalyzeRecentTraining(fetched, ftp, lthr, now);
    var sessionsPerWeek := SessionsPerWeek(analysis);
    var sessions := ScheduleSessions(sessionsPerWeek, weeks, startDate, newId);
    var list := new SessionList(sessions);
    plan := TrainingPlan(newId(sessionsPerWeek * weeks), user.id, list, now, now);
  }

  /** Offsets week by week, the every-fourth high slots, then one session per offset. */
  method ScheduleSessions(sessionsPerWeek: nat, weeks: nat, startDate: int, newId: int -> string)
    returns (sessions: seq<Session>)
    requires sessionsPerWeek > 0
    ensures sessions == GeneratedSessions(sessionsPerWeek, weeks, startDate, newId)
  {
    var totalSessions := sessionsPerWeek * weeks;
    var highIntensityCount := Round(totalSessions as real * 0.2);
    assert highIntensityCount == HighCount(totalSessions);
    var dayIndexes := SpreadDays(sessionsPerWeek, weeks);
    var hiIndexes := HighSlotIndexes(|dayIndexes|, highIntensityCount);
    sessions := BuildSessions(dayIndexes, hiIndexes, highIntensityCount, startDate, newId);
  }

  /** The nested loops: `w * 7 + s * floor(7 / spw)` for every week `w` and slot `s`. */
  method SpreadDays(sessionsPerWeek: nat, weeks: nat) returns (dayIndexes: seq<int>)
    requires sessionsPerWeek > 0
    ensures dayIndexes == DayIndexes(weeks, sessionsPerWeek)
  {
    dayIndexes := [];
    var interval := 7 / sessionsPerWeek;
    for w := 0 to weeks
      invariant dayIndexes == DayIndexes(w, sessionsPerWeek)
    {
      for s := 0 to sessionsPerWeek
        invariant dayIndexes == DayIndexes(w, sessionsPerWeek) + WeekOffsets(w, sessionsPerWeek)[..s]
      {
        assert WeekOffsets(w, sessionsPerWeek)[..s + 1] == WeekOffsets(w, sessionsPerWeek)[..s] + [w * 7 + s * interval];
        dayIndexes := dayIndexes + [w * 7 + s * interval];
      }
      assert WeekOffsets(w, sessionsPerWeek)[..sessionsPerWeek] == WeekOffsets(w, sessionsPerWeek);
    }
  }

  /** Every fourth index, starting at 0, while indexes remain and the quota is not met. */
  method HighSlotIndexes(n: nat, highIntensityCount: int) returns (hiIndexes: set<int>)
    ensures forall k :: 0 <= k < n ==> (k in hiIndexes <==> High(k, highIntensityCount))
    ensures forall k :: k in hiIndexes ==> 0 <= k < n
  {
    hiIndexes := {};
    var hiPlaced := 0;
    var i := 0;
    while i < n && hiPlaced < highIntensityCount
      invariant 0 <= hiPlaced && (hiPlaced <= highIntensityCount || hiPlaced == 0)
      invariant i == 4 * hiPlaced
      invariant forall k :: k in hiIndexes <==> 0 <= k < i && k % 4 == 0
      invariant forall k :: k in hiIndexes ==> k < n
      invariant i >= n || hiPlaced >= highIntensityCount ==>
        forall k :: 0 <= k < n ==> (k in hiIndexes <==> High(k, highIntensityCount))
      decreases n - i
    {
      hiIndexes := hiIndexes + {i};
      hiPlaced := hiPlaced + 1;
      i := i + 4;
      if i >= n || hiPlaced >= highIntensityCount {
        forall k | 0 <= k < n
          ensures k in hiIndexes <==> High(k, highIntensityCount)
        {
        }
      }
    }
  }

  /** `dayIndexes.forEach`: one session per offset, a VO2max session at the chosen indexes. */
  method BuildSessions(dayIndexes: seq<int>, hiIndexes: set<int>, highIntensityCount: int, startDate: int, newId: int -> string)
    returns (sessions: seq<Session>)
    requires forall k :: 0 <= k < |dayIndexes| ==> (k in hiIndexes <==> High(k, highIntensityCount))
    ensures sessions == PlanSessions(dayIndexes, highIntensityCount, startDate, newId)
  {
    sessions := [];
    for idx := 0 to |dayIndexes|
      invariant sessions == PlanSessions(dayIndexes[..idx], highIntensityCount, startDate, newId)
    {
      var isHigh := idx in hiIndexes;
      assert dayIndexes[..idx + 1][..idx] == dayIndexes[..idx];
      sessions := sessions + [Session(
        newId(idx), startDate + dayIndexes[idx] * DayMs,
        if isHigh then Vo2max else Endurance,
        if isHigh then 60 else 90,
        if isHigh then 9 else 3,
        if isHigh then Vo2Description else EnduranceDescription,
        false, None)];
    }
    assert dayIndexes[..|dayIndexes|] == dayIndexes;
  }
}
