/**
 * The aggregator's entry point: every fetched activity becomes an insight, the insights give the
 * training pattern and the fitness metrics, and those give the coaching advice.
 */
module TrainingAnalysisModel {
  import opened Common
  import opened ActivityInsights
  import opened TrainingPatterns
  import opened FitnessModel
  import opened Recommendations

  datatype TrainingAnalysis = TrainingAnalysis(
    activities: seq<ActivityInsight>,
    patterns: TrainingPattern,
    recommendations: seq<string>,
    fitness: int,
    fatigue: int,
    form: int)

  const FetchErrorPrefix: string := "Failed to fetch activities: "

  /** The insight of each activity, in the order the activities were fetched. */
  function Insights(acts: seq<Activity>, ftp: real, lthr: real): (r: seq<ActivityInsight>)
    ensures |r| == |acts|
    ensures forall i :: 0 <= i < |acts| ==> r[i] == InsightOf(acts[i], ftp, lthr)
  {
    seq(|acts|, i requires 0 <= i < |acts| => InsightOf(acts[i], ftp, lthr))
  }

  /** The metrics part of an analysis: the averages over the insights oldest first. */
  function MetricsPart(newest: seq<ActivityInsight>): (m: FitnessMetrics)
    ensures m.form == m.fitness - m.fatigue && m.fitness <= 100 && m.fatigue <= 100
  {
    MetricsOf(SortByDate(newest, false))
  }

  /**
   * The analysis of a fetched batch. The insight list is sorted newest first for the pattern and
   * then oldest first for the metrics, both times in place, so the analysis carries it oldest first.
   */
  function AnalysisOf(acts: seq<Activity>, ftp: real, lthr: real, now: int): (r: TrainingAnalysis)
    ensures |r.activities| == |acts|
    ensures multiset(r.activities) == multiset(Insights(acts, ftp, lthr))
    ensures SortedByDate(r.activities, false)
    ensures r.form == r.fitness - r.fatigue && r.fitness <= 100 && r.fatigue <= 100
    ensures 1 <= |r.recommendations|
  {
    var newest := SortByDate(Insights(acts, ftp, lthr), true);
    var patterns := PatternOf(newest, now);
    var m := MetricsPart(newest);
    TrainingAnalysis(
      SortByDate(newest, false), patterns,
      Messages(AdviceFor(patterns, m.fitness, m.fatigue, m.form)),
      m.fitness, m.fatigue, m.form)
  }

  /** Every training load is on the 0-100 scale when no moving time is negative. */
  lemma InsightLoadsWithin(acts: seq<Activity>, ftp: real, lthr: real)
    requires forall i :: 0 <= i < |acts| ==> acts[i].movingTime >= 0.0
    ensures forall x :: x in Insights(acts, ftp, lthr) ==> 0 <= x.trainingLoad <= 100
  {
  }

  /** With real rides, fitness and fatigue stay in 0..100 and form in -100..100. */
  lemma AnalysisMetricsWithin(acts: seq<Activity>, ftp: real, lthr: real, now: int)
    requires forall i :: 0 <= i < |acts| ==> acts[i].movingTime >= 0.0
    ensures 0 <= AnalysisOf(acts, ftp, lthr, now).fitness <= 100
    ensures 0 <= AnalysisOf(acts, ftp, lthr, now).fatigue <= 100
    ensures -100 <= AnalysisOf(acts, ftp, lthr, now).form <= 100
  {
    var insights := Insights(acts, ftp, lthr);
    InsightLoadsWithin(acts, ftp, lthr);
    var oldest := SortByDate(SortByDate(insights, true), false);
    forall i | 0 <= i < |oldest|
      ensures 0 <= oldest[i].trainingLoad <= 100
    {
      assert oldest[i] in multiset(insights);
    }
    MetricsWithin(oldest);
  }

  /** No activities: no fitness, no fatigue, and the default sentence alone. */
  lemma EmptyAnalysis(ftp: real, lthr: real, now: int)
    ensures AnalysisOf([], ftp, lthr, now).activities == []
    ensures AnalysisOf([], ftp, lthr, now).fitness == 0 && AnalysisOf([], ftp, lthr, now).fatigue == 0
    ensures AnalysisOf([], ftp, lthr, now).recommendations == [KeepGoingText]
  {
    var newest := SortByDate(Insights([], ftp, lthr), true);
    assert |newest| == 0;
    var oldest := SortByDate(newest, false);
    assert |oldest| == 0;
    EmptyHistoryPattern(newest, now);
    EmptyHistoryMetrics(oldest);
    var p := PatternOf(newest, now);
    QuietPatternAdvice(p);
    var advice := Messages(AdviceFor(p, 0, 0, 0));
    assert |advice| == 1 && advice[0] == KeepGoingText;
    var a := AnalysisOf([], ftp, lthr, now);
    assert a == TrainingAnalysis(oldest, p, advice, 0, 0, 0);
  }

  /** The outcome of an analysis over the result of the fetch: a failed fetch becomes an error. */
  function AnalysisResult(fetched: Result<seq<Activity>, string>, ftp: real, lthr: real, now: int)
    : (r: Result<TrainingAnalysis, string>)
    ensures fetched.Failure? <==> r.Failure?
    ensures fetched.Failure? ==> r.error == FetchErrorPrefix + fetched.error
    ensures fetched.Success? ==> |r.value.activities| == |fetched.value|
  {
    if fetched.Failure? then Failure(FetchErrorPrefix + fetched.error)
    else Success(AnalysisOf(fetched.value, ftp, lthr, now))
  }

  /**
   * The source's analysis over the result of the fetch: a failed fetch becomes an error, otherwise
   * the fetched activities are analysed.
   */
  method AnalyzeRecentTraining(fetched: Result<seq<Activity>, string>, ftp: real, lthr: real, now: int)
    returns (r: Result<TrainingAnalysis, string>)
    ensures r == AnalysisResult(fetched, ftp, lthr, now)
  {
    if fetched.Failure? {
      return Failure(FetchErrorPrefix + fetched.error);
    }
    var analysis := AnalyzeActivities(fetched.value, ftp, lthr, now);
    r := Success(analysis);
  }

  /**
   * Each activity is processed into a fresh array, which the pattern and the metrics then sort in
   * place before the advice is generated.
   */
  method AnalyzeActivities(acts: seq<Activity>, ftp: real, lthr: real, now: int) returns (analysis: TrainingAnalysis)
    ensures analysis == AnalysisOf(acts, ftp, lthr, now)
  {
    var insights := ProcessActivities(acts, ftp, lthr);
    var patterns := AnalyzePatterns(insights, now);
    var metrics := CalculateFitnessMetrics(insights);
    var recommendations := GenerateRecommendations(patterns, metrics.fitness, metrics.fatigue, metrics.form);
    analysis := TrainingAnalysis(
      insights[..], patterns, recommendations, metrics.fitness, metrics.fatigue, metrics.form);
  }

  /** `activities.map(processActivity)` into a new array. */
  method ProcessActivities(acts: seq<Activity>, ftp: real, lthr: real) returns (insights: array<ActivityInsight>)
    ensures fresh(insights)
    ensures insights[..] == Insights(acts, ftp, lthr)
  {
    insights := new ActivityInsight[|acts|];
    for i := 0 to |acts|
      invariant forall k :: 0 <= k < i ==> insights[k] == InsightOf(acts[k], ftp, lthr)
    {
      insights[i] := ProcessActivity(acts[i], ftp, lthr);
    }
  }
}
