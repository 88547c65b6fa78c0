/**
 * The coaching advice of the aggregator: a fixed list of rules, each adding one sentence when its
 * condition on the pattern and the fitness metrics holds, in a fixed order, with a default sentence
 * when no rule fires.
 */
module Recommendations {
  import opened Common
  import opened ActivityInsights
  import opened TrainingPatterns

  /** One advice per rule, in the order the rules are tried; `KeepGoing` is the default. */
  datatype Advice =
    | EaseOff | HeavyFatigue | GoodForm | LoadRising | LoadFalling
    | BuildOnBase | BalanceIntensity | TrainRegularly | TakeRestDay | KeepGoing

  /** Position of a rule in the order the rules are tried. */
  function Order(a: Advice): nat {
    match a
    case EaseOff => 0
    case HeavyFatigue => 1
    case GoodForm => 2
    case LoadRising => 3
    case LoadFalling => 4
    case BuildOnBase => 5
    case BalanceIntensity => 6
    case TrainRegularly => 7
    case TakeRestDay => 8
    case KeepGoing => 9
  }

  /** `consistencyScore < 50`; a comparison with the NaN score of an empty history is false. */
  predicate Irregular(score: Option<int>) {
    score.Some? && score.value < 50
  }

  /**
   * Whether the rule of advice `a` fires. The second advice of an if / else-if pair carries the
   * negated first condition, as the branch is written.
   */
  predicate Fires(a: Advice, p: TrainingPattern, fitness: int, fatigue: int, form: int) {
    match a
    case EaseOff => p.recoveryNeeded || fatigue > 70
    case HeavyFatigue => form < -20
    case GoodForm => !(form < -20) && form > 20
    case LoadRising => p.loadTrend == Increasing && p.recentLoad > 40.0
    case LoadFalling => !(p.loadTrend == Increasing && p.recentLoad > 40.0) && p.loadTrend == Decreasing && fitness < 50
    case BuildOnBase => p.zoneFocus == Endurance
    case BalanceIntensity => p.zoneFocus != Endurance && p.zoneFocus == Vo2max
    case TrainRegularly => Irregular(p.consistencyScore)
    case TakeRestDay => p.lastRestDay > 7
    case KeepGoing => false
  }

  /** The rule tried at position `k`. */
  function RuleAt(k: int): (a: Advice)
    requires 0 <= k < 9
    ensures Order(a) == k
  {
    if k == 0 then EaseOff
    else if k == 1 then HeavyFatigue
    else if k == 2 then GoodForm
    else if k == 3 then LoadRising
    else if k == 4 then LoadFalling
    else if k == 5 then BuildOnBase
    else if k == 6 then BalanceIntensity
    else if k == 7 then TrainRegularly
    else TakeRestDay
  }

  /** Each advice but the default is the rule at its own position. */
  lemma RuleAtOrder(a: Advice)
    requires a != KeepGoing
    ensures Order(a) < 9 && RuleAt(Order(a)) == a
  {
  }

  predicate StrictlyOrdered(r: seq<Advice>) {
    forall i, j :: 0 <= i < j < |r| ==> Order(r[i]) < Order(r[j])
  }

  /** A rule `if (c) push(a)`: the advice alone when its condition holds, nothing otherwise. */
  function Rule(c: bool, a: Advice): (r: seq<Advice>)
    ensures |r| <= 1
  {
    if c then [a] else []
  }

  /** A pair of rules `if (c1) push(a1) else if (c2) push(a2)`: at most one of the two. */
  function Either(c1: bool, a1: Advice, c2: bool, a2: Advice): (r: seq<Advice>)
    ensures |r| <= 1
  {
    if c1 then [a1] else if c2 then [a2] else []
  }

  /** An else-if pair is the first rule followed by the second with the first condition negated. */
  lemma EitherSplit(before: seq<Advice>, c1: bool, a1: Advice, c2: bool, a2: Advice)
    ensures before + Either(c1, a1, c2, a2) == before + Rule(c1, a1) + Rule(!c1 && c2, a2)
  {
  }

  /** The advice of one rule: itself when it fires, nothing otherwise. */
  function Step(a: Advice, p: TrainingPattern, fitness: int, fatigue: int, form: int): seq<Advice> {
    Rule(Fires(a, p, fitness, fatigue, form), a)
  }

  /** The advice of the rules that fire among the first `n`, in rule order. */
  function Fired(n: nat, p: TrainingPattern, fitness: int, fatigue: int, form: int): (r: seq<Advice>)
    requires n <= 9
    ensures |r| <= n
  {
    if n == 0 then []
    else
      var a := RuleAt(n - 1);
      Fired(n - 1, p, fitness, fatigue, form) + Step(a, p, fitness, fatigue, form)
  }

  /** The first `n` rules give exactly the advice of order below `n` whose rule fires, in rule order. */
  lemma {:induction false} FiredInOrder(n: nat, p: TrainingPattern, fitness: int, fatigue: int, form: int)
    requires n <= 9
    ensures forall a :: a in Fired(n, p, fitness, fatigue, form) <==> Order(a) < n && Fires(a, p, fitness, fatigue, form)
    ensures StrictlyOrdered(Fired(n, p, fitness, fatigue, form))
  {
    if n > 0 {
      FiredInOrder(n - 1, p, fitness, fatigue, form);
      var before := Fired(n - 1, p, fitness, fatigue, form);
      var r := Fired(n, p, fitness, fatigue, form);
      forall i, j | 0 <= i < j < |r|
        ensures Order(r[i]) < Order(r[j])
      {
        if j == |before| {
          assert r[i] in before;
        }
      }
      forall x
        ensures x in r <==> Order(x) < n && Fires(x, p, fitness, fatigue, form)
      {
        if Order(x) == n - 1 && x != KeepGoing {
          RuleAtOrder(x);
        }
      }
    }
  }

  /** The rules one at a time: the first `k + 1` rules are the first `k` followed by rule `k`. */
  lemma FiredSteps(p: TrainingPattern, fitness: int, fatigue: int, form: int)
    ensures Fired(1, p, fitness, fatigue, form) == Step(EaseOff, p, fitness, fatigue, form)
    ensures Fired(2, p, fitness, fatigue, form) == Fired(1, p, fitness, fatigue, form) + Step(HeavyFatigue, p, fitness, fatigue, form)
    ensures Fired(3, p, fitness, fatigue, form) == Fired(2, p, fitness, fatigue, form) + Step(GoodForm, p, fitness, fatigue, form)
    ensures Fired(4, p, fitness, fatigue, form) == Fired(3, p, fitness, fatigue, form) + Step(LoadRising, p, fitness, fatigue, form)
    ensures Fired(5, p, fitness, fatigue, form) == Fired(4, p, fitness, fatigue, form) + Step(LoadFalling, p, fitness, fatigue, form)
    ensures Fired(6, p, fitness, fatigue, form) == Fired(5, p, fitness, fatigue, form) + Step(BuildOnBase, p, fitness, fatigue, form)
    ensures Fired(7, p, fitness, fatigue, form) == Fired(6, p, fitness, fatigue, form) + Step(BalanceIntensity, p, fitness, fatigue, form)
    ensures Fired(8, p, fitness, fatigue, form) == Fired(7, p, fitness, fatigue, form) + Step(TrainRegularly, p, fitness, fatigue, form)
    ensures Fired(9, p, fitness, fatigue, form) == Fired(8, p, fitness, fatigue, form) + Step(TakeRestDay, p, fitness, fatigue, form)
  {
  }

  /** The rules as the source writes them: single rules and else-if pairs, appended in turn. */
  function Pushed(p: TrainingPattern, fitness: int, fatigue: int, form: int): seq<Advice> {
    []
    + Rule(p.recoveryNeeded || fatigue > 70, EaseOff)
    + Either(form < -20, HeavyFatigue, form > 20, GoodForm)
    + Either(p.loadTrend == Increasing && p.recentLoad > 40.0, LoadRising,
        p.loadTrend == Decreasing && fitness < 50, LoadFalling)
    + Either(p.zoneFocus == Endurance, BuildOnBase, p.zoneFocus == Vo2max, BalanceIntensity)
    + Rule(p.consistencyScore.Some? && p.consistencyScore.value < 50, TrainRegularly)
    + Rule(p.lastRestDay > 7, TakeRestDay)
  }

  /** The else-if pairs, read one rule at a time, give the rules in rule order. */
  lemma PushedInRuleOrder(p: TrainingPattern, fitness: int, fatigue: int, form: int)
    ensures Pushed(p, fitness, fatigue, form) == Fired(9, p, fitness, fatigue, form)
  {
    FiredSteps(p, fitness, fatigue, form);
    var r1 := [] + Rule(p.recoveryNeeded || fatigue > 70, EaseOff);
    assert r1 == Fired(1, p, fitness, fatigue, form);
    EitherSplit(r1, form < -20, HeavyFatigue, form > 20, GoodForm);
    var r3 := r1 + Either(form < -20, HeavyFatigue, form > 20, GoodForm);
    assert r3 == Fired(3, p, fitness, fatigue, form);
    EitherSplit(r3, p.loadTrend == Increasing && p.recentLoad > 40.0, LoadRising,
      p.loadTrend == Decreasing && fitness < 50, LoadFalling);
    var r5 := r3 + Either(p.loadTrend == Increasing && p.recentLoad > 40.0, LoadRising,
      p.loadTrend == Decreasing && fitness < 50, LoadFalling);
    assert r5 == Fired(5, p, fitness, fatigue, form);
    EitherSplit(r5, p.zoneFocus == Endurance, BuildOnBase, p.zoneFocus == Vo2max, BalanceIntensity);
    var r7 := r5 + Either(p.zoneFocus == Endurance, BuildOnBase, p.zoneFocus == Vo2max, BalanceIntensity);
    assert r7 == Fired(7, p, fitness, fatigue, form);
  }

  /** Three single rules and three else-if pairs push at most six sentences. */
  lemma AtMostSix(p: TrainingPattern, fitness: int, fatigue: int, form: int)
    ensures |Pushed(p, fitness, fatigue, form)| <= 6
  {
  }

  /** The advice list: the fired rules in rule order, or the default alone when none fired. */
  function AdviceFor(p: TrainingPattern, fitness: int, fatigue: int, form: int): (r: seq<Advice>)
    ensures 1 <= |r| <= 6
    ensures StrictlyOrdered(r)
    ensures forall a :: a != KeepGoing ==> (a in r <==> Fires(a, p, fitness, fatigue, form))
    ensures KeepGoing in r <==> r == [KeepGoing]
  {
    var fired := Fired(9, p, fitness, fatigue, form);
    FiredInOrder(9, p, fitness, fatigue, form);
    PushedInRuleOrder(p, fitness, fatigue, form);
    AtMostSix(p, fitness, fatigue, form);
    if |fired| > 0 then fired else [KeepGoing]
  }

  /** Each advice is given exactly when its own condition holds: no else-if ever hides one. */
  lemma RuleConditions(p: TrainingPattern, fitness: int, fatigue: int, form: int)
    ensures EaseOff in AdviceFor(p, fitness, fatigue, form) <==> p.recoveryNeeded || fatigue > 70
    ensures HeavyFatigue in AdviceFor(p, fitness, fatigue, form) <==> form < -20
    ensures GoodForm in AdviceFor(p, fitness, fatigue, form) <==> form > 20
    ensures LoadRising in AdviceFor(p, fitness, fatigue, form) <==> p.loadTrend == Increasing && p.recentLoad > 40.0
    ensures LoadFalling in AdviceFor(p, fitness, fatigue, form) <==> p.loadTrend == Decreasing && fitness < 50
    ensures BuildOnBase in AdviceFor(p, fitness, fatigue, form) <==> p.zoneFocus == Endurance
    ensures BalanceIntensity in AdviceFor(p, fitness, fatigue, form) <==> p.zoneFocus == Vo2max
    ensures TrainRegularly in AdviceFor(p, fitness, fatigue, form) <==> Irregular(p.consistencyScore)
    ensures TakeRestDay in AdviceFor(p, fitness, fatigue, form) <==> p.lastRestDay > 7
  {
  }

  /** The score of a real pattern is never below 100, so the consistency advice is never given. */
  lemma NoConsistencyAdvice(sorted: seq<ActivityInsight>, now: int, fitness: int, fatigue: int, form: int)
    ensures TrainRegularly !in AdviceFor(PatternOf(sorted, now), fitness, fatigue, form)
  {
    RegularScoreNoAdvice(PatternOf(sorted, now), fitness, fatigue, form);
  }

  /** A score that is NaN or at least 100 never asks for more regular training. */
  lemma RegularScoreNoAdvice(p: TrainingPattern, fitness: int, fatigue: int, form: int)
    requires p.consistencyScore.None? || p.consistencyScore.value >= 100
    ensures TrainRegularly !in AdviceFor(p, fitness, fatigue, form)
  {
    assert !Fires(TrainRegularly, p, fitness, fatigue, form);
  }

  /** The default sentence is given exactly when no rule fires, and then alone. */
  lemma DefaultOnlyWhenQuiet(p: TrainingPattern, fitness: int, fatigue: int, form: int)
    ensures AdviceFor(p, fitness, fatigue, form) == [KeepGoing]
      <==> forall a :: !Fires(a, p, fitness, fatigue, form)
  {
    var r := AdviceFor(p, fitness, fatigue, form);
    if r != [KeepGoing] {
      assert r[0] in r && r[0] != KeepGoing;
    }
  }

  /** A pattern of no riding at all, with no fitness and no fatigue, gets the default alone. */
  lemma QuietPatternAdvice(p: TrainingPattern)
    requires !p.recoveryNeeded && p.loadTrend == Stable && p.zoneFocus == Mixed
    requires p.consistencyScore.None? && p.lastRestDay <= 7
    ensures AdviceFor(p, 0, 0, 0) == [KeepGoing]
  {
    DefaultOnlyWhenQuiet(p, 0, 0, 0);
  }

  const EaseOffText: string := "Consider an easy recovery ride or rest day to manage fatigue"
  const HeavyFatigueText: string := "You're carrying significant fatigue. Focus on recovery and easy rides"
  const GoodFormText: string := "Good form! This could be a good time for harder training or events"
  const LoadRisingText: string := "Training load is increasing rapidly. Be mindful of recovery"
  const LoadFallingText: string := "Training load has decreased. Consider adding more consistent rides"
  const BuildOnBaseText: string := "Good endurance base! Consider adding some tempo or threshold work"
  const BalanceIntensityText: string := "High intensity focus detected. Balance with more easy endurance rides"
  const TrainRegularlyText: string := "Try to maintain more consistent training to build fitness effectively"
  const TakeRestDayText: string := "Consider taking a rest day - you haven't had one in over a week"
  const KeepGoingText: string := "Keep up the great training! Stay consistent and listen to your body"

  /** The sentence each advice stands for. */
  function Message(a: Advice): string {
    match a
    case EaseOff => EaseOffText
    case HeavyFatigue => HeavyFatigueText
    case GoodForm => GoodFormText
    case LoadRising => LoadRisingText
    case LoadFalling => LoadFallingText
    case BuildOnBase => BuildOnBaseText
    case BalanceIntensity => BalanceIntensityText
    case TrainRegularly => TrainRegularlyText
    case TakeRestDay => TakeRestDayText
    case KeepGoing => KeepGoingText
  }

  /** The sentences of a list of advice, in the same order. */
  function Messages(advice: seq<Advice>): (r: seq<string>)
    ensures |r| == |advice|
    ensures forall i :: 0 <= i < |advice| ==> r[i] == Message(advice[i])
  {
    if |advice| == 0 then [] else Messages(advice[..|advice| - 1]) + [Message(advice[|advice| - 1])]
  }

  /**
   * The rules of the source, each pushing its advice when its condition holds (an else-if pair
   * pushing at most one), then the default when nothing was pushed. The advice is collected first
   * and turned into its sentences at the end.
   */
  method GenerateRecommendations(p: TrainingPattern, fitness: int, fatigue: int, form: int)
    returns (recommendations: seq<string>)
    ensures recommendations == Messages(AdviceFor(p, fitness, fatigue, form))
  {
    var advice: seq<Advice> := [];
    advice := advice + Rule(p.recoveryNeeded || fatigue > 70, EaseOff);
    advice := advice + Either(form < -20, HeavyFatigue, form > 20, GoodForm);
    advice := advice + Either(p.loadTrend == Increasing && p.recentLoad > 40.0, LoadRising,
      p.loadTrend == Decreasing && fitness < 50, LoadFalling);
    advice := advice + Either(p.zoneFocus == Endurance, BuildOnBase, p.zoneFocus == Vo2max, BalanceIntensity);
    advice := advice + Rule(p.consistencyScore.Some? && p.consistencyScore.value < 50, TrainRegularly);
    advice := advice + Rule(p.lastRestDay > 7, TakeRestDay);
    assert advice == Pushed(p, fitness, fatigue, form);
    PushedInRuleOrder(p, fitness, fatigue, form);
    if |advice| == 0 {
      advice := [KeepGoing];
    }
    recommendations := Messages(advice);
  }
}
