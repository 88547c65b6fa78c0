/**
 * The simplified fitness model of the aggregator: two exponentially weighted averages of the
 * per-ride training load, a slow one (fitness, CTL) and a fast one (fatigue, ATL), taken over the
 * rides oldest first, and form as their difference.
 */
module FitnessModel {
  import opened Common
  import opened ActivityInsights
  import opened TrainingPatterns

  /** Per-ride decay of fitness (a 42-day time constant). */
  const FitnessDecay: real := 0.993
  /** Per-ride decay of fatigue (a 7-day time constant). */
  const FatigueDecay: real := 0.928

  datatype FitnessMetrics = FitnessMetrics(fitness: int, fatigue: int, form: int)

  /** The training loads of a list of insights, in list order. */
  function LoadsOf(s: seq<ActivityInsight>): (loads: seq<int>)
    ensures |loads| == |s|
    ensures forall i :: 0 <= i < |s| ==> loads[i] == s[i].trainingLoad
  {
    seq(|s|, i requires 0 <= i < |s| => s[i].trainingLoad)
  }

  /** One step of the average: the old value decays and the new load fills the gap. */
  function Blend(previous: real, load: real, decay: real): real {
    previous * decay + load * (1.0 - decay)
  }

  /** The average after all `loads`, starting from 0, the last load applied last. */
  function Ema(loads: seq<int>, decay: real): real {
    if |loads| == 0 then 0.0
    else Blend(Ema(loads[..|loads| - 1], decay), loads[|loads| - 1] as real, decay)
  }

  predicate LoadsWithin(loads: seq<int>, hi: int) {
    forall i :: 0 <= i < |loads| ==> 0 <= loads[i] <= hi
  }

  /** A larger previous value gives a larger blend. */
  lemma BlendMonotoneInPrevious(p1: real, p2: real, load: real, decay: real)
    requires p1 <= p2 && 0.0 <= decay
    ensures Blend(p1, load, decay) <= Blend(p2, load, decay)
  {
    MulNonneg(p2 - p1, decay);
    assert (p2 - p1) * decay == p2 * decay - p1 * decay;
  }

  /** A larger load gives a larger blend. */
  lemma BlendMonotoneInLoad(previous: real, l1: real, l2: real, decay: real)
    requires l1 <= l2 && decay <= 1.0
    ensures Blend(previous, l1, decay) <= Blend(previous, l2, decay)
  {
    MulNonneg(l2 - l1, 1.0 - decay);
    assert (l2 - l1) * (1.0 - decay) == l2 * (1.0 - decay) - l1 * (1.0 - decay);
  }

  /** Blending a value with itself gives that value back. */
  lemma BlendOfEqual(a: real, decay: real)
    ensures Blend(a, a, decay) == a
  {
    assert a * decay + a * (1.0 - decay) == a * (decay + (1.0 - decay));
  }

  /** A blend of two values in [0, hi] stays in [0, hi]. */
  lemma BlendWithin(previous: real, load: real, decay: real, hi: real)
    requires 0.0 <= previous <= hi && 0.0 <= load <= hi && 0.0 <= decay <= 1.0
    ensures 0.0 <= Blend(previous, load, decay) <= hi
  {
    BlendMonotoneInPrevious(0.0, previous, 0.0, decay);
    BlendMonotoneInLoad(previous, 0.0, load, decay);
    BlendOfEqual(0.0, decay);
    BlendMonotoneInPrevious(previous, hi, load, decay);
    BlendMonotoneInLoad(hi, load, hi, decay);
    BlendOfEqual(hi, decay);
  }

  /** With every load in [0, hi], the average never leaves [0, hi]. */
  lemma {:induction false} EmaWithin(loads: seq<int>, decay: real, hi: int)
    requires LoadsWithin(loads, hi) && 0.0 <= decay <= 1.0 && hi >= 0
    ensures 0.0 <= Ema(loads, decay) <= hi as real
  {
    if |loads| > 0 {
      var init := loads[..|loads| - 1];
      assert LoadsWithin(init, hi) by {
        forall i | 0 <= i < |init|
          ensures 0 <= init[i] <= hi
        {
          assert init[i] == loads[i];
        }
      }
      EmaWithin(init, decay, hi);
      BlendWithin(Ema(init, decay), loads[|loads| - 1] as real, decay, hi as real);
    }
  }

  predicate PointwiseAtMost(a: seq<int>, b: seq<int>) {
    |a| == |b| && forall i :: 0 <= i < |a| ==> a[i] <= b[i]
  }

  /** Blending is monotone in both the previous value and the new load. */
  lemma BlendMonotone(p1: real, p2: real, l1: real, l2: real, decay: real)
    requires p1 <= p2 && l1 <= l2 && 0.0 <= decay <= 1.0
    ensures Blend(p1, l1, decay) <= Blend(p2, l2, decay)
  {
    BlendMonotoneInPrevious(p1, p2, l1, decay);
    BlendMonotoneInLoad(p2, l1, l2, decay);
  }

  /** Higher loads, ride by ride, never give a lower average. */
  lemma {:induction false} EmaMonotone(a: seq<int>, b: seq<int>, decay: real)
    requires PointwiseAtMost(a, b) && 0.0 <= decay <= 1.0
    ensures Ema(a, decay) <= Ema(b, decay)
  {
    if |a| > 0 {
      var n := |a| - 1;
      assert PointwiseAtMost(a[..n], b[..n]) by {
        forall i | 0 <= i < n
          ensures a[..n][i] <= b[..n][i]
        {
          assert a[..n][i] == a[i] && b[..n][i] == b[i];
        }
      }
      EmaMonotone(a[..n], b[..n], decay);
      BlendMonotone(Ema(a[..n], decay), Ema(b[..n], decay), a[n] as real, b[n] as real, decay);
    }
  }

  /** Fitness, fatigue (each rounded and capped at 100) and form of an oldest-first list. */
  function MetricsOf(sorted: seq<ActivityInsight>): (m: FitnessMetrics)
    ensures m.fitness <= 100 && m.fatigue <= 100
    ensures m.form == m.fitness - m.fatigue
  {
    var loads := LoadsOf(sorted);
    var fitness := Min(Round(Ema(loads, FitnessDecay)), 100);
    var fatigue := Min(Round(Ema(loads, FatigueDecay)), 100);
    RoundOfInteger(fitness - fatigue);
    FitnessMetrics(fitness, fatigue, Round((fitness - fatigue) as real))
  }

  /** With loads on the 0-100 scale, fitness and fatigue stay in 0..100 and form in -100..100. */
  lemma MetricsWithin(sorted: seq<ActivityInsight>)
    requires forall i :: 0 <= i < |sorted| ==> 0 <= sorted[i].trainingLoad <= 100
    ensures 0 <= MetricsOf(sorted).fitness <= 100 && 0 <= MetricsOf(sorted).fatigue <= 100
    ensures -100 <= MetricsOf(sorted).form <= 100
  {
    var loads := LoadsOf(sorted);
    EmaWithin(loads, FitnessDecay, 100);
    EmaWithin(loads, FatigueDecay, 100);
    RoundMonotone(0.0, Ema(loads, FitnessDecay));
    RoundMonotone(0.0, Ema(loads, FatigueDecay));
    RoundOfInteger(0);
  }

  /** Harder rides, one by one, never lower fitness or fatigue. */
  lemma MetricsMonotone(a: seq<ActivityInsight>, b: seq<ActivityInsight>)
    requires |a| == |b|
    requires forall i :: 0 <= i < |a| ==> a[i].trainingLoad <= b[i].trainingLoad
    ensures MetricsOf(a).fitness <= MetricsOf(b).fitness
    ensures MetricsOf(a).fatigue <= MetricsOf(b).fatigue
  {
    var la, lb := LoadsOf(a), LoadsOf(b);
    assert PointwiseAtMost(la, lb);
    EmaMonotone(la, lb, FitnessDecay);
    EmaMonotone(la, lb, FatigueDecay);
    RoundMonotone(Ema(la, FitnessDecay), Ema(lb, FitnessDecay));
    RoundMonotone(Ema(la, FatigueDecay), Ema(lb, FatigueDecay));
  }

  /** No rides: no fitness, no fatigue, form 0. */
  lemma EmptyHistoryMetrics(sorted: seq<ActivityInsight>)
    requires |sorted| == 0
    ensures MetricsOf(sorted).fitness == 0 && MetricsOf(sorted).fatigue == 0 && MetricsOf(sorted).form == 0
  {
    RoundOfInteger(0);
  }

  /** Fatigue reacts faster than fitness: one ride of load 100 gives fitness 1, fatigue 7, form -6. */
  lemma SingleHardRide(sorted: seq<ActivityInsight>)
    requires |sorted| == 1 && sorted[0].trainingLoad == 100
    ensures MetricsOf(sorted).fitness == 1 && MetricsOf(sorted).fatigue == 7 && MetricsOf(sorted).form == -6
  {
    var loads := LoadsOf(sorted);
    assert loads == [100];
    assert loads[..0] == [];
    assert Ema(loads, FitnessDecay) == 0.7;
    assert Ema(loads, FatigueDecay) == 7.2;
  }

  /**
   * The source's metrics: sorts the array oldest first in place, then runs both averages over it
   * ride by ride.
   */
  method CalculateFitnessMetrics(insights: array<ActivityInsight>) returns (m: FitnessMetrics)
    modifies insights
    ensures insights[..] == SortByDate(old(insights[..]), false)
    ensures m == MetricsOf(insights[..])
  {
    SortInPlace(insights, false);
    m := AverageLoads(insights[..]);
  }

  /** The loop of the metrics over an oldest-first list, then rounding, capping and form. */
  method AverageLoads(sorted: seq<ActivityInsight>) returns (m: FitnessMetrics)
    ensures m == MetricsOf(sorted)
  {
    var loads := LoadsOf(sorted);
    var fitness := 0.0;
    var fatigue := 0.0;
    var i := 0;
    while i < |sorted|
      invariant 0 <= i <= |sorted|
      invariant fitness == Ema(loads[..i], FitnessDecay)
      invariant fatigue == Ema(loads[..i], FatigueDecay)
    {
      var load := sorted[i].trainingLoad;
      fitness := fitness * FitnessDecay + load as real * (1.0 - FitnessDecay);
      fatigue := fatigue * FatigueDecay + load as real * (1.0 - FatigueDecay);
      assert loads[..i + 1][..i] == loads[..i];
      i := i + 1;
    }
    assert loads[..i] == loads;
    var fitnessScore := Min(Round(fitness), 100);
    var fatigueScore := Min(Round(fatigue), 100);
    m := FitnessMetrics(fitnessScore, fatigueScore, Round((fitnessScore - fatigueScore) as real));
  }
}
