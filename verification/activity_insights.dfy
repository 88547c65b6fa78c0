/**
 * Per-activity insight: intensity class, training load and note analysis of one stored activity.
 */
module ActivityInsights {
  import opened Common
  import opened TrainingZones
  import opened PrivateNotes

  datatype Intensity = Easy | Moderate | Hard | VeryHard

  /** Position of an intensity on the scale easy < moderate < hard < very hard. */
  function Rank(i: Intensity): nat {
    match i
    case Easy => 0
    case Moderate => 1
    case Hard => 2
    case VeryHard => 3
  }

  /** A stored activity as far as the analysis reads it; times in seconds, distance in metres. */
  datatype Activity = Activity(
    id: string,
    startDate: int,
    kind: string,
    movingTime: real,
    distance: real,
    privateNote: Option<string>,
    averagePower: Option<real>,
    averageHeartrate: Option<real>,
    powerZones: Option<ZoneDistribution>,
    hrZones: Option<ZoneDistribution>)

  /** The derived record of one activity; duration in minutes, distance in km. */
  datatype ActivityInsight = ActivityInsight(
    activityId: string,
    date: int,
    kind: string,
    duration: int,
    distance: real,
    intensity: Intensity,
    zones: Option<ZoneDistribution>,
    noteKeywords: seq<string>,
    noteSentiment: Option<Sentiment>,
    trainingLoad: int)

  /** An optional number that is present and non-zero (a truthy JavaScript value). */
  predicate Truthy(x: Option<real>) {
    x.Some? && x.value != 0.0
  }

  /** Power zones when present, otherwise heart-rate zones, otherwise none. */
  function SelectZones(a: Activity): Option<ZoneDistribution> {
    if a.powerZones.Some? then a.powerZones else a.hrZones
  }

  function HighZoneTime(z: ZoneDistribution): nat {
    z.z4 + z.z5 + OrZero(z.z6) + OrZero(z.z7)
  }

  /** Intensity from time above threshold (`high`) and in tempo (`moderate`) out of `total`. */
  function ShareIntensity(high: nat, moderate: nat, total: nat): Intensity {
    if total == 0 then Easy
    else
      var highPct := high as real / total as real;
      var moderatePct := moderate as real / total as real;
      if highPct > 0.15 then VeryHard
      else if highPct > 0.05 || moderatePct > 0.3 then Hard
      else if moderatePct > 0.1 then Moderate
      else Easy
  }

  /** Intensity of a zone distribution: z4..z7 count as high, z3 as moderate. */
  function ZoneIntensity(z: ZoneDistribution): Intensity {
    ShareIntensity(HighZoneTime(z), z.z3, ZoneTotal(z))
  }

  /** Intensity from an average as a fraction of its threshold, with strict lower bounds. */
  function RatioIntensity(ratio: real, veryHard: real, hard: real, moderate: real): Intensity {
    if ratio > veryHard then VeryHard
    else if ratio > hard then Hard
    else if ratio > moderate then Moderate
    else Easy
  }

  /** Intensity guessed from the ride's length in hours. */
  function DurationIntensity(hours: real): Intensity {
    if hours < 0.5 then Easy
    else if hours < 1.5 then Moderate
    else if hours < 2.5 then Hard
    else VeryHard
  }

  /** Zones first, then average power against FTP, then average heart rate against LTHR, then duration. */
  function CalculateIntensity(a: Activity, zones: Option<ZoneDistribution>, ftp: real, lthr: real): Intensity {
    if zones.Some? then ZoneIntensity(zones.value)
    else if Truthy(a.averagePower) && ftp > 0.0 then RatioIntensity(a.averagePower.value / ftp, 0.95, 0.75, 0.55)
    else if Truthy(a.averageHeartrate) && lthr > 0.0 then
      RatioIntensity(a.averageHeartrate.value / lthr, 1.0, 0.85, 0.7)
    else DurationIntensity(a.movingTime / 3600.0)
  }

  /** A zone distribution decides on its own: averages and duration are not looked at. */
  lemma ZonesDecideIntensity(a: Activity, b: Activity, z: ZoneDistribution, ftp: real, lthr: real)
    ensures CalculateIntensity(a, Some(z), ftp, lthr) == CalculateIntensity(b, Some(z), ftp, lthr)
    ensures CalculateIntensity(a, Some(z), ftp, lthr) == ZoneIntensity(z)
  {
  }

  /** A distribution with no time in any zone is easy. */
  lemma ZeroZoneTimeIsEasy(z: ZoneDistribution)
    requires ZoneTotal(z) == 0
    ensures ZoneIntensity(z) == Easy
  {
  }

  /**
   * The zone ladder with its strict thresholds, in integer form: with `t` the total time, `h` the
   * time in zones 4 to 7 and `m` the time in zone 3, very hard is h/t > 15 %, hard is h/t > 5 % or
   * m/t > 30 %, moderate is m/t > 10 %, and everything else is easy.
   */
  lemma ZoneLadder(z: ZoneDistribution)
    requires ZoneTotal(z) > 0
    ensures var t, h, m := ZoneTotal(z), HighZoneTime(z), z.z3;
      && (ZoneIntensity(z) == VeryHard <==> 20 * h > 3 * t)
      && (ZoneIntensity(z) == Hard <==> 20 * h <= 3 * t && (20 * h > t || 10 * m > 3 * t))
      && (ZoneIntensity(z) == Moderate <==> 20 * h <= t && 10 * m <= 3 * t && 10 * m > t)
      && (ZoneIntensity(z) == Easy <==> 20 * h <= t && 10 * m <= t)
  {
    var total := ZoneTotal(z) as real;
    DivAbove(HighZoneTime(z) as real, total, 0.15);
    DivAbove(HighZoneTime(z) as real, total, 0.05);
    DivAbove(z.z3 as real, total, 0.3);
    DivAbove(z.z3 as real, total, 0.1);
  }

  /** Without zones, a usable average power hides heart rate and duration. */
  lemma PowerBeforeHeartRate(a: Activity, b: Activity, ftp: real, lthr: real)
    requires a.averagePower == b.averagePower && Truthy(a.averagePower) && ftp > 0.0
    ensures CalculateIntensity(a, None, ftp, lthr) == CalculateIntensity(b, None, ftp, lthr)
  {
  }

  /** Without zones or usable power, a usable average heart rate hides the duration. */
  lemma HeartRateBeforeDuration(a: Activity, b: Activity, ftp: real, lthr: real)
    requires !(Truthy(a.averagePower) && ftp > 0.0) && !(Truthy(b.averagePower) && ftp > 0.0)
    requires a.averageHeartrate == b.averageHeartrate && Truthy(a.averageHeartrate) && lthr > 0.0
    ensures CalculateIntensity(a, None, ftp, lthr) == CalculateIntensity(b, None, ftp, lthr)
  {
  }

  /** A higher average ratio never gives a lower intensity. */
  lemma RatioIntensityMonotone(r1: real, r2: real, veryHard: real, hard: real, moderate: real)
    requires r1 <= r2 && moderate <= hard <= veryHard
    ensures Rank(RatioIntensity(r1, veryHard, hard, moderate)) <= Rank(RatioIntensity(r2, veryHard, hard, moderate))
  {
  }

  /** A longer ride never gives a lower duration-based intensity. */
  lemma DurationIntensityMonotone(h1: real, h2: real)
    requires h1 <= h2
    ensures Rank(DurationIntensity(h1)) <= Rank(DurationIntensity(h2))
  {
  }

  /** The bounds are strict: exactly 0.95·FTP is still hard, exactly LTHR is still hard. */
  lemma RatioBoundariesAreStrict(ftp: real, lthr: real)
    requires ftp > 0.0 && lthr > 0.0
    ensures RatioIntensity(0.95 * ftp / ftp, 0.95, 0.75, 0.55) == Hard
    ensures RatioIntensity(lthr / lthr, 1.0, 0.85, 0.7) == Hard
  {
  }

  function ScaleZones(z: ZoneDistribution, c: nat): ZoneDistribution {
    ZoneDistribution(c * z.z1, c * z.z2, c * z.z3, c * z.z4, c * z.z5,
      if z.z6.Some? then Some(c * z.z6.value) else None,
      if z.z7.Some? then Some(c * z.z7.value) else None)
  }

  /** Multiplication distributes over one addition. */
  lemma MulAdd(c: int, a: int, b: int)
    ensures c * (a + b) == c * a + c * b
  {
  }

  lemma ScaledSums(z: ZoneDistribution, c: nat)
    ensures ZoneTotal(ScaleZones(z, c)) == c * ZoneTotal(z)
    ensures HighZoneTime(ScaleZones(z, c)) == c * HighZoneTime(z)
    ensures ScaleZones(z, c).z3 == c * z.z3
  {
    var s := ScaleZones(z, c);
    var top := OrZero(z.z6) + OrZero(z.z7);
    var high := z.z4 + z.z5 + top;
    var low := z.z1 + z.z2 + z.z3;
    assert OrZero(s.z6) + OrZero(s.z7) == c * top by {
      MulAdd(c, OrZero(z.z6), OrZero(z.z7));
    }
    assert HighZoneTime(s) == c * high by {
      MulAdd(c, z.z4 + z.z5, top);
      MulAdd(c, z.z4, z.z5);
    }
    assert s.z1 + s.z2 + s.z3 == c * low by {
      MulAdd(c, z.z1 + z.z2, z.z3);
      MulAdd(c, z.z1, z.z2);
    }
    assert ZoneTotal(z) == low + high;
    MulAdd(c, low, high);
  }

  /** Only the shares of time matter: multiplying every bucket by the same factor keeps the intensity. */
  lemma {:induction false} ZoneIntensityScaleInvariant(z: ZoneDistribution, c: nat)
    requires c > 0
    ensures ZoneIntensity(ScaleZones(z, c)) == ZoneIntensity(z)
  {
    ScaledSums(z, c);
    ShareIntensityScaleInvariant(HighZoneTime(z), z.z3, ZoneTotal(z), c);
  }

  lemma ShareIntensityScaleInvariant(high: nat, moderate: nat, total: nat, c: nat)
    requires c > 0
    ensures ShareIntensity(c * high, c * moderate, c * total) == ShareIntensity(high, moderate, total)
  {
    if total > 0 {
      ScaledShare(high, total, c);
      ScaledShare(moderate, total, c);
      SameSharesSameIntensity(c * high, c * moderate, c * total, high, moderate, total);
    }
  }

  lemma SameSharesSameIntensity(h1: nat, m1: nat, t1: nat, h2: nat, m2: nat, t2: nat)
    requires t1 > 0 && t2 > 0
    requires h1 as real / t1 as real == h2 as real / t2 as real
    requires m1 as real / t1 as real == m2 as real / t2 as real
    ensures ShareIntensity(h1, m1, t1) == ShareIntensity(h2, m2, t2)
  {
  }

  /** `(c·x)/(c·t) = x/t` for naturals read as reals. */
  lemma ScaledShare(x: nat, t: nat, c: nat)
    requires t > 0 && c > 0
    ensures (c * x) as real / (c * t) as real == x as real / t as real
  {
    var cr, xr, tr := c as real, x as real, t as real;
    assert (c * x) as real == cr * xr;
    assert (c * t) as real == cr * tr;
    assert (cr * xr) / (cr * tr) == xr / tr;
  }

  function Multiplier(i: Intensity): real {
    match i
    case Easy => 1.0
    case Moderate => 1.5
    case Hard => 2.0
    case VeryHard => 2.5
  }

  /** Zone number weighted by time in it. */
  function WeightedZoneTime(z: ZoneDistribution): nat {
    z.z1 + 2 * z.z2 + 3 * z.z3 + 4 * z.z4 + 5 * z.z5 + 6 * OrZero(z.z6) + 7 * OrZero(z.z7)
  }

  /** Time-weighted mean zone number. */
  function AverageZone(z: ZoneDistribution): (r: real)
    requires ZoneTotal(z) > 0
    ensures 1.0 <= r <= 7.0
  {
    var total := ZoneTotal(z) as real;
    var weighted := WeightedZoneTime(z) as real;
    assert total <= weighted <= 7.0 * total;
    QuotientBounds(weighted, total, 1.0, 7.0);
    weighted / total
  }

  lemma QuotientBounds(w: real, t: real, lo: real, hi: real)
    requires t > 0.0 && lo * t <= w <= hi * t
    ensures lo <= w / t <= hi
  {
    var q := w / t;
    assert q * t == w;
  }

  /** Time-weighted mean zone, when the distribution has any time at all. */
  function MeanZone(zones: Option<ZoneDistribution>): (m: Option<real>)
    ensures m.Some? ==> 1.0 <= m.value <= 7.0
  {
    if zones.Some? && ZoneTotal(zones.value) > 0 then Some(AverageZone(zones.value)) else None
  }

  /**
   * Load before rounding: 20 points per hour times the intensity multiplier; with a mean zone,
   * 70% of that plus 10 points per hour per zone number.
   */
  function BlendedLoad(hours: real, multiplier: real, meanZone: Option<real>): real {
    var load := hours * 20.0 * multiplier;
    if meanZone.Some? then load * 0.7 + meanZone.value * hours * 10.0 else load
  }

  /** The per-hour rate the blended load is proportional to. */
  function LoadRate(multiplier: real, meanZone: Option<real>): real {
    if meanZone.Some? then 20.0 * multiplier * 0.7 + meanZone.value * 10.0 else 20.0 * multiplier
  }

  lemma BlendedLoadIsProportional(hours: real, multiplier: real, meanZone: Option<real>)
    ensures BlendedLoad(hours, multiplier, meanZone) == hours * LoadRate(multiplier, meanZone)
  {
  }

  lemma LoadRatePositive(multiplier: real, meanZone: Option<real>)
    requires multiplier > 0.0 && (meanZone.Some? ==> meanZone.value >= 1.0)
    ensures LoadRate(multiplier, meanZone) > 0.0
  {
  }

  function RawLoad(a: Activity, zones: Option<ZoneDistribution>, intensity: Intensity): real {
    BlendedLoad(a.movingTime / 3600.0, Multiplier(intensity), MeanZone(zones))
  }

  /** Training load score, capped at 100 and never negative for a non-negative moving time. */
  function CalculateTrainingLoad(a: Activity, zones: Option<ZoneDistribution>, intensity: Intensity): (r: int)
    ensures r <= 100
    ensures a.movingTime >= 0.0 ==> r >= 0
  {
    var r := Min(Round(RawLoad(a, zones, intensity)), 100);
    assert a.movingTime >= 0.0 ==> r >= 0 by {
      if a.movingTime >= 0.0 {
        var hours, multiplier, meanZone := a.movingTime / 3600.0, Multiplier(intensity), MeanZone(zones);
        BlendedLoadIsProportional(hours, multiplier, meanZone);
        LoadRatePositive(multiplier, meanZone);
        MulNonneg(hours, LoadRate(multiplier, meanZone));
      }
    }
    r
  }

  /** A longer ride with the same zones and intensity never scores a lower load. */
  lemma LoadMonotoneInDuration(a: Activity, b: Activity, zones: Option<ZoneDistribution>, intensity: Intensity)
    requires a.movingTime <= b.movingTime
    ensures CalculateTrainingLoad(a, zones, intensity) <= CalculateTrainingLoad(b, zones, intensity)
  {
    var ha, hb := a.movingTime / 3600.0, b.movingTime / 3600.0;
    assert ha <= hb;
    BlendedLoadMonotone(ha, hb, Multiplier(intensity), MeanZone(zones));
    RoundMonotone(RawLoad(a, zones, intensity), RawLoad(b, zones, intensity));
  }

  lemma BlendedLoadMonotone(h1: real, h2: real, multiplier: real, meanZone: Option<real>)
    requires h1 <= h2 && multiplier > 0.0 && (meanZone.Some? ==> meanZone.value >= 1.0)
    ensures BlendedLoad(h1, multiplier, meanZone) <= BlendedLoad(h2, multiplier, meanZone)
  {
    BlendedLoadIsProportional(h1, multiplier, meanZone);
    BlendedLoadIsProportional(h2, multiplier, meanZone);
    LoadRatePositive(multiplier, meanZone);
    MulMonotone(h1, h2, LoadRate(multiplier, meanZone));
  }

  /** A distribution with all its time in zone 1 has mean zone 1. */
  lemma MeanZoneOfZoneOne(z: ZoneDistribution)
    requires z.z1 > 0 && z.z2 == z.z3 == z.z4 == z.z5 == 0 && OrZero(z.z6) == 0 && OrZero(z.z7) == 0
    ensures MeanZone(Some(z)) == Some(1.0)
  {
    var t := z.z1 as real;
    assert ZoneTotal(z) as real == t && WeightedZoneTime(z) as real == t;
    DivSelf(t);
    assert AverageZone(z) == 1.0;
  }

  /**
   * The zone term is not scaled by 0.3: one easy hour all in zone 1 scores 0.7·20 + 1·10 = 24,
   * above the 20 points of the same hour without zones.
   */
  lemma ZoneBlendExample(a: Activity, z: ZoneDistribution)
    requires a.movingTime == 3600.0
    requires z.z1 > 0 && z.z2 == z.z3 == z.z4 == z.z5 == 0 && OrZero(z.z6) == 0 && OrZero(z.z7) == 0
    ensures CalculateTrainingLoad(a, Some(z), Easy) == 24
    ensures CalculateTrainingLoad(a, None, Easy) == 20
  {
    MeanZoneOfZoneOne(z);
    assert a.movingTime / 3600.0 == 1.0;
    assert RawLoad(a, Some(z), Easy) == BlendedLoad(1.0, 1.0, Some(1.0)) == 24.0;
    RoundOfInteger(24);
    assert RawLoad(a, None, Easy) == BlendedLoad(1.0, 1.0, None) == 20.0;
    RoundOfInteger(20);
  }

  /** Two hours at very hard intensity already reach the cap. */
  lemma LoadCapExample(a: Activity)
    requires a.movingTime == 7200.0
    ensures CalculateTrainingLoad(a, None, VeryHard) == 100
  {
    assert RawLoad(a, None, VeryHard) == 100.0;
    RoundOfInteger(100);
  }

  /** The insight of one activity, with notes analysed by `NoteKeywords` and `NoteSentiment`. */
  function InsightOf(a: Activity, ftp: real, lthr: real): (r: ActivityInsight)
    ensures r.activityId == a.id && r.date == a.startDate && r.kind == a.kind
    ensures a.powerZones.Some? ==> r.zones == a.powerZones
    ensures a.powerZones.None? ==> r.zones == a.hrZones
    ensures r.trainingLoad <= 100 && (a.movingTime >= 0.0 ==> r.trainingLoad >= 0)
    ensures a.movingTime >= 0.0 ==> r.duration >= 0
    ensures r.noteSentiment.None? <==> Blank(a.privateNote)
  {
    var zones := SelectZones(a);
    var intensity := CalculateIntensity(a, zones, ftp, lthr);
    ActivityInsight(
      a.id, a.startDate, a.kind,
      Round(a.movingTime / 60.0),
      Round(a.distance / 100.0) as real / 10.0,
      intensity, zones,
      NoteKeywords(a.privateNote), NoteSentiment(a.privateNote),
      CalculateTrainingLoad(a, zones, intensity))
  }

  method ProcessActivity(a: Activity, ftp: real, lthr: real) returns (r: ActivityInsight)
    ensures r == InsightOf(a, ftp, lthr)
  {
    var zones := if a.powerZones.Some? then a.powerZones else a.hrZones;
    var intensity := CalculateIntensity(a, zones, ftp, lthr);
    var keywords, sentiment := ProcessPrivateNote(a.privateNote);
    var trainingLoad := CalculateTrainingLoad(a, zones, intensity);
    r := ActivityInsight(
      a.id, a.startDate, a.kind,
      Round(a.movingTime / 60.0),
      Round(a.distance / 1000.0 * 10.0) as real / 10.0,
      intensity, zones, keywords, sentiment, trainingLoad);
  }
}
