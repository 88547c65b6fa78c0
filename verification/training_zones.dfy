/**
 * Zone classifier: time-in-zone buckets for a power stream (seven zones, ratios of FTP)
 * or a heart-rate stream (five zones, ratios of LTHR).
 */
module TrainingZones {
  import opened Common

  /** Seconds per zone; z6 and z7 exist only on power distributions. */
  datatype ZoneDistribution = ZoneDistribution(
    z1: nat, z2: nat, z3: nat, z4: nat, z5: nat, z6: Option<nat>, z7: Option<nat>)

  /** An absent bucket reads as 0 (the source's `zones.zK || 0`). */
  function OrZero(o: Option<nat>): nat {
    if o.Some? then o.value else 0
  }

  /** The value of bucket `k`, absent buckets read as 0. */
  function Bucket(z: ZoneDistribution, k: int): nat {
    if k == 1 then z.z1
    else if k == 2 then z.z2
    else if k == 3 then z.z3
    else if k == 4 then z.z4
    else if k == 5 then z.z5
    else if k == 6 then OrZero(z.z6)
    else if k == 7 then OrZero(z.z7)
    else 0
  }

  /** Sum over all present buckets. */
  function ZoneTotal(z: ZoneDistribution): nat {
    z.z1 + z.z2 + z.z3 + z.z4 + z.z5 + OrZero(z.z6) + OrZero(z.z7)
  }

  /** A fresh all-zero record, with the two power-only buckets when asked for. */
  function InitZones(includeHighZones: bool): (z: ZoneDistribution)
    ensures forall k :: 1 <= k <= 7 ==> Bucket(z, k) == 0
    ensures z.z6.Some? == includeHighZones && z.z7.Some? == includeHighZones
  {
    if includeHighZones then ZoneDistribution(0, 0, 0, 0, 0, Some(0), Some(0))
    else ZoneDistribution(0, 0, 0, 0, 0, None, None)
  }

  datatype Scale = Power | HeartRate

  function ZoneCount(scale: Scale): nat {
    match scale
    case Power => 7
    case HeartRate => 5
  }

  /** Lower bound of zone `k` as a fraction of the threshold (zone 1 has none). */
  function LowerRatio(scale: Scale, k: int): real
    requires 2 <= k <= ZoneCount(scale)
  {
    match scale
    case Power =>
      if k == 2 then 0.55 else if k == 3 then 0.75 else if k == 4 then 0.9
      else if k == 5 then 1.05 else if k == 6 then 1.2 else 1.5
    case HeartRate =>
      if k == 2 then 0.68 else if k == 3 then 0.83 else if k == 4 then 0.94 else 1.03
  }

  /** Zone `k` is the band [LowerRatio(k)·t, LowerRatio(k+1)·t): lower bound inclusive, upper exclusive. */
  predicate InZone(scale: Scale, x: real, t: real, k: int) {
    && 1 <= k <= ZoneCount(scale)
    && (k == 1 || LowerRatio(scale, k) * t <= x)
    && (k == ZoneCount(scale) || x < LowerRatio(scale, k + 1) * t)
  }

  /** The if/else ladder of the source: the zone one sample lands in. */
  function ZoneOf(scale: Scale, x: real, t: real): (k: int)
    ensures InZone(scale, x, t, k)
    ensures t > 0.0 ==> forall j :: InZone(scale, x, t, j) ==> j == k
  {
    match scale
    case Power =>
      if x < 0.55 * t then 1
      else if x < 0.75 * t then 2
      else if x < 0.9 * t then 3
      else if x < 1.05 * t then 4
      else if x < 1.2 * t then 5
      else if x < 1.5 * t then 6
      else 7
    case HeartRate =>
      if x < 0.68 * t then 1
      else if x < 0.83 * t then 2
      else if x < 0.94 * t then 3
      else if x < 1.03 * t then 4
      else 5
  }

  /** How many of `samples` land in zone `k`. */
  function CountInZone(scale: Scale, samples: seq<real>, t: real, k: int): nat
  {
    if |samples| == 0 then 0
    else
      CountInZone(scale, samples[..|samples| - 1], t, k)
      + (if ZoneOf(scale, samples[|samples| - 1], t) == k then 1 else 0)
  }

  /** Sum of the counts of every zone of the scale. */
  function CountedSamples(scale: Scale, samples: seq<real>, t: real): nat {
    match scale
    case Power =>
      CountInZone(scale, samples, t, 1) + CountInZone(scale, samples, t, 2) + CountInZone(scale, samples, t, 3)
      + CountInZone(scale, samples, t, 4) + CountInZone(scale, samples, t, 5) + CountInZone(scale, samples, t, 6)
      + CountInZone(scale, samples, t, 7)
    case HeartRate =>
      CountInZone(scale, samples, t, 1) + CountInZone(scale, samples, t, 2) + CountInZone(scale, samples, t, 3)
      + CountInZone(scale, samples, t, 4) + CountInZone(scale, samples, t, 5)
  }

  /** Every sample is counted in exactly one zone: the counts add up to the number of samples. */
  lemma {:induction false} CountsCoverSamples(scale: Scale, samples: seq<real>, t: real)
    ensures CountedSamples(scale, samples, t) == |samples|
  {
    if |samples| > 0 {
      CountsCoverSamples(scale, samples[..|samples| - 1], t);
    }
  }

  /** A larger sample never lands in a lower zone. */
  lemma ZoneOfMonotone(scale: Scale, x: real, y: real, t: real)
    requires t > 0.0 && x <= y
    ensures ZoneOf(scale, x, t) <= ZoneOf(scale, y, t)
  {
  }

  /** The boundary cases: exactly 1.2·FTP is zone 6, from 1.5·FTP on zone 7, from 1.03·LTHR on zone 5. */
  lemma ZoneBoundaries(t: real, x: real)
    requires t > 0.0
    ensures ZoneOf(Power, 1.2 * t, t) == 6
    ensures ZoneOf(Power, 1.05 * t, t) == 5
    ensures x >= 1.5 * t ==> ZoneOf(Power, x, t) == 7
    ensures x >= 1.03 * t ==> ZoneOf(HeartRate, x, t) == 5
  {
  }

  predicate UsableThreshold(t: Option<real>) {
    t.Some? && t.value > 0.0
  }

  /** Time in the seven Coggan power zones; a missing or non-positive FTP gives all zeros. */
  method ComputeTimeInPowerZones(watts: seq<real>, ftp: Option<real>) returns (zones: ZoneDistribution)
    ensures zones.z6.Some? && zones.z7.Some?
    ensures !UsableThreshold(ftp) ==> ZoneTotal(zones) == 0
    ensures UsableThreshold(ftp) ==>
      forall k :: 1 <= k <= 7 ==> Bucket(zones, k) == CountInZone(Power, watts, ftp.value, k)
    ensures UsableThreshold(ftp) ==> ZoneTotal(zones) == |watts|
  {
    zones := InitZones(true);
    if ftp.None? || ftp.value <= 0.0 {
      return;
    }
    var t := ftp.value;
    var i := 0;
    while i < |watts|
      invariant 0 <= i <= |watts|
      invariant zones.z6.Some? && zones.z7.Some?
      invariant forall k :: 1 <= k <= 7 ==> Bucket(zones, k) == CountInZone(Power, watts[..i], t, k)
    {
      var w := watts[i];
      if w < 0.55 * t {
        zones := zones.(z1 := zones.z1 + 1);
      } else if w < 0.75 * t {
        zones := zones.(z2 := zones.z2 + 1);
      } else if w < 0.9 * t {
        zones := zones.(z3 := zones.z3 + 1);
      } else if w < 1.05 * t {
        zones := zones.(z4 := zones.z4 + 1);
      } else if w < 1.2 * t {
        zones := zones.(z5 := zones.z5 + 1);
      } else if w < 1.5 * t {
        zones := zones.(z6 := Some(zones.z6.value + 1));
      } else {
        zones := zones.(z7 := Some(zones.z7.value + 1));
      }
      assert watts[..i + 1][..i] == watts[..i];
      i := i + 1;
    }
    assert watts[..i] == watts;
    CountsCoverSamples(Power, watts, t);
  }

  /** Time in the five heart-rate zones; z6 and z7 stay absent. */
  method ComputeTimeInHrZones(hr: seq<real>, lthr: Option<real>) returns (zones: ZoneDistribution)
    ensures zones.z6.None? && zones.z7.None?
    ensures !UsableThreshold(lthr) ==> ZoneTotal(zones) == 0
    ensures UsableThreshold(lthr) ==>
      forall k :: 1 <= k <= 5 ==> Bucket(zones, k) == CountInZone(HeartRate, hr, lthr.value, k)
    ensures UsableThreshold(lthr) ==> ZoneTotal(zones) == |hr|
  {
    zones := InitZones(false);
    if lthr.None? || lthr.value <= 0.0 {
      return;
    }
    var t := lthr.value;
    var i := 0;
    while i < |hr|
      invariant 0 <= i <= |hr|
      invariant zones.z6.None? && zones.z7.None?
      invariant forall k :: 1 <= k <= 5 ==> Bucket(zones, k) == CountInZone(HeartRate, hr[..i], t, k)
    {
      var x := hr[i];
      if x < 0.68 * t {
        zones := zones.(z1 := zones.z1 + 1);
      } else if x < 0.83 * t {
        zones := zones.(z2 := zones.z2 + 1);
      } else if x < 0.94 * t {
        zones := zones.(z3 := zones.z3 + 1);
      } else if x < 1.03 * t {
        zones := zones.(z4 := zones.z4 + 1);
      } else {
        zones := zones.(z5 := zones.z5 + 1);
      }
      assert hr[..i + 1][..i] == hr[..i];
      i := i + 1;
    }
    assert hr[..i] == hr;
    CountsCoverSamples(HeartRate, hr, t);
  }
}
