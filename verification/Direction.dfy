/** Sound direction: the ring of recent samples and the choice made from the fresh ones. */
module Direction {
  import opened Bytes

  const HISTORY_FRAMES := 24
  const MAX_AGE_US := 1500 * 1000
  const BUCKETS := 10

  datatype Sample = Sample(degrees: int, energy: uint32, difference: nat, capturedUs: int)

  /** The conversion to `int16_t`. */
  function Int16(x: int): int {
    var raw := x % TWO_TO_THE_16;
    if raw < 0x8000 then raw else raw - TWO_TO_THE_16
  }

  predicate Fresh(s: Sample, nowUs: int) {
    s.capturedUs > 0 && 0 <= nowUs - s.capturedUs <= MAX_AGE_US
  }

  function Clamp(x: int, lo: int, hi: int): int { if x < lo then lo else if x > hi then hi else x }

  /** C's division by 20, towards zero. */
  function Div20(x: int): int { if x >= 0 then x / 20 else -(-x / 20) }

  /** The bucket the first pass computes, from clamped degrees. */
  function SurveyBucket(degrees: int): (b: int)
    ensures 0 <= b < BUCKETS
  {
    Clamp(Div20(Clamp(degrees, 0, 180) + 10), 0, 9)
  }

  /** The bucket the second pass computes, from the stored degrees. */
  function PickBucket(degrees: int): (b: int)
    ensures 0 <= b < BUCKETS
  {
    Clamp(Div20(degrees + 10), 0, 9)
  }

  lemma {:induction false} BucketsAgree(degrees: int)
    ensures SurveyBucket(degrees) == PickBucket(degrees)
  {
  }

  // ---------------------------------------------------------------- what is to be chosen

  /** The fresh energy in a bucket, over the first `n` samples. */
  function EnergyIn(h: seq<Sample>, nowUs: int, bucket: int, n: nat): nat
    requires n <= |h|
  {
    if n == 0 then 0
    else
      EnergyIn(h, nowUs, bucket, n - 1) +
      if Fresh(h[n - 1], nowUs) && SurveyBucket(h[n - 1].degrees) == bucket then h[n - 1].energy else 0
  }

  function At(energy: seq<nat>, bucket: int): nat {
    if 0 <= bucket < |energy| then energy[bucket] else 0
  }

  /** A bucket and its two neighbours. */
  function Around(energy: seq<nat>, bucket: int): nat {
    At(energy, bucket) + At(energy, bucket - 1) + At(energy, bucket + 1)
  }

  function Energies(h: seq<Sample>, nowUs: int): (e: seq<nat>)
    ensures |e| == BUCKETS
  {
    seq(BUCKETS, b requires 0 <= b < BUCKETS => EnergyIn(h, nowUs, b, |h|))
  }

  /** A bucket whose neighbourhood has the most energy; the first such one. */
  ghost predicate IsBest(energy: seq<nat>, best: int) {
    && 0 <= best < BUCKETS
    && (forall b :: 0 <= b < BUCKETS ==> Around(energy, b) <= Around(energy, best))
    && (forall b :: 0 <= b < best ==> Around(energy, b) < Around(energy, best))
  }

  predicate InCluster(s: Sample, nowUs: int, best: int) {
    Fresh(s, nowUs) && best - 1 <= PickBucket(s.degrees) <= best + 1
  }

  /** A fresh sample of the cluster with the most energy; the first such one. */
  ghost predicate IsPick(h: seq<Sample>, nowUs: int, best: int, k: int) {
    && 0 <= k < |h| && InCluster(h[k], nowUs, best)
    && (forall i :: 0 <= i < |h| && InCluster(h[i], nowUs, best) ==> h[i].energy <= h[k].energy)
    && (forall i :: 0 <= i < k && InCluster(h[i], nowUs, best) ==> h[i].energy < h[k].energy)
  }

  lemma {:induction false} EnergyIsCounted(h: seq<Sample>, nowUs: int, i: nat, n: nat)
    requires i < n <= |h| && Fresh(h[i], nowUs)
    ensures EnergyIn(h, nowUs, SurveyBucket(h[i].degrees), n) >= h[i].energy
  {
    if i < n - 1 {
      EnergyIsCounted(h, nowUs, i, n - 1);
    }
  }

  lemma {:induction false} EnergyHasASample(h: seq<Sample>, nowUs: int, bucket: int, n: nat) returns (i: nat)
    requires n <= |h| && EnergyIn(h, nowUs, bucket, n) > 0
    ensures i < n && Fresh(h[i], nowUs) && SurveyBucket(h[i].degrees) == bucket && h[i].energy > 0
  {
    var s := h[n - 1];
    if Fresh(s, nowUs) && SurveyBucket(s.degrees) == bucket && s.energy > 0 {
      i := n - 1;
    } else {
      i := EnergyHasASample(h, nowUs, bucket, n - 1);
    }
  }

  /** If any fresh sample has energy, so has the best neighbourhood, and with it a sample of the
      cluster. */
  lemma {:induction false} ClusterHasEnergy(h: seq<Sample>, nowUs: int, best: int, i: nat) returns (k: nat)
    requires IsBest(Energies(h, nowUs), best)
    requires i < |h| && Fresh(h[i], nowUs) && h[i].energy > 0
    ensures k < |h| && InCluster(h[k], nowUs, best) && h[k].energy > 0
  {
    var energy := Energies(h, nowUs);
    var b := SurveyBucket(h[i].degrees);
    EnergyIsCounted(h, nowUs, i, |h|);
    assert Around(energy, b) <= Around(energy, best);
    var c := if At(energy, best) > 0 then best else if At(energy, best - 1) > 0 then best - 1 else best + 1;
    k := EnergyHasASample(h, nowUs, c, |h|);
    BucketsAgree(h[k].degrees);
  }

  /** What the selection returns for a history: without fresh samples the latest direction if that is
      fresh; with fresh energy the pick of the best cluster; with silent fresh samples straight ahead. */
  ghost predicate Selected(h: seq<Sample>, nowUs: int, best: int, k: int, degrees: int) {
    if exists i :: 0 <= i < |h| && Fresh(h[i], nowUs) && h[i].energy > 0 then
      && IsBest(Energies(h, nowUs), best) && IsPick(h, nowUs, best, k)
      && h[k].energy > 0 && degrees == h[k].degrees
    else degrees == 90
  }

  predicate IsPeakAt(h: seq<Sample>, nowUs: int, i: nat, energy: nat, degrees: int)
    requires i < |h|
  {
    Fresh(h[i], nowUs) && h[i].energy == energy && degrees == Clamp(h[i].degrees, 0, 180)
  }

  /** Some fresh sample among the first `n` has this energy and these clamped degrees. */
  ghost predicate IsPeak(h: seq<Sample>, nowUs: int, n: nat, energy: nat, degrees: int)
    requires n <= |h|
  {
    exists i :: 0 <= i < n && IsPeakAt(h, nowUs, i, energy, degrees)
  }

  /** The slot that is written next holds none of the last 23 samples. */
  lemma {:induction false} SlotsDiffer(i: int, n: nat)
    requires n - HISTORY_FRAMES < i < n
    ensures i % HISTORY_FRAMES != n % HISTORY_FRAMES
  {
  }

  // ---------------------------------------------------------------- the history

  /** `stored` is the history of all samples ever stored. */
  class DirectionHistory {
    const history: array<Sample>
    var next: nat
    var count: nat
    var latestValid: bool
    var latestDegrees: int
    var latestUs: int
    ghost var stored: seq<Sample>

    /** The ring holds the last 24 samples, each in the slot its number falls into. */
    ghost predicate Valid()
      reads this, history
    {
      && history.Length == HISTORY_FRAMES
      && count == Min(|stored|, HISTORY_FRAMES) && next == |stored| % HISTORY_FRAMES
      && (forall i :: |stored| - count <= i < |stored| ==> history[i % HISTORY_FRAMES] == stored[i])
    }

    constructor ()
      ensures Valid() && fresh(history) && stored == [] && !latestValid
    {
      history := new Sample[HISTORY_FRAMES](_ => Sample(0, 0, 0, 0));
      next, count, latestValid, latestDegrees, latestUs, stored := 0, 0, false, 0, 0, [];
    }

    method Store(degrees: int, energy: uint32, difference: nat, capturedUs: int)
      requires Valid()
      modifies this, history
      ensures Valid() && stored == old(stored) + [Sample(Int16(degrees), energy, difference, capturedUs)]
      ensures latestValid && latestDegrees == degrees && latestUs == capturedUs
    {
      ghost var n := |stored|;
      forall i | n - HISTORY_FRAMES < i < n
        ensures i % HISTORY_FRAMES != n % HISTORY_FRAMES
      {
        SlotsDiffer(i, n);
      }
      latestDegrees, latestUs, latestValid := degrees, capturedUs, true;
      var sample := Sample(Int16(degrees), energy, difference, capturedUs);
      history[next] := sample;
      stored := stored + [sample];
      next := (next + 1) % HISTORY_FRAMES;
      if count < HISTORY_FRAMES {
        count := count + 1;
      }
    }

    /** The first pass: bucket energies, the number of fresh samples, and the loudest of them. */
    method Survey(nowUs: int) returns (energy: seq<nat>, sampleCount: nat, peakEnergy: nat, peakDegrees: int)
      requires Valid()
      ensures energy == Energies(history[..count], nowUs)
      ensures sampleCount == 0 <==> forall i :: 0 <= i < count ==> !Fresh(history[i], nowUs)
      ensures forall i :: 0 <= i < count && Fresh(history[i], nowUs) ==> history[i].energy <= peakEnergy
      ensures peakEnergy == 0 ==> peakDegrees == 90
      ensures peakEnergy > 0 ==> IsPeak(history[..count], nowUs, count, peakEnergy, peakDegrees)
    {
      ghost var h := history[..count];
      var buckets := new nat[BUCKETS](_ => 0);
      sampleCount, peakEnergy, peakDegrees := 0, 0, 90;
      for index := 0 to count
        invariant fresh(buckets) && history[..count] == h
        invariant forall b :: 0 <= b < BUCKETS ==> buckets[b] == EnergyIn(h, nowUs, b, index)
        invariant sampleCount == 0 <==> forall i :: 0 <= i < index ==> !Fresh(h[i], nowUs)
        invariant forall i :: 0 <= i < index && Fresh(h[i], nowUs) ==> h[i].energy <= peakEnergy
        invariant peakEnergy == 0 ==> peakDegrees == 90
        invariant peakEnergy > 0 ==> IsPeak(h, nowUs, index, peakEnergy, peakDegrees)
      {
        var sample := history[index];
        assert sample == h[index];
        if sample.capturedUs <= 0 || nowUs - sample.capturedUs < 0 || nowUs - sample.capturedUs > MAX_AGE_US {
          continue;
        }
        var degrees := Clamp(sample.degrees, 0, 180);
        var bucket := (degrees + 10) / 20;
        if bucket > 9 {
          bucket := 9;
        }
        buckets[bucket] := buckets[bucket] + sample.energy;
        sampleCount := sampleCount + 1;
        if sample.energy > peakEnergy {
          assert IsPeakAt(h, nowUs, index, sample.energy, degrees);
          peakEnergy, peakDegrees := sample.energy, degrees;
        }
      }
      energy := buckets[..];
    }

    /** The second pass, over the same history. */
    method Pick(nowUs: int, best: int, peakDegrees: int) returns (degrees: int, ghost k: int)
      requires Valid()
      ensures k >= 0 ==> IsPick(history[..count], nowUs, best, k) && history[..count][k].energy > 0
                         && degrees == history[..count][k].degrees
      ensures k < 0 ==> degrees == peakDegrees
                        && forall i :: 0 <= i < count && InCluster(history[i], nowUs, best) ==> history[i].energy == 0
    {
      degrees, k := peakDegrees, -1;
      var selectedEnergy := 0;
      for index := 0 to count
        invariant -1 <= k < index
        invariant k >= 0 ==> InCluster(history[k], nowUs, best) && history[k].energy == selectedEnergy > 0
                             && degrees == history[k].degrees
        invariant k < 0 ==> selectedEnergy == 0 && degrees == peakDegrees
        invariant forall i :: 0 <= i < index && InCluster(history[i], nowUs, best) ==> history[i].energy <= selectedEnergy
        invariant forall i :: 0 <= i < k && InCluster(history[i], nowUs, best) ==> history[i].energy < selectedEnergy
      {
        var sample := history[index];
        if sample.capturedUs <= 0 || nowUs - sample.capturedUs < 0 || nowUs - sample.capturedUs > MAX_AGE_US {
          continue;
        }
        var bucket := Div20(sample.degrees + 10);
        if bucket < 0 {
          bucket := 0;
        } else if bucket > 9 {
          bucket := 9;
        }
        if bucket >= best - 1 && bucket <= best + 1 && sample.energy > selectedEnergy {
          selectedEnergy, degrees := sample.energy, sample.degrees;
          k := index;
        }
      }
    }

    /** `wake_word_select_direction`, if nothing is stored between its two passes. */
    method SelectDirection(nowUs: int) returns (found: bool, degrees: int, ghost best: int, ghost k: int)
      requires Valid()
      ensures (forall i :: 0 <= i < count ==> !Fresh(history[i], nowUs)) ==>
                && found == (latestValid && 0 <= nowUs - latestUs <= MAX_AGE_US)
                && (found ==> degrees == latestDegrees)
      ensures (exists i :: 0 <= i < count && Fresh(history[i], nowUs)) ==>
                found && Selected(history[..count], nowUs, best, k, degrees)
    {
      best, k := 0, -1;
      var energy, sampleCount, peakEnergy, peakDegrees := Survey(nowUs);
      if sampleCount == 0 {
        found := latestValid && nowUs >= latestUs && nowUs - latestUs <= MAX_AGE_US;
        degrees := latestDegrees;
        return;
      }
      var bestBucket := BestNeighbourhood(energy);
      best := bestBucket;
      degrees, k := Pick(nowUs, bestBucket, peakDegrees);
      found := true;
      ghost var h := history[..count];
      if i :| 0 <= i < |h| && Fresh(h[i], nowUs) && h[i].energy > 0 {
        var j := ClusterHasEnergy(h, nowUs, best, i);
        assert h[j] == history[j];
      }
    }
  }

  /** The scan for the best neighbourhood. */
  method BestNeighbourhood(energy: seq<nat>) returns (best: int)
    requires |energy| == BUCKETS
    ensures IsBest(energy, best)
  {
    best := 0;
    var most := 0;
    for bucket := 0 to BUCKETS
      invariant 0 <= best < BUCKETS && best <= bucket
      invariant most == (if bucket == 0 then 0 else Around(energy, best)) || (most == 0 && best == 0)
      invariant forall b :: 0 <= b < bucket ==> Around(energy, b) <= most
      invariant forall b :: 0 <= b < best ==> Around(energy, b) < most
      invariant most <= Around(energy, best)
    {
      var around := energy[bucket];
      if bucket > 0 {
        around := around + energy[bucket - 1];
      }
      if bucket < 9 {
        around := around + energy[bucket + 1];
      }
      if around > most {
        most, best := around, bucket;
      }
    }
  }
}
