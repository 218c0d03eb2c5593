/** Metric scoring: piecewise-linear interpolation over fixed benchmark
    checkpoint tables, each a list of (metric value, 0-100 score) pairs sorted
    by metric value. */
module Benchmarks {
  import opened Common

  datatype Checkpoint = Checkpoint(value: real, score: real)

  /** The tables are sorted by metric value; no two checkpoints share one. */
  predicate StrictlyAscending(cps: seq<Checkpoint>) {
    forall i :: 0 <= i < |cps| - 1 ==> cps[i].value < cps[i + 1].value
  }

  /** A usable table: at least one checkpoint, sorted by metric value. */
  predicate WellFormed(cps: seq<Checkpoint>) {
    |cps| > 0 && StrictlyAscending(cps)
  }

  predicate ScoresNondecreasing(cps: seq<Checkpoint>) {
    forall i :: 0 <= i < |cps| - 1 ==> cps[i].score <= cps[i + 1].score
  }

  predicate ScoresNonincreasing(cps: seq<Checkpoint>) {
    forall i :: 0 <= i < |cps| - 1 ==> cps[i].score >= cps[i + 1].score
  }

  predicate ScoresWithin(cps: seq<Checkpoint>, lo: real, hi: real) {
    forall i :: 0 <= i < |cps| ==> lo <= cps[i].score <= hi
  }

  /** The linear interpolation between two checkpoints at `value`:
      t = (value - v1) / (v2 - v1), then s1 + t * (s2 - s1). */
  function Lerp(c1: Checkpoint, c2: Checkpoint, value: real): real
    requires c1.value < c2.value
  {
    var t := (value - c1.value) / (c2.value - c1.value);
    c1.score + t * (c2.score - c1.score)
  }

  /** The segment scan of interpolateScore from segment `i` on: the
      interpolation on the first segment whose closed range holds `value`,
      or the fallback 50 when no segment does. */
  function ScanSegments(value: real, cps: seq<Checkpoint>, i: nat): real
    requires StrictlyAscending(cps)
    decreases |cps| - i
  {
    if i + 1 >= |cps| then 50.0
    else if cps[i].value <= value <= cps[i + 1].value then Lerp(cps[i], cps[i + 1], value)
    else ScanSegments(value, cps, i + 1)
  }

  /** The score interpolateScore gives `value` on table `cps`: clamped to the
      first score at or below the first checkpoint, to the last score at or
      above the last, and otherwise found by the segment scan. */
  function Interpolate(value: real, cps: seq<Checkpoint>): real
    requires WellFormed(cps)
  {
    if value <= cps[0].value then cps[0].score
    else if value >= cps[|cps| - 1].value then cps[|cps| - 1].score
    else ScanSegments(value, cps, 0)
  }

  /** interpolateScore, with its early returns and loop over the segments. */
  method InterpolateScore(value: real, cps: seq<Checkpoint>) returns (r: real)
    requires WellFormed(cps)
    ensures r == Interpolate(value, cps)
  {
    if value <= cps[0].value {
      return cps[0].score;
    }
    if value >= cps[|cps| - 1].value {
      return cps[|cps| - 1].score;
    }
    var i := 0;
    while i < |cps| - 1
      invariant 0 <= i <= |cps| - 1
      invariant ScanSegments(value, cps, i) == Interpolate(value, cps)
    {
      var v1, s1 := cps[i].value, cps[i].score;
      var v2, s2 := cps[i + 1].value, cps[i + 1].score;
      if value >= v1 && value <= v2 {
        var t := (value - v1) / (v2 - v1);
        return s1 + t * (s2 - s1);
      }
      i := i + 1;
    }
    return 50.0;
  }

  // ---------------------------------------------------------------------------
  // The eight benchmark tables

  /** Higher-is-better metrics. */
  const BarrelPctCheckpoints: seq<Checkpoint> := [
    Checkpoint(0.0, 35.0), Checkpoint(2.0, 55.0), Checkpoint(5.0, 65.0), Checkpoint(8.0, 75.0),
    Checkpoint(12.0, 85.0), Checkpoint(15.0, 95.0), Checkpoint(20.0, 100.0)
  ]

  const ExitVeloCheckpoints: seq<Checkpoint> := [
    Checkpoint(40.0, 30.0), Checkpoint(50.0, 50.0), Checkpoint(55.0, 60.0), Checkpoint(60.0, 70.0),
    Checkpoint(65.0, 80.0), Checkpoint(70.0, 88.0), Checkpoint(75.0, 95.0), Checkpoint(85.0, 100.0)
  ]

  const ContactPctCheckpoints: seq<Checkpoint> := [
    Checkpoint(50.0, 30.0), Checkpoint(60.0, 45.0), Checkpoint(65.0, 55.0), Checkpoint(70.0, 65.0),
    Checkpoint(75.0, 72.0), Checkpoint(80.0, 80.0), Checkpoint(85.0, 88.0), Checkpoint(90.0, 95.0),
    Checkpoint(95.0, 100.0)
  ]

  const BattingAvgCheckpoints: seq<Checkpoint> := [
    Checkpoint(0.0, 20.0), Checkpoint(0.100, 35.0), Checkpoint(0.150, 45.0), Checkpoint(0.200, 58.0),
    Checkpoint(0.250, 70.0), Checkpoint(0.300, 80.0), Checkpoint(0.350, 90.0), Checkpoint(0.400, 97.0),
    Checkpoint(0.500, 100.0)
  ]

  const PitchesPerAbCheckpoints: seq<Checkpoint> := [
    Checkpoint(2.0, 35.0), Checkpoint(2.5, 50.0), Checkpoint(3.0, 60.0), Checkpoint(3.5, 72.0),
    Checkpoint(4.0, 82.0), Checkpoint(4.5, 90.0), Checkpoint(5.0, 97.0), Checkpoint(5.5, 100.0)
  ]

  /** Lower-is-better metrics: still sorted by value, but the score descends. */
  const WhiffRateCheckpoints: seq<Checkpoint> := [
    Checkpoint(5.0, 100.0), Checkpoint(10.0, 95.0), Checkpoint(15.0, 88.0), Checkpoint(20.0, 80.0),
    Checkpoint(25.0, 70.0), Checkpoint(30.0, 60.0), Checkpoint(35.0, 50.0), Checkpoint(45.0, 30.0)
  ]

  const ChaseRateCheckpoints: seq<Checkpoint> := [
    Checkpoint(10.0, 100.0), Checkpoint(15.0, 95.0), Checkpoint(20.0, 88.0), Checkpoint(25.0, 78.0),
    Checkpoint(30.0, 68.0), Checkpoint(35.0, 58.0), Checkpoint(40.0, 48.0), Checkpoint(50.0, 30.0)
  ]

  const CalledStrikeCheckpoints: seq<Checkpoint> := [
    Checkpoint(5.0, 100.0), Checkpoint(10.0, 93.0), Checkpoint(15.0, 85.0), Checkpoint(20.0, 75.0),
    Checkpoint(25.0, 65.0), Checkpoint(30.0, 55.0), Checkpoint(40.0, 35.0)
  ]

  /** The graded metrics of the report card, each with its own table. */
  datatype MetricKind =
    | BarrelPct | ExitVelo | ContactPct | BattingAvg | PitchesPerAb
    | WhiffRate | ChaseRate | CalledStrike

  function TableOf(kind: MetricKind): seq<Checkpoint> {
    match kind
    case BarrelPct => BarrelPctCheckpoints
    case ExitVelo => ExitVeloCheckpoints
    case ContactPct => ContactPctCheckpoints
    case BattingAvg => BattingAvgCheckpoints
    case PitchesPerAb => PitchesPerAbCheckpoints
    case WhiffRate => WhiffRateCheckpoints
    case ChaseRate => ChaseRateCheckpoints
    case CalledStrike => CalledStrikeCheckpoints
  }

  predicate HigherIsBetter(kind: MetricKind) {
    kind in {BarrelPct, ExitVelo, ContactPct, BattingAvg, PitchesPerAb}
  }

  /** Every table is sorted; the higher-is-better ones score upwards and the
      others downwards; every score lies in [20, 100]. */
  lemma TableShape(kind: MetricKind)
    ensures WellFormed(TableOf(kind))
    ensures HigherIsBetter(kind) ==> ScoresNondecreasing(TableOf(kind))
    ensures !HigherIsBetter(kind) ==> ScoresNonincreasing(TableOf(kind))
    ensures ScoresWithin(TableOf(kind), 20.0, 100.0)
  {
    var cps := TableOf(kind);
    forall i | 0 <= i < |cps| - 1
      ensures cps[i].value < cps[i + 1].value
      ensures HigherIsBetter(kind) ==> cps[i].score <= cps[i + 1].score
      ensures !HigherIsBetter(kind) ==> cps[i].score >= cps[i + 1].score
    {
      AdjacentPair(kind, i);
    }
    forall i | 0 <= i < |cps| ensures 20.0 <= cps[i].score <= 100.0 {
      ScoreInRange(kind, i);
    }
  }

  lemma AdjacentPair(kind: MetricKind, i: nat)
    requires i + 1 < |TableOf(kind)|
    ensures TableOf(kind)[i].value < TableOf(kind)[i + 1].value
    ensures HigherIsBetter(kind) ==> TableOf(kind)[i].score <= TableOf(kind)[i + 1].score
    ensures !HigherIsBetter(kind) ==> TableOf(kind)[i].score >= TableOf(kind)[i + 1].score
  {
    var cps := TableOf(kind);
    if i == 0 {} else if i == 1 {} else if i == 2 {} else if i == 3 {}
    else if i == 4 {} else if i == 5 {} else if i == 6 {} else if i == 7 {}
  }

  lemma ScoreInRange(kind: MetricKind, i: nat)
    requires i < |TableOf(kind)|
    ensures 20.0 <= TableOf(kind)[i].score <= 100.0
  {
    if i == 0 {} else if i == 1 {} else if i == 2 {} else if i == 3 {}
    else if i == 4 {} else if i == 5 {} else if i == 6 {} else if i == 7 {} else if i == 8 {}
  }

  // ---------------------------------------------------------------------------
  // Facts about one segment

  lemma LerpEnds(c1: Checkpoint, c2: Checkpoint)
    requires c1.value < c2.value
    ensures Lerp(c1, c2, c1.value) == c1.score
    ensures Lerp(c1, c2, c2.value) == c2.score
  {
    var d := c2.value - c1.value;
    assert d / d == 1.0;
  }

  /** Inside a segment the interpolation stays between the segment's two scores. */
  lemma LerpBetween(c1: Checkpoint, c2: Checkpoint, value: real)
    requires c1.value < c2.value
    requires c1.value <= value <= c2.value
    ensures c1.score <= c2.score ==> c1.score <= Lerp(c1, c2, value) <= c2.score
    ensures c1.score >= c2.score ==> c2.score <= Lerp(c1, c2, value) <= c1.score
  {
    var t := (value - c1.value) / (c2.value - c1.value);
    UnitFraction(value - c1.value, c2.value - c1.value);
    var ds := c2.score - c1.score;
    if ds >= 0.0 {
      assert t * ds >= 0.0;
      assert (1.0 - t) * ds >= 0.0;
    } else {
      assert t * ds <= 0.0;
      assert (1.0 - t) * ds <= 0.0;
    }
  }

  /** On a segment whose score rises, a larger value never scores lower. */
  lemma LerpMonotone(c1: Checkpoint, c2: Checkpoint, x: real, y: real)
    requires c1.value < c2.value && c1.score <= c2.score
    requires x <= y
    ensures Lerp(c1, c2, x) <= Lerp(c1, c2, y)
  {
    var d := c2.value - c1.value;
    var tx, ty := (x - c1.value) / d, (y - c1.value) / d;
    assert tx * d == x - c1.value;
    assert ty * d == y - c1.value;
    assert (ty - tx) * d == y - x;
    assert ty - tx >= 0.0;
    assert (ty - tx) * (c2.score - c1.score) >= 0.0;
  }

  // ---------------------------------------------------------------------------
  // Locating the segment of a value

  lemma {:induction false} AscendingPairwise(cps: seq<Checkpoint>, i: nat, j: nat)
    requires StrictlyAscending(cps)
    requires i < j < |cps|
    ensures cps[i].value < cps[j].value
    decreases j - i
  {
    if i + 1 < j {
      AscendingPairwise(cps, i + 1, j);
    }
  }

  lemma {:induction false} NondecreasingPairwise(cps: seq<Checkpoint>, i: nat, j: nat)
    requires ScoresNondecreasing(cps)
    requires i <= j < |cps|
    ensures cps[i].score <= cps[j].score
    decreases j - i
  {
    if i < j {
      NondecreasingPairwise(cps, i + 1, j);
    }
  }

  /** The scan started at or before segment k, where k is the segment with
      v_k < value <= v_(k+1), interpolates on segment k. */
  lemma {:induction false} ScanOnSegment(value: real, cps: seq<Checkpoint>, i: nat, k: nat)
    requires StrictlyAscending(cps)
    requires i <= k && k + 1 < |cps|
    requires cps[k].value < value <= cps[k + 1].value
    ensures ScanSegments(value, cps, i) == Lerp(cps[k], cps[k + 1], value)
    decreases k - i
  {
    if i < k {
      if i + 1 < k {
        AscendingPairwise(cps, i + 1, k);
      }
      ScanOnSegment(value, cps, i + 1, k);
    }
  }

  /** Every value above the first checkpoint and at most the last lies in
      exactly one segment (v_k, v_(k+1)]. */
  lemma FindSegment(value: real, cps: seq<Checkpoint>) returns (k: nat)
    requires WellFormed(cps)
    requires cps[0].value < value <= cps[|cps| - 1].value
    ensures k + 1 < |cps| && cps[k].value < value <= cps[k + 1].value
  {
    k := 0;
    while value > cps[k + 1].value
      invariant k + 1 < |cps|
      invariant cps[k].value < value
      decreases |cps| - k
    {
      k := k + 1;
    }
  }

  /** The interpolated score of a value in segment (v_k, v_(k+1)] is the
      linear interpolation on that segment. */
  lemma InterpolateOnSegment(value: real, cps: seq<Checkpoint>, k: nat)
    requires WellFormed(cps)
    requires k + 1 < |cps| && cps[k].value < value <= cps[k + 1].value
    ensures Interpolate(value, cps) == Lerp(cps[k], cps[k + 1], value)
  {
    if k > 0 {
      AscendingPairwise(cps, 0, k);
    }
    if value >= cps[|cps| - 1].value {
      assert k + 1 == |cps| - 1 by {
        if k + 1 < |cps| - 1 {
          AscendingPairwise(cps, k + 1, |cps| - 1);
        }
      }
      assert value == cps[k + 1].value;
      LerpEnds(cps[k], cps[k + 1]);
    } else {
      ScanOnSegment(value, cps, 0, k);
    }
  }

  // ---------------------------------------------------------------------------
  // What interpolateScore promises

  /** Clamping and exactness: any value at or below the first checkpoint gets
      the first score, any value at or above the last gets the last score, and
      a value equal to a checkpoint's metric value gets exactly its score. */
  lemma InterpolateExact(value: real, cps: seq<Checkpoint>)
    requires WellFormed(cps)
    ensures value <= cps[0].value ==> Interpolate(value, cps) == cps[0].score
    ensures value >= cps[|cps| - 1].value ==> Interpolate(value, cps) == cps[|cps| - 1].score
    ensures forall k :: 0 <= k < |cps| && value == cps[k].value ==> Interpolate(value, cps) == cps[k].score
  {
    if |cps| > 1 {
      AscendingPairwise(cps, 0, |cps| - 1);
    }
    forall k | 0 <= k < |cps| && value == cps[k].value
      ensures Interpolate(value, cps) == cps[k].score
    {
      if k > 0 {
        AscendingPairwise(cps, 0, k);
        InterpolateOnSegment(value, cps, k - 1);
        LerpEnds(cps[k - 1], cps[k]);
      }
    }
  }

  /** Strictly between two neighbouring checkpoints the score lies between
      their two scores. */
  lemma InterpolateBetween(value: real, cps: seq<Checkpoint>, k: nat)
    requires WellFormed(cps)
    requires k + 1 < |cps| && cps[k].value < value < cps[k + 1].value
    ensures cps[k].score <= cps[k + 1].score ==>
              cps[k].score <= Interpolate(value, cps) <= cps[k + 1].score
    ensures cps[k].score >= cps[k + 1].score ==>
              cps[k + 1].score <= Interpolate(value, cps) <= cps[k].score
  {
    InterpolateOnSegment(value, cps, k);
    LerpBetween(cps[k], cps[k + 1], value);
  }

  /** On a sorted table the fallback `return 50` is never taken: a value
      strictly inside the table is interpolated on a segment that holds it. */
  lemma FallbackUnreachable(value: real, cps: seq<Checkpoint>)
    requires WellFormed(cps)
    requires cps[0].value < value < cps[|cps| - 1].value
    ensures exists k :: 0 <= k < |cps| - 1 && cps[k].value <= value <= cps[k + 1].value &&
                        Interpolate(value, cps) == Lerp(cps[k], cps[k + 1], value)
  {
    var k := FindSegment(value, cps);
    InterpolateOnSegment(value, cps, k);
  }

  /** Every score the interpolation gives lies within the range of the table's scores. */
  lemma InterpolateWithin(value: real, cps: seq<Checkpoint>, lo: real, hi: real)
    requires WellFormed(cps) && ScoresWithin(cps, lo, hi)
    ensures lo <= Interpolate(value, cps) <= hi
  {
    if cps[0].value < value <= cps[|cps| - 1].value {
      var k := FindSegment(value, cps);
      InterpolateOnSegment(value, cps, k);
      LerpBetween(cps[k], cps[k + 1], value);
    }
  }

  /** On a table whose scores rise, a larger metric value never scores lower. */
  lemma InterpolateMonotone(x: real, y: real, cps: seq<Checkpoint>)
    requires WellFormed(cps) && ScoresNondecreasing(cps)
    requires x <= y
    ensures Interpolate(x, cps) <= Interpolate(y, cps)
  {
    var n := |cps|;
    forall i | 0 <= i < n ensures cps[0].score <= cps[i].score <= cps[n - 1].score {
      NondecreasingPairwise(cps, 0, i);
      NondecreasingPairwise(cps, i, n - 1);
    }
    InterpolateWithin(x, cps, cps[0].score, cps[n - 1].score);
    InterpolateWithin(y, cps, cps[0].score, cps[n - 1].score);
    if x <= cps[0].value || y > cps[n - 1].value {
      // x takes the lowest score or y the highest
    } else {
      var k := FindSegment(x, cps);
      var m := FindSegment(y, cps);
      InterpolateOnSegment(x, cps, k);
      InterpolateOnSegment(y, cps, m);
      if k == m {
        LerpMonotone(cps[k], cps[k + 1], x, y);
      } else {
        assert k < m by {
          if m < k {
            if m + 1 < k {
              AscendingPairwise(cps, m + 1, k);
            }
          }
        }
        LerpBetween(cps[k], cps[k + 1], x);
        LerpBetween(cps[m], cps[m + 1], y);
        NondecreasingPairwise(cps, k, k + 1);
        NondecreasingPairwise(cps, k + 1, m);
        NondecreasingPairwise(cps, m, m + 1);
      }
    }
  }

  /** The table with every score negated. */
  function Negated(cps: seq<Checkpoint>): (r: seq<Checkpoint>)
    ensures |r| == |cps|
    ensures forall i :: 0 <= i < |cps| ==> r[i] == Checkpoint(cps[i].value, -cps[i].score)
  {
    seq(|cps|, i requires 0 <= i < |cps| => Checkpoint(cps[i].value, -cps[i].score))
  }

  lemma NegatedShape(cps: seq<Checkpoint>)
    requires WellFormed(cps) && ScoresNonincreasing(cps)
    ensures WellFormed(Negated(cps)) && ScoresNondecreasing(Negated(cps))
  {
  }

  /** On values inside the table, the scan over the negated table gives the
      negated score. */
  lemma {:induction false} ScanNegated(value: real, cps: seq<Checkpoint>, i: nat)
    requires StrictlyAscending(cps) && StrictlyAscending(Negated(cps))
    requires i + 1 < |cps| && cps[i].value <= value <= cps[|cps| - 1].value
    ensures ScanSegments(value, Negated(cps), i) == -ScanSegments(value, cps, i)
    decreases |cps| - i
  {
    var ncps := Negated(cps);
    if cps[i].value <= value <= cps[i + 1].value {
      assert ncps[i] == Checkpoint(cps[i].value, -cps[i].score);
      assert ncps[i + 1] == Checkpoint(cps[i + 1].value, -cps[i + 1].score);
    } else {
      ScanNegated(value, cps, i + 1);
    }
  }

  /** On a table whose scores fall, a larger metric value never scores higher. */
  lemma InterpolateAntitone(x: real, y: real, cps: seq<Checkpoint>)
    requires WellFormed(cps) && ScoresNonincreasing(cps)
    requires x <= y
    ensures Interpolate(x, cps) >= Interpolate(y, cps)
  {
    var ncps := Negated(cps);
    NegatedShape(cps);
    InterpolateMonotone(x, y, ncps);
    NegatedInterpolate(x, cps);
    NegatedInterpolate(y, cps);
  }

  lemma NegatedInterpolate(v: real, cps: seq<Checkpoint>)
    requires WellFormed(cps) && WellFormed(Negated(cps))
    ensures Interpolate(v, Negated(cps)) == -Interpolate(v, cps)
  {
    var n := |cps|;
    if cps[0].value < v < cps[n - 1].value {
      ScanNegated(v, cps, 0);
    }
  }

  /** Each report-card metric scores monotonically in its own direction. */
  lemma MetricScoreDirection(kind: MetricKind, x: real, y: real)
    requires x <= y
    ensures WellFormed(TableOf(kind))
    ensures HigherIsBetter(kind) ==> Interpolate(x, TableOf(kind)) <= Interpolate(y, TableOf(kind))
    ensures !HigherIsBetter(kind) ==> Interpolate(x, TableOf(kind)) >= Interpolate(y, TableOf(kind))
  {
    TableShape(kind);
    if HigherIsBetter(kind) {
      InterpolateMonotone(x, y, TableOf(kind));
    } else {
      InterpolateAntitone(x, y, TableOf(kind));
    }
  }

  /** Every metric score lies in [20, 100], the lowest and highest scores of all tables. */
  lemma MetricScoreRange(kind: MetricKind, value: real)
    ensures WellFormed(TableOf(kind))
    ensures 20.0 <= Interpolate(value, TableOf(kind)) <= 100.0
  {
    TableShape(kind);
    InterpolateWithin(value, TableOf(kind), 20.0, 100.0);
  }
}
