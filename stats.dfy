/** Batted-ball summaries over spray-chart points: the average exit velocity
    of the points that carry one, and the share of points that were barrels. */
module Stats {
  import opened Common
  import opened HittingTypes

  /** `sp.exitVelocity` is truthy: present and not zero. */
  predicate HasVelo(sp: SprayChartPoint) {
    sp.exitVelocity.Some? && sp.exitVelocity.value != 0.0
  }

  /** `sp.exitVelocity || 0`. */
  function VeloOrZero(sp: SprayChartPoint): real {
    if HasVelo(sp) then sp.exitVelocity.value else 0.0
  }

  /** `sp.isBarrel` is truthy. */
  predicate Barreled(sp: SprayChartPoint) {
    sp.isBarrel == Some(true)
  }

  /** calcAvgExitVelo: the mean velocity over the points with a truthy
      velocity, or 0 when there are none. */
  function CalcAvgExitVelo(points: seq<SprayChartPoint>): real {
    var withVelo := Filter(points, HasVelo);
    if |withVelo| == 0 then 0.0 else SumOf(withVelo, VeloOrZero) / |withVelo| as real
  }

  /** calcBarrelPct: the percentage of points that are barrels, or 0 for no points. */
  function CalcBarrelPct(points: seq<SprayChartPoint>): real {
    if |points| == 0 then 0.0
    else (|Filter(points, Barreled)| as real / |points| as real) * 100.0
  }

  /** With no truthy velocity, empty input included, the average is 0. */
  lemma AvgExitVeloNone(points: seq<SprayChartPoint>)
    requires forall i :: 0 <= i < |points| ==> !HasVelo(points[i])
    ensures CalcAvgExitVelo(points) == 0.0
  {
    FilterAllOrNone(points, HasVelo);
  }

  /** The average lies within any bounds that hold for every counted velocity. */
  lemma AvgExitVeloBounds(points: seq<SprayChartPoint>, lo: real, hi: real)
    requires exists i :: 0 <= i < |points| && HasVelo(points[i])
    requires forall i :: 0 <= i < |points| && HasVelo(points[i]) ==>
               lo <= points[i].exitVelocity.value <= hi
    ensures lo <= CalcAvgExitVelo(points) <= hi
  {
    var withVelo := Filter(points, HasVelo);
    var k :| 0 <= k < |points| && HasVelo(points[k]);
    FilterMembership(points, HasVelo, points[k]);
    forall i | 0 <= i < |withVelo| ensures lo <= VeloOrZero(withVelo[i]) <= hi {
      FilterMembership(points, HasVelo, withVelo[i]);
      var j :| 0 <= j < |points| && points[j] == withVelo[i];
    }
    MeanBounds(withVelo, VeloOrZero, lo, hi);
  }

  /** A point with an absent or zero velocity changes neither the sum nor the
      count of the average. */
  lemma AvgExitVeloSkipsUncounted(a: seq<SprayChartPoint>, p: SprayChartPoint, b: seq<SprayChartPoint>)
    requires !HasVelo(p)
    ensures CalcAvgExitVelo(a + [p] + b) == CalcAvgExitVelo(a + b)
  {
    FilterAppend(a + [p], b, HasVelo);
    FilterAppend(a, [p], HasVelo);
    FilterAppend(a, b, HasVelo);
    assert Filter([p], HasVelo) == [];
    assert Filter(a, HasVelo) + [] == Filter(a, HasVelo);
  }

  /** The average does not depend on the order of the points. */
  lemma AvgExitVeloPerm(points: seq<SprayChartPoint>, shuffled: seq<SprayChartPoint>)
    requires multiset(points) == multiset(shuffled)
    ensures CalcAvgExitVelo(points) == CalcAvgExitVelo(shuffled)
  {
    FilterPerm(points, shuffled, HasVelo);
    FilterLengthPerm(points, shuffled, HasVelo);
    SumPerm(Filter(points, HasVelo), Filter(shuffled, HasVelo), VeloOrZero);
  }

  /** The barrel share is a percentage; on non-empty input it is 100 exactly
      when every point is a barrel and 0 exactly when none is. */
  lemma BarrelPctRange(points: seq<SprayChartPoint>)
    ensures 0.0 <= CalcBarrelPct(points) <= 100.0
    ensures |points| > 0 ==>
              (CalcBarrelPct(points) == 100.0 <==> forall i :: 0 <= i < |points| ==> Barreled(points[i]))
    ensures |points| > 0 ==>
              (CalcBarrelPct(points) == 0.0 <==> forall i :: 0 <= i < |points| ==> !Barreled(points[i]))
  {
    if |points| > 0 {
      var k := |Filter(points, Barreled)| as real;
      var n := |points| as real;
      FilterFull(points, Barreled);
      FilterAllOrNone(points, Barreled);
      UnitShare(k, n);
    }
  }

  lemma UnitShare(k: real, n: real)
    requires 0.0 <= k <= n && n > 0.0
    ensures 0.0 <= (k / n) * 100.0 <= 100.0
    ensures (k / n) * 100.0 == 100.0 <==> k == n
    ensures (k / n) * 100.0 == 0.0 <==> k == 0.0
  {
    var t := k / n;
    UnitFraction(k, n);
    assert t * n == k;
    if t * 100.0 == 100.0 {
      assert t == 1.0;
    }
    if t * 100.0 == 0.0 {
      assert t == 0.0;
    }
  }

  /** The barrel share does not depend on the order of the points. */
  lemma BarrelPctPerm(points: seq<SprayChartPoint>, shuffled: seq<SprayChartPoint>)
    requires multiset(points) == multiset(shuffled)
    ensures CalcBarrelPct(points) == CalcBarrelPct(shuffled)
  {
    FilterLengthPerm(points, shuffled, Barreled);
    assert |points| == |multiset(points)| == |multiset(shuffled)| == |shuffled|;
  }
}
