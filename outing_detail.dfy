/** The outing summary: at-bats, hits and batting average over one outing's
    at-bats, and the batted-ball figures over its spray points. */
module OutingDetail {
  import opened Common
  import opened HittingTypes
  import opened Stats

  function IsOfficial(ab: AtBat): bool { IsOfficialAtBat(ab.result) }

  function IsHitAtBat(ab: AtBat): bool { IsHit(ab.result) }

  /** totalABs: the at-bats that are neither a walk nor a hit-by-pitch. */
  function TotalAbs(atBats: seq<AtBat>): nat {
    |Filter(atBats, IsOfficial)|
  }

  /** hits: the singles, doubles, triples and home runs. */
  function Hits(atBats: seq<AtBat>): nat {
    |Filter(atBats, IsHitAtBat)|
  }

  /** `totalABs > 0 ? hits / totalABs : 0` */
  function BattingAvg(hits: nat, totalAbs: nat): real {
    if totalAbs > 0 then hits as real / totalAbs as real else 0.0
  }

  /** Hits never exceed official at-bats, which never exceed all at-bats. */
  lemma CountsOrdered(atBats: seq<AtBat>)
    ensures Hits(atBats) <= TotalAbs(atBats) <= |atBats|
  {
    forall ab ensures IsHitAtBat(ab) ==> IsOfficial(ab) {
      HitIsOfficial(ab.result);
    }
    FilterLengthMono(atBats, IsHitAtBat, IsOfficial);
  }

  /** A batting average computed from a hit count no larger than the at-bat
      count lies in [0, 1], and is 0 without at-bats. */
  lemma BattingAvgRange(hits: nat, totalAbs: nat)
    requires hits <= totalAbs
    ensures 0.0 <= BattingAvg(hits, totalAbs) <= 1.0
    ensures totalAbs == 0 ==> BattingAvg(hits, totalAbs) == 0.0
  {
    if totalAbs > 0 {
      UnitFraction(hits as real, totalAbs as real);
    }
  }

  /** The outing's average lies in [0, 1]. */
  lemma OutingAvgRange(atBats: seq<AtBat>)
    ensures 0.0 <= BattingAvg(Hits(atBats), TotalAbs(atBats)) <= 1.0
  {
    CountsOrdered(atBats);
    BattingAvgRange(Hits(atBats), TotalAbs(atBats));
  }

  /** Recording one more at-bat adds one official at-bat unless it is a walk
      or a hit-by-pitch, one hit when it is a hit, and its spray point, if
      any, at the end of the outing's spray points. */
  lemma AppendAtBat(atBats: seq<AtBat>, ab: AtBat)
    ensures TotalAbs(atBats + [ab]) == TotalAbs(atBats) + (if IsOfficialAtBat(ab.result) then 1 else 0)
    ensures Hits(atBats + [ab]) == Hits(atBats) + (if IsHit(ab.result) then 1 else 0)
    ensures SprayPointsOf(atBats + [ab])
            == SprayPointsOf(atBats) + (if ab.sprayPoint.Some? then [ab.sprayPoint.value] else [])
  {
    FilterAppend(atBats, [ab], IsOfficial);
    FilterAppend(atBats, [ab], IsHitAtBat);
    assert Filter([ab], IsOfficial) == (if IsOfficial(ab) then [ab] else []) + Filter([ab][1..], IsOfficial);
    assert Filter([ab], IsHitAtBat) == (if IsHitAtBat(ab) then [ab] else []) + Filter([ab][1..], IsHitAtBat);
    SprayPointsAppend(atBats, ab);
  }

  /** A recorded batted ball carries the result of its at-bat, which is a
      ball in play. */
  predicate SprayConsistent(ab: AtBat) {
    ab.sprayPoint.Some? ==> ab.sprayPoint.value.result == ab.result && IsBallInPlay(ab.result)
  }

  /** The page's own barrel percentage, computed inline by the page rather
      than through `calcBarrelPct`; `DetailBarrelPctAgrees` checks that the
      two formulas agree. */
  function DetailBarrelPct(sprayPoints: seq<SprayChartPoint>): real {
    var barrels := |Filter(sprayPoints, Barreled)|;
    if |sprayPoints| > 0 then (barrels as real / |sprayPoints| as real) * 100.0 else 0.0
  }

  /** The page's own average exit velocity: every point adds its velocity or 0
      to the sum, and only points with a velocity count in the divisor. */
  function DetailAvgExitVelo(sprayPoints: seq<SprayChartPoint>): real {
    var counted := |Filter(sprayPoints, HasVelo)|;
    if counted > 0 then SumOf(sprayPoints, VeloOrZero) / counted as real else 0.0
  }

  lemma DetailBarrelPctAgrees(sprayPoints: seq<SprayChartPoint>)
    ensures DetailBarrelPct(sprayPoints) == CalcBarrelPct(sprayPoints)
  {
  }

  /** Points without a velocity add nothing to the sum. */
  lemma {:induction false} SumSkipsUncounted(points: seq<SprayChartPoint>)
    ensures SumOf(points, VeloOrZero) == SumOf(Filter(points, HasVelo), VeloOrZero)
  {
    if points != [] {
      SumSkipsUncounted(points[1..]);
      if HasVelo(points[0]) {
        var f := Filter(points[1..], HasVelo);
        assert Filter(points, HasVelo) == [points[0]] + f;
        assert ([points[0]] + f)[1..] == f;
        assert SumOf([points[0]] + f, VeloOrZero) == VeloOrZero(points[0]) + SumOf(f, VeloOrZero);
      } else {
        assert Filter(points, HasVelo) == Filter(points[1..], HasVelo);
      }
    }
  }

  /** The inline average agrees with calcAvgExitVelo. */
  lemma DetailAvgExitVeloAgrees(sprayPoints: seq<SprayChartPoint>)
    ensures DetailAvgExitVelo(sprayPoints) == CalcAvgExitVelo(sprayPoints)
  {
    SumSkipsUncounted(sprayPoints);
  }

  /** `(sp.exitVelocity || 0) >= 95` */
  function HardHit(sp: SprayChartPoint): bool {
    VeloOrZero(sp) >= 95.0
  }

  /** The hard-hit percentage, dividing by `sprayPoints.length || 1`. */
  function HardHitPct(sprayPoints: seq<SprayChartPoint>): real {
    var divisor := if |sprayPoints| == 0 then 1 else |sprayPoints|;
    (|Filter(sprayPoints, HardHit)| as real / divisor as real) * 100.0
  }

  /** The hard-hit share is a percentage, 0 without points, and never counts
      more points than those that have a velocity. */
  lemma HardHitPctRange(sprayPoints: seq<SprayChartPoint>)
    ensures 0.0 <= HardHitPct(sprayPoints) <= 100.0
    ensures sprayPoints == [] ==> HardHitPct(sprayPoints) == 0.0
    ensures |Filter(sprayPoints, HardHit)| <= |Filter(sprayPoints, HasVelo)|
  {
    forall sp ensures HardHit(sp) ==> HasVelo(sp) { }
    FilterLengthMono(sprayPoints, HardHit, HasVelo);
    var divisor := if |sprayPoints| == 0 then 1 else |sprayPoints|;
    UnitFraction(|Filter(sprayPoints, HardHit)| as real, divisor as real);
  }

  /** The summary figures of one outing, as the page shows them. */
  datatype OutingSummary = OutingSummary(
    sprayPoints: seq<SprayChartPoint>,
    totalAbs: nat,
    hits: nat,
    battingAvg: real,
    barrelPct: real,
    avgExitVelo: real,
    hardHitPct: real)

  function Summarize(outing: Outing): OutingSummary {
    var sprayPoints := SprayPointsOf(outing.atBats);
    var totalAbs := TotalAbs(outing.atBats);
    var hits := Hits(outing.atBats);
    OutingSummary(sprayPoints, totalAbs, hits, BattingAvg(hits, totalAbs),
                  DetailBarrelPct(sprayPoints), DetailAvgExitVelo(sprayPoints), HardHitPct(sprayPoints))
  }

  /** What the summary promises: ordered counts, an average in [0, 1], and the
      same barrel and exit-velocity figures as the shared helpers. */
  lemma SummaryFacts(outing: Outing)
    ensures Summarize(outing).hits <= Summarize(outing).totalAbs <= |outing.atBats|
    ensures 0.0 <= Summarize(outing).battingAvg <= 1.0
    ensures Summarize(outing).barrelPct == CalcBarrelPct(Summarize(outing).sprayPoints)
    ensures Summarize(outing).avgExitVelo == CalcAvgExitVelo(Summarize(outing).sprayPoints)
    ensures 0.0 <= Summarize(outing).hardHitPct <= 100.0
  {
    CountsOrdered(outing.atBats);
    OutingAvgRange(outing.atBats);
    DetailAvgExitVeloAgrees(SprayPointsOf(outing.atBats));
    HardHitPctRange(SprayPointsOf(outing.atBats));
  }
}
