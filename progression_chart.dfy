/** The progression chart: per-outing trend points, optionally restricted to
    one outing type, plotted with a trailing three-session rolling average,
    the mean of the selected metric, and summary hit and at-bat totals. */
module ProgressionChart {
  import opened Common
  import opened HittingTypes

  datatype MetricKey = AvgKey | ExitVeloKey | BarrelPctKey | WhiffRateKey | ContactPctKey

  /** One outing's trend point: its type, counts and metric values. */
  datatype TrendPoint = TrendPoint(
    outingType: OutingType,
    hits: nat,
    atBats: nat,
    avg: real,
    exitVelo: real,
    barrelPct: real,
    whiffRate: real,
    contactPct: real)

  datatype TypeFilter = All | OfType(t: OutingType)

  /** `point[activeMetric]` */
  function MetricOf(p: TrendPoint, key: MetricKey): real {
    match key
    case AvgKey => p.avg
    case ExitVeloKey => p.exitVelo
    case BarrelPctKey => p.barrelPct
    case WhiffRateKey => p.whiffRate
    case ContactPctKey => p.contactPct
  }

  function Metric(key: MetricKey): TrendPoint -> real {
    (p: TrendPoint) => MetricOf(p, key)
  }

  function IsType(t: OutingType): TrendPoint -> bool {
    (p: TrendPoint) => p.outingType == t
  }

  /** `typeFilter === 'all' ? data : data.filter(d => d.type === typeFilter)` */
  function Filtered(data: seq<TrendPoint>, filter: TypeFilter): seq<TrendPoint> {
    match filter
    case All => data
    case OfType(t) => Filter(data, IsType(t))
  }

  /** The filter keeps all points for 'all', and otherwise exactly the points
      of the chosen type, each as often as in the data. */
  lemma FilteredContents(data: seq<TrendPoint>, filter: TypeFilter)
    ensures filter == All ==> Filtered(data, filter) == data
    ensures filter.OfType? ==>
              forall p :: multiset(Filtered(data, filter))[p]
                          == if p.outingType == filter.t then multiset(data)[p] else 0
    ensures filter.OfType? ==>
              forall i :: 0 <= i < |Filtered(data, filter)| ==> Filtered(data, filter)[i].outingType == filter.t
  {
    if filter.OfType? {
      FilterMultiset(data, IsType(filter.t));
    }
  }

  // ---------------------------------------------------------------------------
  // The rolling window

  /** `Math.max(0, i - 2)` */
  function WindowStart(i: nat): nat {
    if i < 2 then 0 else i - 2
  }

  /** `filtered.slice(Math.max(0, i - 2), i + 1)` */
  function Window(fs: seq<TrendPoint>, i: nat): seq<TrendPoint>
    requires i < |fs|
  {
    fs[WindowStart(i)..i + 1]
  }

  /** The mean of the selected metric over the window ending at i. */
  function Rolling(fs: seq<TrendPoint>, i: nat, key: MetricKey): real
    requires i < |fs|
  {
    SumOf(Window(fs, i), Metric(key)) / |Window(fs, i)| as real
  }

  datatype ChartEntry = ChartEntry(point: TrendPoint, value: real, rolling: real)

  /** chartData: each filtered point with its metric value and rolling average. */
  function ChartData(fs: seq<TrendPoint>, key: MetricKey): seq<ChartEntry> {
    seq(|fs|, i requires 0 <= i < |fs| => ChartEntry(fs[i], MetricOf(fs[i], key), Rolling(fs, i, key)))
  }

  /** The window holds one to three points, the most recent being point i
      itself, and is as long as possible up to three. */
  lemma WindowShape(fs: seq<TrendPoint>, i: nat)
    requires i < |fs|
    ensures 1 <= |Window(fs, i)| <= 3
    ensures |Window(fs, i)| == if i < 2 then i + 1 else 3
    ensures Window(fs, i)[|Window(fs, i)| - 1] == fs[i]
    ensures forall j :: 0 <= j < |Window(fs, i)| ==> Window(fs, i)[j] == fs[WindowStart(i) + j]
  {
  }

  /** The first point's rolling average is its own value. */
  lemma RollingFirst(fs: seq<TrendPoint>, key: MetricKey)
    requires |fs| > 0
    ensures Rolling(fs, 0, key) == MetricOf(fs[0], key)
  {
    var w := Window(fs, 0);
    assert w == [fs[0]];
    assert SumOf(w, Metric(key)) == Metric(key)(fs[0]) + SumOf(w[1..], Metric(key));
  }

  /** A rolling average lies between the smallest and largest values in its window. */
  lemma RollingBounds(fs: seq<TrendPoint>, i: nat, key: MetricKey, lo: real, hi: real)
    requires i < |fs|
    requires forall j :: WindowStart(i) <= j <= i ==> lo <= MetricOf(fs[j], key) <= hi
    ensures lo <= Rolling(fs, i, key) <= hi
  {
    var w := Window(fs, i);
    forall j | 0 <= j < |w| ensures lo <= Metric(key)(w[j]) <= hi {
      assert w[j] == fs[WindowStart(i) + j];
    }
    MeanBounds(w, Metric(key), lo, hi);
  }

  /** The chart has one entry per filtered point, in order, carrying the
      point and its metric value; each rolling value is its window's mean. */
  lemma ChartDataEntries(fs: seq<TrendPoint>, key: MetricKey)
    ensures |ChartData(fs, key)| == |fs|
    ensures forall i :: 0 <= i < |fs| ==>
              ChartData(fs, key)[i].point == fs[i] && ChartData(fs, key)[i].value == MetricOf(fs[i], key)
    ensures |fs| > 0 ==> ChartData(fs, key)[0].rolling == ChartData(fs, key)[0].value
  {
    if |fs| > 0 {
      RollingFirst(fs, key);
    }
  }

  // ---------------------------------------------------------------------------
  // The mean and the summary totals

  /** avg: the mean of the selected metric over the filtered points, 0 when there are none. */
  function MeanMetric(fs: seq<TrendPoint>, key: MetricKey): real {
    if |fs| > 0 then SumOf(fs, Metric(key)) / |fs| as real else 0.0
  }

  lemma MeanMetricBounds(fs: seq<TrendPoint>, key: MetricKey, lo: real, hi: real)
    requires |fs| > 0
    requires forall i :: 0 <= i < |fs| ==> lo <= MetricOf(fs[i], key) <= hi
    ensures lo <= MeanMetric(fs, key) <= hi
  {
    forall i | 0 <= i < |fs| ensures lo <= Metric(key)(fs[i]) <= hi { }
    MeanBounds(fs, Metric(key), lo, hi);
  }

  function HitsOf(p: TrendPoint): nat { p.hits }

  function AtBatsOf(p: TrendPoint): nat { p.atBats }

  /** The "Total Hits" summary. */
  function TotalHits(fs: seq<TrendPoint>): nat {
    NatSumOf(fs, HitsOf)
  }

  /** The "Total ABs" summary. */
  function TotalAtBats(fs: seq<TrendPoint>): nat {
    NatSumOf(fs, AtBatsOf)
  }

  /** When no outing has more hits than at-bats, neither do the totals. */
  lemma {:induction false} TotalHitsAtMostAtBats(fs: seq<TrendPoint>)
    requires forall i :: 0 <= i < |fs| ==> fs[i].hits <= fs[i].atBats
    ensures TotalHits(fs) <= TotalAtBats(fs)
  {
    if fs != [] {
      forall i | 0 <= i < |fs[1..]| ensures fs[1..][i].hits <= fs[1..][i].atBats {
        assert fs[1..][i] == fs[i + 1];
      }
      TotalHitsAtMostAtBats(fs[1..]);
    }
  }

  /** Summed over the four outing types, the per-type totals give the 'all' total. */
  lemma {:induction false} TypeTotalsPartition(data: seq<TrendPoint>, f: TrendPoint -> nat)
    ensures NatSumOf(data, f)
            == NatSumOf(Filter(data, IsType(Game)), f) + NatSumOf(Filter(data, IsType(BattingPractice)), f)
             + NatSumOf(Filter(data, IsType(CageSession)), f) + NatSumOf(Filter(data, IsType(LiveAbs)), f)
  {
    if data != [] {
      var p, rest := data[0], data[1..];
      assert data == [p] + rest;
      TypeTotalsPartition(rest, f);
      TypeSumCons(p, rest, Game, f);
      TypeSumCons(p, rest, BattingPractice, f);
      TypeSumCons(p, rest, CageSession, f);
      TypeSumCons(p, rest, LiveAbs, f);
    }
  }

  lemma TypeSumCons(p: TrendPoint, rest: seq<TrendPoint>, t: OutingType, f: TrendPoint -> nat)
    ensures NatSumOf(Filter([p] + rest, IsType(t)), f)
            == (if p.outingType == t then f(p) else 0) + NatSumOf(Filter(rest, IsType(t)), f)
  {
    FilterAppend([p], rest, IsType(t));
    NatSumAppend(Filter([p], IsType(t)), Filter(rest, IsType(t)), f);
    if p.outingType == t {
      assert Filter([p], IsType(t)) == [p];
    } else {
      assert Filter([p], IsType(t)) == [];
    }
  }

  /** The summary totals do not depend on how the 'all' list is split by type. */
  lemma HitsByType(data: seq<TrendPoint>)
    ensures TotalHits(Filtered(data, All))
            == TotalHits(Filtered(data, OfType(Game))) + TotalHits(Filtered(data, OfType(BattingPractice)))
             + TotalHits(Filtered(data, OfType(CageSession))) + TotalHits(Filtered(data, OfType(LiveAbs)))
  {
    TypeTotalsPartition(data, HitsOf);
  }
}
