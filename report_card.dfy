/** The report card: the graded metrics grouped into the Power, Contact and
    Discipline categories, each category scored by the mean of its metrics, and
    an overall score weighted 0.30 / 0.35 / 0.35. */
module ReportCard {
  import opened Common
  import opened GradeScale
  import opened Benchmarks

  /** How a metric's value is shown: one decimal with '%', one decimal with
      ' mph', as thousandths after a dot ('.312'), or one plain decimal. The
      formatted text itself is not modelled. */
  datatype Display = PercentOneDecimal | MphOneDecimal | Thousandths | OneDecimal

  datatype MetricGrade = MetricGrade(
    kind: MetricKind,
    value: real,
    display: Display,
    score: real,
    grade: LetterGrade)

  datatype Category = Power | Contact | Discipline

  datatype CategoryGrade = CategoryGrade(
    category: Category,
    score: real,
    grade: LetterGrade,
    metrics: seq<MetricGrade>)

  datatype OverallGrade = OverallGrade(score: real, grade: LetterGrade)

  datatype ReportCardData = ReportCardData(
    overall: OverallGrade,
    power: CategoryGrade,
    contact: CategoryGrade,
    discipline: CategoryGrade,
    hasEnoughData: bool)

  datatype ReportCardInput = ReportCardInput(
    barrelPct: real,
    avgExitVelo: real,
    contactPct: real,
    whiffRate: real,
    battingAvg: real,
    chasePct: real,
    calledStrikePct: real,
    avgPitchesPerAB: real,
    totalAtBats: real,
    totalPitches: real)

  /** Fewer official at-bats than this and the card is flagged as a small sample. */
  const MinAtBats: real := 5.0

  function MetricLabel(kind: MetricKind): string {
    match kind
    case BarrelPct => "Barrel %"
    case ExitVelo => "Exit Velo"
    case ContactPct => "Contact %"
    case BattingAvg => "Batting Avg"
    case PitchesPerAb => "Pitches / AB"
    case WhiffRate => "Whiff Rate"
    case ChaseRate => "Chase Rate"
    case CalledStrike => "Called Strike %"
  }

  function DisplayOf(kind: MetricKind): Display {
    match kind
    case ExitVelo => MphOneDecimal
    case BattingAvg => Thousandths
    case PitchesPerAb => OneDecimal
    case _ => PercentOneDecimal
  }

  /** The input field a metric reads. */
  function InputValue(input: ReportCardInput, kind: MetricKind): real {
    match kind
    case BarrelPct => input.barrelPct
    case ExitVelo => input.avgExitVelo
    case ContactPct => input.contactPct
    case BattingAvg => input.battingAvg
    case PitchesPerAb => input.avgPitchesPerAB
    case WhiffRate => input.whiffRate
    case ChaseRate => input.chasePct
    case CalledStrike => input.calledStrikePct
  }

  /** The score of a metric value on its own benchmark table. */
  function MetricScore(kind: MetricKind, value: real): (s: real)
    ensures 20.0 <= s <= 100.0
  {
    MetricScoreRange(kind, value);
    Interpolate(value, TableOf(kind))
  }

  // ---------------------------------------------------------------------------
  // avg and weightedAvg

  function Itself(x: real): real { x }

  /** avg: the arithmetic mean, or 50 for an empty list. */
  function Avg(values: seq<real>): (r: real)
    ensures values == [] ==> r == 50.0
  {
    if |values| == 0 then 50.0 else SumOf(values, Itself) / |values| as real
  }

  /** The mean of values that all lie in [lo, hi] lies in [lo, hi]; so does
      the empty list's 50 when 50 itself lies in the range. */
  lemma AvgBounds(values: seq<real>, lo: real, hi: real)
    requires lo <= 50.0 <= hi
    requires forall i :: 0 <= i < |values| ==> lo <= values[i] <= hi
    ensures lo <= Avg(values) <= hi
  {
    if |values| > 0 {
      forall i | 0 <= i < |values| ensures lo <= Itself(values[i]) <= hi { }
      MeanBounds(values, Itself, lo, hi);
    }
  }

  /** A list with one value has that value as its mean. */
  lemma AvgSingle(x: real)
    ensures Avg([x]) == x
  {
    assert SumOf([x], Itself) == x + SumOf([], Itself);
  }

  function Weight(p: (real, real)): real { p.1 }

  function Weighted(p: (real, real)): real { p.0 * p.1 }

  function TotalWeight(pairs: seq<(real, real)>): real {
    SumOf(pairs, Weight)
  }

  /** weightedAvg: the sum of value times weight over the sum of the weights. */
  function WeightedAvg(pairs: seq<(real, real)>): real
    requires TotalWeight(pairs) != 0.0
  {
    SumOf(pairs, Weighted) / TotalWeight(pairs)
  }

  lemma {:induction false} WeightedSumBounds(pairs: seq<(real, real)>, lo: real, hi: real)
    requires forall i :: 0 <= i < |pairs| ==> pairs[i].1 >= 0.0 && lo <= pairs[i].0 <= hi
    ensures lo * TotalWeight(pairs) <= SumOf(pairs, Weighted) <= hi * TotalWeight(pairs)
  {
    if pairs != [] {
      var rest := pairs[1..];
      forall i | 0 <= i < |rest| ensures rest[i].1 >= 0.0 && lo <= rest[i].0 <= hi {
        assert rest[i] == pairs[i + 1];
      }
      WeightedSumBounds(rest, lo, hi);
      var v, w := pairs[0].0, pairs[0].1;
      assert (v - lo) * w >= 0.0;
      assert (hi - v) * w >= 0.0;
      assert TotalWeight(pairs) == w + TotalWeight(rest);
      assert SumOf(pairs, Weighted) == v * w + SumOf(rest, Weighted);
    }
  }

  /** With non-negative weights of positive total, the weighted mean of values
      in [lo, hi] lies in [lo, hi]. */
  lemma WeightedAvgBounds(pairs: seq<(real, real)>, lo: real, hi: real)
    requires TotalWeight(pairs) > 0.0
    requires forall i :: 0 <= i < |pairs| ==> pairs[i].1 >= 0.0 && lo <= pairs[i].0 <= hi
    ensures lo <= WeightedAvg(pairs) <= hi
  {
    WeightedSumBounds(pairs, lo, hi);
    DivBounds(SumOf(pairs, Weighted), TotalWeight(pairs), lo, hi);
  }

  /** The category weights of the overall score add up to 1, so the overall
      score is the plain weighted sum of the three category scores. */
  lemma CategoryWeighting(power: real, contact: real, discipline: real)
    ensures TotalWeight([(power, 0.30), (contact, 0.35), (discipline, 0.35)]) == 1.0
    ensures WeightedAvg([(power, 0.30), (contact, 0.35), (discipline, 0.35)])
            == 0.30 * power + 0.35 * contact + 0.35 * discipline
  {
    var pairs := [(power, 0.30), (contact, 0.35), (discipline, 0.35)];
    var tail1 := pairs[1..];
    var tail2 := tail1[1..];
    var tail3: seq<(real, real)> := tail2[1..];
    assert |tail3| == 0;
    assert TotalWeight(tail2) == 0.35 + SumOf(tail3, Weight);
    assert TotalWeight(tail1) == 0.35 + TotalWeight(tail2);
    assert TotalWeight(pairs) == 0.30 + TotalWeight(tail1);
    assert SumOf(tail2, Weighted) == discipline * 0.35 + SumOf(tail3, Weighted);
    assert SumOf(tail1, Weighted) == contact * 0.35 + SumOf(tail2, Weighted);
    assert SumOf(pairs, Weighted) == power * 0.30 + SumOf(tail1, Weighted);
  }

  // ---------------------------------------------------------------------------
  // calcReportCard

  /** The metric scores of a category, in order. */
  function Scores(ms: seq<MetricGrade>): (r: seq<real>)
    ensures |r| == |ms| && forall i :: 0 <= i < |ms| ==> r[i] == ms[i].score
  {
    seq(|ms|, i requires 0 <= i < |ms| => ms[i].score)
  }

  function Kinds(ms: seq<MetricGrade>): (r: seq<MetricKind>)
    ensures |r| == |ms| && forall i :: 0 <= i < |ms| ==> r[i] == ms[i].kind
  {
    seq(|ms|, i requires 0 <= i < |ms| => ms[i].kind)
  }

  /** A metric graded from the input: its own input field, its display format,
      its table score and that score's letter. */
  predicate GradedFrom(m: MetricGrade, input: ReportCardInput) {
    m.value == InputValue(input, m.kind) &&
    m.display == DisplayOf(m.kind) &&
    m.score == MetricScore(m.kind, m.value) &&
    m.grade == GradeOf(m.score)
  }

  /** A category whose score is the mean of its metric scores and whose
      letter is that score's grade. */
  predicate CategoryScored(c: CategoryGrade, category: Category, input: ReportCardInput) {
    c.category == category &&
    c.score == Avg(Scores(c.metrics)) &&
    c.grade == GradeOf(c.score) &&
    forall i :: 0 <= i < |c.metrics| ==> GradedFrom(c.metrics[i], input)
  }

  /** Score and grade one metric. */
  method GradeMetric(kind: MetricKind, value: real) returns (m: MetricGrade)
    ensures m.kind == kind && m.value == value && m.display == DisplayOf(kind)
    ensures m.score == MetricScore(kind, value) && m.grade == GradeOf(m.score)
    ensures 20.0 <= m.score <= 100.0
  {
    TableShape(kind);
    var score := InterpolateScore(value, TableOf(kind));
    var grade := ScoreToGrade(score);
    m := MetricGrade(kind, value, DisplayOf(kind), score, grade);
  }

  /** The Power category: Barrel % always, Exit Velo when the average exit
      velocity is positive. */
  method PowerCategory(input: ReportCardInput) returns (c: CategoryGrade)
    ensures Kinds(c.metrics) == [BarrelPct] + (if input.avgExitVelo > 0.0 then [ExitVelo] else [])
    ensures CategoryScored(c, Power, input)
    ensures 20.0 <= c.score <= 100.0
  {
    var barrel := GradeMetric(BarrelPct, input.barrelPct);
    var metrics := [barrel];
    if input.avgExitVelo > 0.0 {
      var exitVelo := GradeMetric(ExitVelo, input.avgExitVelo);
      metrics := metrics + [exitVelo];
    }
    var score := Avg(Scores(metrics));
    AvgBounds(Scores(metrics), 20.0, 100.0);
    var grade := ScoreToGrade(score);
    c := CategoryGrade(Power, score, grade, metrics);
  }

  /** The Contact category: Batting Avg always, Contact % and Whiff Rate when
      any pitch was recorded. */
  method ContactCategory(input: ReportCardInput) returns (c: CategoryGrade)
    ensures Kinds(c.metrics)
            == [BattingAvg] + (if input.totalPitches > 0.0 then [ContactPct, WhiffRate] else [])
    ensures CategoryScored(c, Contact, input)
    ensures 20.0 <= c.score <= 100.0
  {
    var battingAvg := GradeMetric(BattingAvg, input.battingAvg);
    var metrics := [battingAvg];
    if input.totalPitches > 0.0 {
      var contact := GradeMetric(ContactPct, input.contactPct);
      metrics := metrics + [contact];
    }
    if input.totalPitches > 0.0 {
      var whiff := GradeMetric(WhiffRate, input.whiffRate);
      metrics := metrics + [whiff];
    }
    var score := Avg(Scores(metrics));
    AvgBounds(Scores(metrics), 20.0, 100.0);
    var grade := ScoreToGrade(score);
    c := CategoryGrade(Contact, score, grade, metrics);
  }

  /** The Discipline category: Chase Rate, Called Strike % and Pitches / AB
      when any pitch was recorded, otherwise no metric and the neutral 50. */
  method DisciplineCategory(input: ReportCardInput) returns (c: CategoryGrade)
    ensures Kinds(c.metrics)
            == if input.totalPitches > 0.0 then [ChaseRate, CalledStrike, PitchesPerAb] else []
    ensures CategoryScored(c, Discipline, input)
    ensures c.metrics == [] ==> c.score == 50.0
    ensures 20.0 <= c.score <= 100.0
  {
    var metrics: seq<MetricGrade> := [];
    if input.totalPitches > 0.0 {
      var chase := GradeMetric(ChaseRate, input.chasePct);
      metrics := metrics + [chase];
    }
    if input.totalPitches > 0.0 {
      var calledStrike := GradeMetric(CalledStrike, input.calledStrikePct);
      metrics := metrics + [calledStrike];
    }
    if input.totalPitches > 0.0 {
      var pitchesPerAb := GradeMetric(PitchesPerAb, input.avgPitchesPerAB);
      metrics := metrics + [pitchesPerAb];
    }
    var score := if |metrics| > 0 then Avg(Scores(metrics)) else 50.0;
    AvgBounds(Scores(metrics), 20.0, 100.0);
    var grade := ScoreToGrade(score);
    c := CategoryGrade(Discipline, score, grade, metrics);
  }

  /** calcReportCard: grade the metrics the input supports, group them, and
      combine the category scores into the overall score. */
  method CalcReportCard(input: ReportCardInput) returns (r: ReportCardData)
    ensures r.hasEnoughData <==> input.totalAtBats >= MinAtBats
    ensures Kinds(r.power.metrics)
            == [BarrelPct] + (if input.avgExitVelo > 0.0 then [ExitVelo] else [])
    ensures Kinds(r.contact.metrics)
            == [BattingAvg] + (if input.totalPitches > 0.0 then [ContactPct, WhiffRate] else [])
    ensures Kinds(r.discipline.metrics)
            == if input.totalPitches > 0.0 then [ChaseRate, CalledStrike, PitchesPerAb] else []
    ensures CategoryScored(r.power, Power, input)
    ensures CategoryScored(r.contact, Contact, input)
    ensures CategoryScored(r.discipline, Discipline, input)
    ensures r.discipline.metrics == [] ==> r.discipline.score == 50.0
    ensures r.overall.score == 0.30 * r.power.score + 0.35 * r.contact.score + 0.35 * r.discipline.score
    ensures r.overall.grade == GradeOf(r.overall.score)
    ensures 20.0 <= r.overall.score <= 100.0
  {
    var hasEnoughData := input.totalAtBats >= MinAtBats;
    var power := PowerCategory(input);
    var contact := ContactCategory(input);
    var discipline := DisciplineCategory(input);
    var pairs := [(power.score, 0.30), (contact.score, 0.35), (discipline.score, 0.35)];
    CategoryWeighting(power.score, contact.score, discipline.score);
    var overallScore := WeightedAvg(pairs);
    WeightedAvgBounds(pairs, 20.0, 100.0);
    var overallGrade := ScoreToGrade(overallScore);
    r := ReportCardData(OverallGrade(overallScore, overallGrade), power, contact, discipline, hasEnoughData);
  }

  /** Raising a higher-is-better metric (or lowering a lower-is-better one)
      never lowers its score, and so never lowers its letter. */
  lemma MetricGradeDirection(kind: MetricKind, x: real, y: real)
    requires x <= y
    ensures HigherIsBetter(kind) ==> Rank(GradeOf(MetricScore(kind, y))) <= Rank(GradeOf(MetricScore(kind, x)))
    ensures !HigherIsBetter(kind) ==> Rank(GradeOf(MetricScore(kind, x))) <= Rank(GradeOf(MetricScore(kind, y)))
  {
    MetricScoreDirection(kind, x, y);
    if HigherIsBetter(kind) {
      GradeMonotone(MetricScore(kind, x), MetricScore(kind, y));
    } else {
      GradeMonotone(MetricScore(kind, y), MetricScore(kind, x));
    }
  }

  /** The range [20, 100] is tight: a .000 average scores 20 and a 20% barrel rate scores 100. */
  lemma ScoreExtremes()
    ensures MetricScore(BattingAvg, 0.0) == 20.0
    ensures MetricScore(BarrelPct, 20.0) == 100.0
  {
    TableShape(BattingAvg);
    TableShape(BarrelPct);
    InterpolateExact(0.0, BattingAvgCheckpoints);
    InterpolateExact(20.0, BarrelPctCheckpoints);
  }
}
