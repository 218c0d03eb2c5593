/** The plate-discipline bars: each bar compares a rate with an optional
    benchmark, marks it good, ok or needs-work, and fills a bar capped at 100%. */
module PlateDiscipline {
  import opened Common

  datatype Direction = Higher | Lower

  datatype Benchmark = Benchmark(good: real, direction: Direction)

  datatype Quality = Good | Ok | NeedsWork

  const ChaseBenchmark := Benchmark(25.0, Lower)
  const CalledStrikeBenchmark := Benchmark(15.0, Lower)
  const ContactBenchmark := Benchmark(75.0, Higher)
  const WhiffBenchmark := Benchmark(25.0, Lower)

  /** How far the value is on the good side of the benchmark (negative when
      it falls short). */
  function Diff(value: real, b: Benchmark): real {
    if b.direction == Higher then value - b.good else b.good - value
  }

  /** The quality mark of a bar; none without a benchmark. */
  function QualityOf(value: real, benchmark: Option<Benchmark>): Option<Quality> {
    if benchmark.None? then None
    else
      var diff := Diff(value, benchmark.value);
      if diff >= 0.0 then Some(Good)
      else if diff >= -10.0 then Some(Ok)
      else Some(NeedsWork)
  }

  /** `Math.min(value, 100)`, the bar's filled width in percent. */
  function BarWidth(value: real): real {
    if value <= 100.0 then value else 100.0
  }

  /** With a benchmark exactly one mark applies, by the band the difference
      falls in; without one there is no mark. */
  lemma QualityBands(value: real, benchmark: Option<Benchmark>)
    ensures benchmark.None? <==> QualityOf(value, benchmark).None?
    ensures benchmark.Some? ==>
              (QualityOf(value, benchmark) == Some(Good) <==> Diff(value, benchmark.value) >= 0.0)
    ensures benchmark.Some? ==>
              (QualityOf(value, benchmark) == Some(Ok) <==> -10.0 <= Diff(value, benchmark.value) < 0.0)
    ensures benchmark.Some? ==>
              (QualityOf(value, benchmark) == Some(NeedsWork) <==> Diff(value, benchmark.value) < -10.0)
  {
  }

  function QualityRank(q: Quality): nat {
    match q
    case Good => 0
    case Ok => 1
    case NeedsWork => 2
  }

  /** Moving a value in the benchmark's good direction never worsens its mark. */
  lemma QualityMonotone(worse: real, better: real, b: Benchmark)
    requires if b.direction == Higher then worse <= better else better <= worse
    ensures QualityRank(QualityOf(better, Some(b)).value) <= QualityRank(QualityOf(worse, Some(b)).value)
  {
  }

  /** The bar never overflows and shows any value up to 100 as it is. */
  lemma BarWidthBounds(value: real)
    ensures BarWidth(value) <= 100.0
    ensures BarWidth(value) <= value
    ensures value <= 100.0 ==> BarWidth(value) == value
  {
  }

  /** A chase rate of 30% is 5 points over the 25% benchmark and so ok; one
      of 40% is 15 points over and needs work. */
  lemma ChaseExamples()
    ensures QualityOf(30.0, Some(ChaseBenchmark)) == Some(Ok)
    ensures QualityOf(40.0, Some(ChaseBenchmark)) == Some(NeedsWork)
    ensures QualityOf(75.0, Some(ContactBenchmark)) == Some(Good)
  {
  }
}
