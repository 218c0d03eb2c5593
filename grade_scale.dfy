/** The letter-grade scale of the report card: a descending ladder of score
    thresholds, and the colour shown for each letter. */
module GradeScale {

  datatype LetterGrade = APlus | A | AMinus | BPlus | B | BMinus | CPlus | C | CMinus | D | F

  /** The grade as displayed. */
  function Label(g: LetterGrade): string {
    match g
    case APlus => "A+"
    case A => "A"
    case AMinus => "A-"
    case BPlus => "B+"
    case B => "B"
    case BMinus => "B-"
    case CPlus => "C+"
    case C => "C"
    case CMinus => "C-"
    case D => "D"
    case F => "F"
  }

  /** Position of a grade in the ladder, best first: A+ is 0 and F is 10. */
  function Rank(g: LetterGrade): nat {
    match g
    case APlus => 0
    case A => 1
    case AMinus => 2
    case BPlus => 3
    case B => 4
    case BMinus => 5
    case CPlus => 6
    case C => 7
    case CMinus => 8
    case D => 9
    case F => 10
  }

  datatype Threshold = Threshold(min: real, grade: LetterGrade)

  const GradeThresholds: seq<Threshold> := [
    Threshold(97.0, APlus),
    Threshold(93.0, A),
    Threshold(90.0, AMinus),
    Threshold(87.0, BPlus),
    Threshold(83.0, B),
    Threshold(80.0, BMinus),
    Threshold(77.0, CPlus),
    Threshold(73.0, C),
    Threshold(70.0, CMinus),
    Threshold(60.0, D),
    Threshold(0.0, F)
  ]

  /** The grade of the first threshold at or after position `i` that `score`
      reaches, or 'F' when it reaches none. */
  function FirstReached(score: real, ts: seq<Threshold>, i: nat): LetterGrade
    decreases |ts| - i
  {
    if i >= |ts| then F
    else if score >= ts[i].min then ts[i].grade
    else FirstReached(score, ts, i + 1)
  }

  /** The grade the ladder assigns to a score. */
  function GradeOf(score: real): LetterGrade {
    FirstReached(score, GradeThresholds, 0)
  }

  /** scoreToGrade: walk the ladder and return the first grade whose minimum
      the score reaches; 'F' if none is reached. */
  method ScoreToGrade(score: real) returns (g: LetterGrade)
    ensures g == GradeOf(score)
  {
    var i := 0;
    while i < |GradeThresholds|
      invariant 0 <= i <= |GradeThresholds|
      invariant FirstReached(score, GradeThresholds, i) == GradeOf(score)
    {
      if score >= GradeThresholds[i].min {
        return GradeThresholds[i].grade;
      }
      i := i + 1;
    }
    return F;
  }

  /** The ladder, band by band: each letter is given to exactly the scores in
      its half-open band, and every score below 60, negative ones included, is 'F'. */
  lemma GradeBands(score: real)
    ensures GradeOf(score) == APlus <==> 97.0 <= score
    ensures GradeOf(score) == A <==> 93.0 <= score < 97.0
    ensures GradeOf(score) == AMinus <==> 90.0 <= score < 93.0
    ensures GradeOf(score) == BPlus <==> 87.0 <= score < 90.0
    ensures GradeOf(score) == B <==> 83.0 <= score < 87.0
    ensures GradeOf(score) == BMinus <==> 80.0 <= score < 83.0
    ensures GradeOf(score) == CPlus <==> 77.0 <= score < 80.0
    ensures GradeOf(score) == C <==> 73.0 <= score < 77.0
    ensures GradeOf(score) == CMinus <==> 70.0 <= score < 73.0
    ensures GradeOf(score) == D <==> 60.0 <= score < 70.0
    ensures GradeOf(score) == F <==> score < 60.0
  {
    var ts := GradeThresholds;
    assert FirstReached(score, ts, 11) == F;
    assert FirstReached(score, ts, 10) == F;
    assert FirstReached(score, ts, 9) == if score >= 60.0 then D else F;
    assert FirstReached(score, ts, 8) == if score >= 70.0 then CMinus else FirstReached(score, ts, 9);
    assert FirstReached(score, ts, 7) == if score >= 73.0 then C else FirstReached(score, ts, 8);
    assert FirstReached(score, ts, 6) == if score >= 77.0 then CPlus else FirstReached(score, ts, 7);
    assert FirstReached(score, ts, 5) == if score >= 80.0 then BMinus else FirstReached(score, ts, 6);
    assert FirstReached(score, ts, 4) == if score >= 83.0 then B else FirstReached(score, ts, 5);
    assert FirstReached(score, ts, 3) == if score >= 87.0 then BPlus else FirstReached(score, ts, 4);
    assert FirstReached(score, ts, 2) == if score >= 90.0 then AMinus else FirstReached(score, ts, 3);
    assert FirstReached(score, ts, 1) == if score >= 93.0 then A else FirstReached(score, ts, 2);
    assert FirstReached(score, ts, 0) == if score >= 97.0 then APlus else FirstReached(score, ts, 1);
  }

  /** A higher score never earns a lower letter. */
  lemma GradeMonotone(lower: real, higher: real)
    requires lower <= higher
    ensures Rank(GradeOf(higher)) <= Rank(GradeOf(lower))
  {
    GradeBands(lower);
    GradeBands(higher);
  }

  /** `text.startsWith(c)` for a one-character prefix. */
  predicate StartsWith(text: string, c: char) {
    |text| > 0 && text[0] == c
  }

  /** gradeColor: green for the A family, blue for B, yellow for C, orange for
      D and red otherwise, decided by the first letter of the label. */
  function GradeColor(g: LetterGrade): string {
    var text := Label(g);
    if StartsWith(text, 'A') then Green
    else if StartsWith(text, 'B') then Blue
    else if StartsWith(text, 'C') then Yellow
    else if text == "D" then Orange
    else Red
  }

  const Green: string := "#22c55e"
  const Blue: string := "#3b82f6"
  const Yellow: string := "#eab308"
  const Orange: string := "#f97316"
  const Red: string := "#ef4444"

  /** The five colours are distinct. */
  lemma ColorsDistinct()
    ensures Green != Blue && Green != Yellow && Green != Orange && Green != Red
    ensures Blue != Yellow && Blue != Orange && Blue != Red
    ensures Yellow != Orange && Yellow != Red && Orange != Red
  {
    assert Green[1] == '2' && Blue[1] == '3' && Yellow[1] == 'e' && Orange[1] == 'f' && Red[1] == 'e';
    assert Yellow[2] == 'a' && Red[2] == 'f';
  }

  /** The colour depends only on the letter family of the grade. */
  lemma GradeColorByFamily(g: LetterGrade)
    ensures GradeColor(g) == Green <==> g in {APlus, A, AMinus}
    ensures GradeColor(g) == Blue <==> g in {BPlus, B, BMinus}
    ensures GradeColor(g) == Yellow <==> g in {CPlus, C, CMinus}
    ensures GradeColor(g) == Orange <==> g == D
    ensures GradeColor(g) == Red <==> g == F
  {
    ColorsDistinct();
  }
}
