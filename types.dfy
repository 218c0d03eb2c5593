/** The hitting data model: players, outings, at-bats, pitches and batted balls.
    Identifiers and free text are strings; JavaScript numbers are reals, except
    pitch counts, which are whole numbers. Optional fields are `Option`s. */
module HittingTypes {
  import opened Common

  datatype OutingType = Game | BattingPractice | CageSession | LiveAbs

  datatype Bats = L | R | S

  /** The result recorded on a pitch location point ('hit' | 'whiff' | 'foul' | 'ball'). */
  datatype HitResult = LocHit | LocWhiff | LocFoul | LocBall

  datatype HitType = GroundBall | LineDrive | FlyBall | Popup

  datatype AtBatResult = Strikeout | Walk | Hbp | Single | Double | Triple | Hr | Out

  datatype PitchOutcome =
    | BallOutcome | StrikeLooking | StrikeSwinging | Foul | FoulTip | InPlayOut | InPlayHit

  /** The results that put the ball in play: 'single', 'double', 'triple', 'hr', 'out'. */
  predicate IsBallInPlay(r: AtBatResult) {
    r in {Single, Double, Triple, Hr, Out}
  }

  /** An official at-bat: every plate appearance except a walk or a hit-by-pitch. */
  predicate IsOfficialAtBat(r: AtBatResult) {
    r !in {Walk, Hbp}
  }

  /** A hit: 'single', 'double', 'triple' or 'hr'. */
  predicate IsHit(r: AtBatResult) {
    r in {Single, Double, Triple, Hr}
  }

  /** The result of a batted ball is one of the ball-in-play results. */
  type SprayResult = r: AtBatResult | IsBallInPlay(r) witness Out

  datatype Player = Player(
    id: string,
    name: string,
    number: string,
    position: Option<string>,
    bats: Bats,
    avatar: Option<string>)

  datatype SprayChartPoint = SprayChartPoint(
    id: string,
    x: real,
    y: real,
    result: SprayResult,
    hitType: HitType,
    exitVelocity: Option<real>,
    isBarrel: Option<bool>)

  datatype LocationPoint = LocationPoint(
    id: string,
    x: real,
    y: real,
    result: HitResult,
    exitVelocity: Option<real>,
    isBarrel: Option<bool>)

  datatype Location = Location(x: real, y: real)

  datatype Pitch = Pitch(location: Location, outcome: PitchOutcome)

  datatype AtBat = AtBat(
    id: string,
    pitchCount: int,
    result: AtBatResult,
    locations: seq<LocationPoint>,
    sprayPoint: Option<SprayChartPoint>,
    notes: Option<string>,
    pitches: Option<seq<Pitch>>)

  datatype Outing = Outing(
    id: string,
    playerId: string,
    outingType: OutingType,
    date: string,
    opponent: Option<string>,
    atBats: seq<AtBat>,
    notes: Option<string>,
    isComplete: bool)

  /** `atBats.map(ab => ab.sprayPoint).filter(sp => !!sp)`: the spray points
      of the at-bats that have one, in at-bat order. */
  function SprayPointsOf(atBats: seq<AtBat>): (r: seq<SprayChartPoint>)
    ensures |r| <= |atBats|
    ensures forall sp :: sp in r <==> exists i :: 0 <= i < |atBats| && atBats[i].sprayPoint == Some(sp)
  {
    if atBats == [] then []
    else
      var rest := SprayPointsOf(atBats[1..]);
      assert forall sp :: (exists i :: 0 <= i < |atBats[1..]| && atBats[1..][i].sprayPoint == Some(sp))
                         <==> (exists i :: 1 <= i < |atBats| && atBats[i].sprayPoint == Some(sp)) by {
        forall sp | exists i :: 1 <= i < |atBats| && atBats[i].sprayPoint == Some(sp)
          ensures exists i :: 0 <= i < |atBats[1..]| && atBats[1..][i].sprayPoint == Some(sp)
        {
          var i :| 1 <= i < |atBats| && atBats[i].sprayPoint == Some(sp);
          assert atBats[1..][i - 1] == atBats[i];
        }
      }
      match atBats[0].sprayPoint
      case Some(sp) => [sp] + rest
      case None => rest
  }

  /** Recording one more at-bat adds its spray point, if it has one, at the end. */
  lemma {:induction false} SprayPointsAppend(atBats: seq<AtBat>, ab: AtBat)
    ensures SprayPointsOf(atBats + [ab])
            == SprayPointsOf(atBats) + (if ab.sprayPoint.Some? then [ab.sprayPoint.value] else [])
  {
    if atBats == [] {
      assert atBats + [ab] == [ab];
    } else {
      assert (atBats + [ab])[0] == atBats[0];
      assert (atBats + [ab])[1..] == atBats[1..] + [ab];
      SprayPointsAppend(atBats[1..], ab);
    }
  }

  /** Every hit is an official at-bat, so a hit count never exceeds an at-bat count. */
  lemma HitIsOfficial(r: AtBatResult)
    ensures IsHit(r) ==> IsOfficialAtBat(r)
    ensures IsHit(r) ==> IsBallInPlay(r)
  {
  }
}
