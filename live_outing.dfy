/** Live tracking of an outing, pitch by pitch: pitch locations accumulate in
    the current at-bat, a tap on the field marks the batted ball, and a result
    button records the at-bat into the stored outing and starts the next one.
    Ids come from the clock and the exit velocity from a text field; both
    arrive here as parameters (`None` for an empty exit-velocity field). */
module LiveOuting {
  import opened Common
  import opened HittingTypes
  import opened HittingStore
  import opened OutingDetail

  /** The batted ball marked on the field before the result is known. */
  datatype PendingSpray = PendingSpray(
    id: string,
    x: real,
    y: real,
    hitType: HitType,
    exitVelocity: Option<real>,
    isBarrel: bool)

  /** The batted ball stored with an at-bat: the marked point, completed with
      the result and with the exit velocity and barrel flag in the form when
      the result is chosen; nothing unless a point was marked and the result
      puts the ball in play. */
  function RecordedSpray(pending: Option<PendingSpray>, result: AtBatResult,
                         exitVelo: Option<real>, isBarrel: bool): Option<SprayChartPoint>
  {
    if pending.Some? && IsBallInPlay(result) then
      var p := pending.value;
      Some(SprayChartPoint(p.id, p.x, p.y, result, p.hitType, exitVelo, Some(isBarrel)))
    else None
  }

  /** The at-bat handleResult stores: a pitch count of 0 is recorded as 1. */
  function RecordedAtBat(now: string, pitchCount: nat, locations: seq<LocationPoint>,
                         pending: Option<PendingSpray>, exitVelo: Option<real>, isBarrel: bool,
                         result: AtBatResult): AtBat
  {
    AtBat(now, if pitchCount == 0 then 1 else pitchCount, result, locations,
          RecordedSpray(pending, result, exitVelo, isBarrel), None, None)
  }

  /** What a recorded at-bat promises: at least one pitch, every location
      tapped during the at-bat kept in order, a batted ball exactly when one
      was marked and the ball was put in play, and that ball carrying the
      at-bat's result, the marked position and hit type, and the form's exit
      velocity and barrel flag. */
  lemma RecordedAtBatFacts(now: string, pitchCount: nat, locations: seq<LocationPoint>,
                           pending: Option<PendingSpray>, exitVelo: Option<real>, isBarrel: bool,
                           result: AtBatResult)
    requires pitchCount == |locations|
    ensures var ab := RecordedAtBat(now, pitchCount, locations, pending, exitVelo, isBarrel, result);
            ab.pitchCount >= 1 && ab.pitchCount >= |ab.locations| && ab.locations == locations &&
            ab.result == result && SprayConsistent(ab) &&
            (ab.sprayPoint.Some? <==> pending.Some? && IsBallInPlay(result)) &&
            (ab.sprayPoint.Some? ==>
               ab.sprayPoint.value.x == pending.value.x && ab.sprayPoint.value.y == pending.value.y &&
               ab.sprayPoint.value.hitType == pending.value.hitType &&
               ab.sprayPoint.value.exitVelocity == exitVelo &&
               ab.sprayPoint.value.isBarrel == Some(isBarrel))
  {
  }

  class LiveOutingPage {
    const store: Store
    const outingId: string
    var pitchCount: nat
    var locations: seq<LocationPoint>
    var sprayPoint: Option<PendingSpray>
    var exitVelo: Option<real>
    var isBarrel: bool
    var hitType: HitType

    /** One pitch is counted per location tapped in the current at-bat. */
    ghost predicate Valid()
      reads this
    {
      pitchCount == |locations|
    }

    /** A fresh at-bat: no pitches, no batted ball, an empty exit velocity,
        no barrel, and line drive selected. */
    constructor (store: Store, outingId: string)
      ensures Valid()
      ensures this.store == store && this.outingId == outingId
      ensures pitchCount == 0 && locations == [] && sprayPoint == None
      ensures exitVelo == None && !isBarrel && hitType == LineDrive
    {
      this.store := store;
      this.outingId := outingId;
      pitchCount := 0;
      locations := [];
      sprayPoint := None;
      exitVelo := None;
      isBarrel := false;
      hitType := LineDrive;
    }

    /** handleLocationClick: one more pitch, at the tapped location, marked
        as a ball until the result is known. */
    method HandleLocationClick(now: string, x: real, y: real)
      requires Valid()
      modifies this
      ensures Valid()
      ensures locations == old(locations) + [LocationPoint(now, x, y, LocBall, None, None)]
      ensures pitchCount == old(pitchCount) + 1
      ensures sprayPoint == old(sprayPoint) && exitVelo == old(exitVelo)
      ensures isBarrel == old(isBarrel) && hitType == old(hitType)
    {
      pitchCount := pitchCount + 1;
      locations := locations + [LocationPoint(now, x, y, LocBall, None, None)];
    }

    /** handleSprayClick: mark the batted ball with the hit type, exit
        velocity and barrel flag currently selected. */
    method HandleSprayClick(now: string, x: real, y: real)
      requires Valid()
      modifies this
      ensures Valid()
      ensures sprayPoint == Some(PendingSpray(now, x, y, hitType, exitVelo, isBarrel))
      ensures pitchCount == old(pitchCount) && locations == old(locations)
      ensures exitVelo == old(exitVelo) && isBarrel == old(isBarrel) && hitType == old(hitType)
    {
      sprayPoint := Some(PendingSpray(now, x, y, hitType, exitVelo, isBarrel));
    }

    method SetHitType(t: HitType)
      requires Valid()
      modifies this
      ensures Valid()
      ensures hitType == t
      ensures pitchCount == old(pitchCount) && locations == old(locations) && sprayPoint == old(sprayPoint)
      ensures exitVelo == old(exitVelo) && isBarrel == old(isBarrel)
    {
      hitType := t;
    }

    method SetExitVelo(v: Option<real>)
      requires Valid()
      modifies this
      ensures Valid()
      ensures exitVelo == v
      ensures pitchCount == old(pitchCount) && locations == old(locations) && sprayPoint == old(sprayPoint)
      ensures isBarrel == old(isBarrel) && hitType == old(hitType)
    {
      exitVelo := v;
    }

    /** The barrel button flips the flag. */
    method ToggleBarrel()
      requires Valid()
      modifies this
      ensures Valid()
      ensures isBarrel == !old(isBarrel)
      ensures pitchCount == old(pitchCount) && locations == old(locations) && sprayPoint == old(sprayPoint)
      ensures exitVelo == old(exitVelo) && hitType == old(hitType)
    {
      isBarrel := !isBarrel;
    }

    /** handleResult: append the finished at-bat to the stored outing, then
        reset the at-bat, the batted ball, the exit velocity and the barrel
        flag; the selected hit type stays. The page only offers this while
        the outing exists. */
    method HandleResult(now: string, result: AtBatResult)
      requires Valid()
      requires FindOuting(store.outings, outingId).Some?
      modifies this, store
      ensures Valid()
      ensures var outing := old(FindOuting(store.outings, outingId)).value;
              var ab := RecordedAtBat(now, old(pitchCount), old(locations), old(sprayPoint),
                                      old(exitVelo), old(isBarrel), result);
              store.outings == ReplaceOuting(old(store.outings), outing.(atBats := outing.atBats + [ab])) &&
              FindOuting(store.outings, outingId) == Some(outing.(atBats := outing.atBats + [ab]))
      ensures store.players == old(store.players)
      ensures pitchCount == 0 && locations == [] && sprayPoint == None
      ensures exitVelo == None && !isBarrel && hitType == old(hitType)
    {
      var outing := FindOuting(store.outings, outingId).value;
      var ab := RecordedAtBat(now, pitchCount, locations, sprayPoint, exitVelo, isBarrel, result);
      var updated := outing.(atBats := outing.atBats + [ab]);
      assert updated.id == outingId;
      store.UpdateOuting(updated);
      ResetAtBat();
    }

    /** The reset after a result: a fresh at-bat with no batted ball, an
        empty exit velocity and no barrel; the hit type is kept. */
    method ResetAtBat()
      modifies this
      ensures Valid()
      ensures pitchCount == 0 && locations == [] && sprayPoint == None
      ensures exitVelo == None && !isBarrel && hitType == old(hitType)
    {
      pitchCount, locations, sprayPoint := 0, [], None;
      exitVelo, isBarrel := None, false;
    }

    /** handleEndOuting: mark the stored outing complete. */
    method HandleEndOuting()
      requires Valid()
      requires FindOuting(store.outings, outingId).Some?
      modifies store
      ensures var outing := old(FindOuting(store.outings, outingId)).value;
              store.outings == ReplaceOuting(old(store.outings), outing.(isComplete := true)) &&
              FindOuting(store.outings, outingId) == Some(outing.(isComplete := true))
      ensures store.players == old(store.players)
    {
      var outing := FindOuting(store.outings, outingId).value;
      store.UpdateOuting(outing.(isComplete := true));
    }
  }
}
