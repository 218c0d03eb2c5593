/** Logging a finished outing after the fact: at-bats are composed one at a
    time in a draft form and collected in a local list, which is written to
    the stored outing, marked complete, on save. Ids come from the clock and
    the number fields from text inputs; both arrive here already parsed. */
module LogOuting {
  import opened Common
  import opened HittingTypes
  import opened HittingStore
  import opened OutingDetail

  /** The draft at-bat form; `result` is `None` until a result is chosen and
      `exitVelo` is `None` for an empty field. */
  datatype Draft = Draft(
    result: Option<AtBatResult>,
    pitchCount: int,
    sprayPoint: Option<Location>,
    hitType: HitType,
    exitVelo: Option<real>,
    isBarrel: bool)

  /** The empty draft: no result, no pitches, no batted ball, line drive. */
  const InitialDraft := Draft(None, 0, None, LineDrive, None, false)

  /** The at-bat handleAddAB appends: the clock is read once for the id of
      the at-bat (`now`) and once more for the id of its batted ball
      (`sprayNow`), a pitch count of 0 is recorded as 1, and no pitch
      locations are kept. */
  function LoggedAtBat(now: string, sprayNow: string, result: AtBatResult, draft: Draft): AtBat {
    var spray :=
      if IsBallInPlay(result) && draft.sprayPoint.Some? then
        Some(SprayChartPoint(sprayNow, draft.sprayPoint.value.x, draft.sprayPoint.value.y, result,
                             draft.hitType, draft.exitVelo, Some(draft.isBarrel)))
      else None;
    AtBat(now, if draft.pitchCount == 0 then 1 else draft.pitchCount, result, [], spray, None, None)
  }

  /** What a logged at-bat promises: the first clock reading as its id, a
      nonzero pitch count that is the draft's whenever the draft has one, no
      locations, a batted ball exactly when the result is in play and a point
      was marked, and that ball carrying the second clock reading as its id,
      the at-bat's result and the draft's position, hit type, exit velocity
      and barrel flag. */
  lemma LoggedAtBatFacts(now: string, sprayNow: string, result: AtBatResult, draft: Draft)
    ensures var ab := LoggedAtBat(now, sprayNow, result, draft);
            ab.id == now && ab.pitchCount != 0 && (draft.pitchCount != 0 ==> ab.pitchCount == draft.pitchCount) &&
            ab.locations == [] && ab.result == result && SprayConsistent(ab) &&
            (ab.sprayPoint.Some? <==> IsBallInPlay(result) && draft.sprayPoint.Some?) &&
            (ab.sprayPoint.Some? ==>
               ab.sprayPoint.value.id == sprayNow &&
               Location(ab.sprayPoint.value.x, ab.sprayPoint.value.y) == draft.sprayPoint.value &&
               ab.sprayPoint.value.hitType == draft.hitType &&
               ab.sprayPoint.value.exitVelocity == draft.exitVelo &&
               ab.sprayPoint.value.isBarrel == Some(draft.isBarrel))
  {
  }

  class LogOutingPage {
    const store: Store
    const outingId: string
    var atBats: seq<AtBat>
    var draft: Draft

    /** The local list starts as the stored outing's at-bats (none if the
        outing is not found) and the draft starts empty. */
    constructor (store: Store, outingId: string)
      ensures this.store == store && this.outingId == outingId
      ensures FindOuting(store.outings, outingId).Some? ==>
                atBats == FindOuting(store.outings, outingId).value.atBats
      ensures FindOuting(store.outings, outingId).None? ==> atBats == []
      ensures draft == InitialDraft
    {
      this.store := store;
      this.outingId := outingId;
      var found := FindOuting(store.outings, outingId);
      atBats := if found.Some? then found.value.atBats else [];
      draft := InitialDraft;
    }

    /** handleSprayClick: mark the batted ball's position. */
    method HandleSprayClick(x: real, y: real)
      modifies this
      ensures draft == old(draft).(sprayPoint := Some(Location(x, y)))
      ensures atBats == old(atBats)
    {
      draft := draft.(sprayPoint := Some(Location(x, y)));
    }

    method SelectResult(r: AtBatResult)
      modifies this
      ensures draft == old(draft).(result := Some(r))
      ensures atBats == old(atBats)
    {
      draft := draft.(result := Some(r));
    }

    method SetPitchCount(n: int)
      modifies this
      ensures draft == old(draft).(pitchCount := n)
      ensures atBats == old(atBats)
    {
      draft := draft.(pitchCount := n);
    }

    method SetHitType(t: HitType)
      modifies this
      ensures draft == old(draft).(hitType := t)
      ensures atBats == old(atBats)
    {
      draft := draft.(hitType := t);
    }

    method SetExitVelo(v: Option<real>)
      modifies this
      ensures draft == old(draft).(exitVelo := v)
      ensures atBats == old(atBats)
    {
      draft := draft.(exitVelo := v);
    }

    /** The barrel button flips the flag. */
    method ToggleBarrel()
      modifies this
      ensures draft == old(draft).(isBarrel := !old(draft).isBarrel)
      ensures atBats == old(atBats)
    {
      draft := draft.(isBarrel := !draft.isBarrel);
    }

    /** handleAddAB: without a result, nothing happens; otherwise the drafted
        at-bat is appended to the local list (its batted ball, if any, to the
        chart preview) and the whole draft is reset. `now` and `sprayNow` are
        the two clock readings taken for the at-bat and batted-ball ids. */
    method HandleAddAB(now: string, sprayNow: string)
      modifies this
      ensures old(draft).result.None? ==> atBats == old(atBats) && draft == old(draft)
      ensures old(draft).result.Some? ==>
                atBats == old(atBats) + [LoggedAtBat(now, sprayNow, old(draft).result.value, old(draft))] &&
                draft == InitialDraft
      ensures old(draft).result.Some? ==>
                var ab := LoggedAtBat(now, sprayNow, old(draft).result.value, old(draft));
                SprayPointsOf(atBats) ==
                  SprayPointsOf(old(atBats)) + (if ab.sprayPoint.Some? then [ab.sprayPoint.value] else [])
    {
      if draft.result.None? {
        return;
      }
      var ab := LoggedAtBat(now, sprayNow, draft.result.value, draft);
      SprayPointsAppend(atBats, ab);
      atBats := atBats + [ab];
      draft := InitialDraft;
    }

    /** handleSave: replace the stored outing's at-bats with the local list
        and mark it complete. The page only offers this while the outing
        exists. */
    method HandleSave()
      requires FindOuting(store.outings, outingId).Some?
      modifies store
      ensures var outing := old(FindOuting(store.outings, outingId)).value;
              store.outings == ReplaceOuting(old(store.outings), outing.(atBats := atBats, isComplete := true)) &&
              FindOuting(store.outings, outingId) == Some(outing.(atBats := atBats, isComplete := true))
      ensures store.players == old(store.players)
    {
      var outing := FindOuting(store.outings, outingId).value;
      var saved := outing.(atBats := atBats, isComplete := true);
      store.UpdateOuting(saved);
    }
  }
}
