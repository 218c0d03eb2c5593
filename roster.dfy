/** The roster page: the player search, the add-player form, and each
    player's batting average and outing count. */
module Roster {
  import opened Common
  import opened HittingTypes
  import opened HittingStore
  import opened OutingDetail

  /** `s.includes(sub)`: `sub` occurs in `s` as a contiguous run; the empty
      string occurs in every string. */
  predicate Contains(s: string, sub: string) {
    exists i :: 0 <= i <= |s| && sub <= s[i..]
  }

  lemma ContainsEmpty(s: string)
    ensures Contains(s, "")
  {
    assert "" <= s[0..];
  }

  /** The search matches a player whose lower-cased name contains the
      lower-cased search, or whose number contains the search as typed.
      `lower` stands for `toLowerCase`. */
  function MatchesSearch(search: string, lower: string -> string): Player -> bool {
    (p: Player) => Contains(lower(p.name), lower(search)) || Contains(p.number, search)
  }

  /** filteredPlayers */
  function FilteredPlayers(players: seq<Player>, search: string, lower: string -> string): seq<Player> {
    Filter(players, MatchesSearch(search, lower))
  }

  /** A player is listed exactly when the search matches it, and the list
      keeps the roster order. */
  lemma FilteredPlayersMembers(players: seq<Player>, search: string, lower: string -> string)
    ensures forall p :: p in FilteredPlayers(players, search, lower) <==>
              p in players && (Contains(lower(p.name), lower(search)) || Contains(p.number, search))
  {
    forall p ensures p in FilteredPlayers(players, search, lower) <==>
                     p in players && (Contains(lower(p.name), lower(search)) || Contains(p.number, search))
    {
      FilterMembership(players, MatchesSearch(search, lower), p);
    }
  }

  /** An empty search lists every player, whatever lower-casing does. */
  lemma EmptySearchShowsAll(players: seq<Player>, lower: string -> string)
    ensures FilteredPlayers(players, "", lower) == players
  {
    forall i | 0 <= i < |players| ensures MatchesSearch("", lower)(players[i]) {
      ContainsEmpty(players[i].number);
    }
    FilterAllOrNone(players, MatchesSearch("", lower));
  }

  // ---------------------------------------------------------------------------
  // Per-player statistics

  function OfficialAbsOf(o: Outing): nat { TotalAbs(o.atBats) }

  function HitsOf(o: Outing): nat { Hits(o.atBats) }

  datatype PlayerStats = PlayerStats(avg: real, outings: nat)

  /** getPlayerStats: official at-bats and hits summed over the player's
      outings, their ratio (0 without at-bats), and the outing count. */
  function GetPlayerStats(outings: seq<Outing>, playerId: string): PlayerStats {
    var playerOutings := Filter(outings, OfPlayer(playerId));
    var totalAbs := NatSumOf(playerOutings, OfficialAbsOf);
    var hits := NatSumOf(playerOutings, HitsOf);
    PlayerStats(BattingAvg(hits, totalAbs), |playerOutings|)
  }

  lemma {:induction false} HitsAtMostAbs(outings: seq<Outing>)
    ensures NatSumOf(outings, HitsOf) <= NatSumOf(outings, OfficialAbsOf)
  {
    if outings != [] {
      CountsOrdered(outings[0].atBats);
      HitsAtMostAbs(outings[1..]);
    }
  }

  /** A player's average lies in [0, 1], and the outing count is the number
      of outings stored for the player. */
  lemma PlayerStatsFacts(outings: seq<Outing>, playerId: string)
    ensures 0.0 <= GetPlayerStats(outings, playerId).avg <= 1.0
    ensures GetPlayerStats(outings, playerId).outings == |Filter(outings, OfPlayer(playerId))|
    ensures (forall i :: 0 <= i < |outings| ==> outings[i].playerId != playerId) ==>
              GetPlayerStats(outings, playerId) == PlayerStats(0.0, 0)
  {
    var playerOutings := Filter(outings, OfPlayer(playerId));
    HitsAtMostAbs(playerOutings);
    BattingAvgRange(NatSumOf(playerOutings, HitsOf), NatSumOf(playerOutings, OfficialAbsOf));
    FilterAllOrNone(outings, OfPlayer(playerId));
  }

  // ---------------------------------------------------------------------------
  // The add-player form

  class RosterPage {
    const store: Store
    var name: string
    var number: string
    var bats: Bats
    var dialogOpen: bool

    /** An empty form batting right-handed. */
    constructor (store: Store)
      ensures this.store == store
      ensures name == "" && number == "" && bats == R && !dialogOpen
    {
      this.store := store;
      name := "";
      number := "";
      bats := R;
      dialogOpen := false;
    }

    /** handleAddPlayer: with a name and a number filled in, add the player
        under the id `now`, reset the form and close the dialog; otherwise do nothing. */
    method HandleAddPlayer(now: string)
      modifies this, store
      ensures old(name) == "" || old(number) == "" ==>
                store.players == old(store.players) && name == old(name) &&
                number == old(number) && bats == old(bats) && dialogOpen == old(dialogOpen)
      ensures old(name) != "" && old(number) != "" ==>
                store.players == old(store.players) + [Player(now, old(name), old(number), None, old(bats), None)] &&
                name == "" && number == "" && bats == R && !dialogOpen
      ensures store.outings == old(store.outings)
    {
      if name == "" || number == "" {
        return;
      }
      var player := Player(now, name, number, None, bats, None);
      store.AddPlayer(player);
      name, number, bats := "", "", R;
      dialogOpen := false;
    }
  }
}
