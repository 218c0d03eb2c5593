/** The in-memory store of players and outings shared by every page: two
    lists that the add, update and delete operations replace wholesale. */
module HittingStore {
  import opened Common
  import opened HittingTypes

  // ---------------------------------------------------------------------------
  // The list transformations behind the mutators

  /** `p => p.id !== id` */
  function PlayerIdIsNot(id: string): Player -> bool {
    (p: Player) => p.id != id
  }

  /** `o => o.id !== id` */
  function OutingIdIsNot(id: string): Outing -> bool {
    (o: Outing) => o.id != id
  }

  /** `o => o.playerId !== playerId` */
  function NotOfPlayer(playerId: string): Outing -> bool {
    (o: Outing) => o.playerId != playerId
  }

  /** `o => o.playerId === playerId` */
  function OfPlayer(playerId: string): Outing -> bool {
    (o: Outing) => o.playerId == playerId
  }

  /** `players.map(p => p.id === player.id ? player : p)` */
  function ReplacePlayer(players: seq<Player>, player: Player): (r: seq<Player>)
    ensures |r| == |players|
  {
    seq(|players|, i requires 0 <= i < |players| => if players[i].id == player.id then player else players[i])
  }

  /** `outings.map(o => o.id === outing.id ? outing : o)` */
  function ReplaceOuting(outings: seq<Outing>, outing: Outing): (r: seq<Outing>)
    ensures |r| == |outings|
  {
    seq(|outings|, i requires 0 <= i < |outings| => if outings[i].id == outing.id then outing else outings[i])
  }

  /** `outings.find(o => o.id === id)`: the first outing with that id. */
  function FindOuting(outings: seq<Outing>, id: string): (r: Option<Outing>)
    ensures r.None? <==> forall i :: 0 <= i < |outings| ==> outings[i].id != id
    ensures r.Some? ==> r.value.id == id
    ensures r.Some? ==>
              exists i :: 0 <= i < |outings| && outings[i] == r.value &&
                          forall j :: 0 <= j < i ==> outings[j].id != id
  {
    if outings == [] then None
    else if outings[0].id == id then Some(outings[0])
    else
      var r := FindOuting(outings[1..], id);
      assert forall i :: 1 <= i < |outings| ==> outings[i] == outings[1..][i - 1];
      if r.Some? then
        var k :| 0 <= k < |outings[1..]| && outings[1..][k] == r.value &&
                 forall j :: 0 <= j < k ==> outings[1..][j].id != id;
        assert outings[k + 1] == r.value;
        r
      else r
  }

  // ---------------------------------------------------------------------------
  // The store

  class Store {
    var players: seq<Player>
    var outings: seq<Outing>

    constructor (initialPlayers: seq<Player>, initialOutings: seq<Outing>)
      ensures players == initialPlayers && outings == initialOutings
    {
      players := initialPlayers;
      outings := initialOutings;
    }

    /** addPlayer: append the player; outings are untouched. */
    method AddPlayer(player: Player)
      modifies this
      ensures players == old(players) + [player]
      ensures outings == old(outings)
    {
      players := players + [player];
    }

    /** updatePlayer: replace every player carrying the same id. */
    method UpdatePlayer(player: Player)
      modifies this
      ensures players == ReplacePlayer(old(players), player)
      ensures outings == old(outings)
    {
      players := ReplacePlayer(players, player);
    }

    /** deletePlayer: drop the player and, with it, every outing of the player. */
    method DeletePlayer(id: string)
      modifies this
      ensures players == Filter(old(players), PlayerIdIsNot(id))
      ensures outings == Filter(old(outings), NotOfPlayer(id))
    {
      players := Filter(players, PlayerIdIsNot(id));
      outings := Filter(outings, NotOfPlayer(id));
    }

    /** addOuting: append the outing; players are untouched. */
    method AddOuting(outing: Outing)
      modifies this
      ensures outings == old(outings) + [outing]
      ensures players == old(players)
    {
      outings := outings + [outing];
    }

    /** updateOuting: replace every outing carrying the same id; a stored
        outing is then found under its id as the new record. */
    method UpdateOuting(outing: Outing)
      modifies this
      ensures outings == ReplaceOuting(old(outings), outing)
      ensures FindOuting(old(outings), outing.id).Some? ==> FindOuting(outings, outing.id) == Some(outing)
      ensures players == old(players)
    {
      if FindOuting(outings, outing.id).Some? {
        FindAfterReplace(outings, outing);
      }
      outings := ReplaceOuting(outings, outing);
    }

    /** deleteOuting: drop every outing with that id. */
    method DeleteOuting(id: string)
      modifies this
      ensures outings == Filter(old(outings), OutingIdIsNot(id))
      ensures players == old(players)
    {
      outings := Filter(outings, OutingIdIsNot(id));
    }

    /** getPlayerOutings: the player's outings, in stored order. */
    function PlayerOutings(playerId: string): (r: seq<Outing>)
      reads this
      ensures forall o :: o in r <==> o in outings && o.playerId == playerId
    {
      var r := Filter(outings, OfPlayer(playerId));
      forall o ensures o in r <==> o in outings && o.playerId == playerId {
        FilterMembership(outings, OfPlayer(playerId), o);
      }
      r
    }
  }

  // ---------------------------------------------------------------------------
  // What the mutators promise

  /** After an update, the updated player is the one stored under its id,
      every other player keeps its place, and ids and order are unchanged. */
  lemma ReplacePlayerEffect(players: seq<Player>, player: Player)
    ensures forall i :: 0 <= i < |players| && players[i].id == player.id ==>
              ReplacePlayer(players, player)[i] == player
    ensures forall i :: 0 <= i < |players| && players[i].id != player.id ==>
              ReplacePlayer(players, player)[i] == players[i]
    ensures forall i :: 0 <= i < |players| ==> ReplacePlayer(players, player)[i].id == players[i].id
  {
  }

  /** Updating a player whose id is not stored changes nothing. */
  lemma ReplacePlayerAbsent(players: seq<Player>, player: Player)
    requires forall i :: 0 <= i < |players| ==> players[i].id != player.id
    ensures ReplacePlayer(players, player) == players
  {
  }

  /** Updating with the same record twice is the same as once. */
  lemma ReplacePlayerIdempotent(players: seq<Player>, player: Player)
    ensures ReplacePlayer(ReplacePlayer(players, player), player) == ReplacePlayer(players, player)
  {
  }

  /** Updating the player just added replaces only the new last entry. */
  lemma UpdateAfterAdd(players: seq<Player>, player: Player, revised: Player)
    requires revised.id == player.id
    requires forall i :: 0 <= i < |players| ==> players[i].id != player.id
    ensures ReplacePlayer(players + [player], revised) == players + [revised]
  {
    var r := ReplacePlayer(players + [player], revised);
    forall i | 0 <= i < |players| ensures r[i] == players[i] {
      assert (players + [player])[i] == players[i];
    }
    assert r[|players|] == revised;
  }

  lemma ReplaceOutingEffect(outings: seq<Outing>, outing: Outing)
    ensures forall i :: 0 <= i < |outings| && outings[i].id == outing.id ==>
              ReplaceOuting(outings, outing)[i] == outing
    ensures forall i :: 0 <= i < |outings| && outings[i].id != outing.id ==>
              ReplaceOuting(outings, outing)[i] == outings[i]
  {
  }

  /** After an update of a stored outing, looking its id up finds the new record. */
  lemma FindAfterReplace(outings: seq<Outing>, outing: Outing)
    requires FindOuting(outings, outing.id).Some?
    ensures FindOuting(ReplaceOuting(outings, outing), outing.id) == Some(outing)
  {
    var r := ReplaceOuting(outings, outing);
    var k :| 0 <= k < |outings| && outings[k] == FindOuting(outings, outing.id).value &&
             forall j :: 0 <= j < k ==> outings[j].id != outing.id;
    assert r[k] == outing;
    var found := FindOuting(r, outing.id);
    var i :| 0 <= i < |r| && r[i] == found.value && forall j :: 0 <= j < i ==> r[j].id != outing.id;
    assert r[i].id == outing.id;
  }

  /** Updating an outing whose id is not stored changes nothing. */
  lemma ReplaceOutingAbsent(outings: seq<Outing>, outing: Outing)
    requires forall i :: 0 <= i < |outings| ==> outings[i].id != outing.id
    ensures ReplaceOuting(outings, outing) == outings
  {
  }

  /** Deleting a player removes every trace of it: no player keeps the id, no
      outing keeps it as owner, and every other player and outing survives
      with its multiplicity. */
  lemma DeletePlayerCascade(players: seq<Player>, outings: seq<Outing>, id: string)
    ensures forall p :: p in Filter(players, PlayerIdIsNot(id)) <==> p in players && p.id != id
    ensures forall o :: o in Filter(outings, NotOfPlayer(id)) <==> o in outings && o.playerId != id
    ensures Filter(Filter(outings, NotOfPlayer(id)), OfPlayer(id)) == []
    ensures forall o :: multiset(Filter(outings, NotOfPlayer(id)))[o]
                        == if o.playerId != id then multiset(outings)[o] else 0
  {
    forall p ensures p in Filter(players, PlayerIdIsNot(id)) <==> p in players && p.id != id {
      FilterMembership(players, PlayerIdIsNot(id), p);
    }
    forall o ensures o in Filter(outings, NotOfPlayer(id)) <==> o in outings && o.playerId != id {
      FilterMembership(outings, NotOfPlayer(id), o);
    }
    var kept := Filter(outings, NotOfPlayer(id));
    FilterAllOrNone(kept, OfPlayer(id));
    FilterMultiset(outings, NotOfPlayer(id));
  }

  /** Deleting an outing removes exactly the outings with that id. */
  lemma DeleteOutingExact(outings: seq<Outing>, id: string)
    ensures forall o :: multiset(Filter(outings, OutingIdIsNot(id)))[o]
                        == if o.id != id then multiset(outings)[o] else 0
    ensures (forall i :: 0 <= i < |outings| ==> outings[i].id != id) ==>
              Filter(outings, OutingIdIsNot(id)) == outings
  {
    FilterMultiset(outings, OutingIdIsNot(id));
    FilterAllOrNone(outings, OutingIdIsNot(id));
  }

  /** A player's outings after an outing is added: the old ones, then the new
      one if it is the player's. */
  lemma PlayerOutingsAfterAdd(outings: seq<Outing>, outing: Outing, playerId: string)
    ensures Filter(outings + [outing], OfPlayer(playerId))
            == Filter(outings, OfPlayer(playerId)) + (if outing.playerId == playerId then [outing] else [])
  {
    FilterAppend(outings, [outing], OfPlayer(playerId));
  }
}
