/** The session record store (gameState.ts): its initial value, the capped
    newest-first event log, the update stamp, net worth and the public
    snapshot. */
module SessionStore {
  import opened Types
  import BoardGenerator

  const MaxEvents: nat := 30

  /** The record as the server process starts it: in the lobby with nobody
      in it, round 1, nothing pending or recorded, no events, and the
      generated 40-tile board with its 14 unowned properties. */
  function InitialState(now: int): (s: GameState)
    ensures s.status == Waiting && s.players == [] && s.round == 1
    ensures s.currentTurnPlayerId == None && s.pendingJoinRequest == None && s.pendingTileAction == None
    ensures s.turnDeadline == None && s.lastProcessedTurnKey == None && s.lastRoll == None
    ensures s.events == [] && s.winnerId == None && s.updatedAt == now
    ensures |s.board| == 40 && |s.properties| == 14
    ensures forall k :: 0 <= k < 14 ==> s.properties[k].ownerId == None && s.properties[k].level == 0
    ensures s.board == BoardGenerator.GenerateBoard().board && s.properties == BoardGenerator.GenerateBoard().properties
  {
    BoardGenerator.BoardShape();
    BoardGenerator.GeneratedPropertiesShape();
    var g := BoardGenerator.GenerateBoard();
    GameState(Waiting, [], g.board, g.properties, None, 1, None, None, None, None, None, [], None, now)
  }

  /** The log with a new event put in front, cut to the 30 newest. */
  function PushEvent(events: seq<GameEvent>, e: GameEvent): (r: seq<GameEvent>)
    ensures |r| <= MaxEvents && |r| > 0 && r[0] == e
    ensures r == [e] + events[..Min(|events|, MaxEvents - 1)]
  {
    var all := [e] + events;
    assert all[1..] == events;
    all[..Min(|all|, MaxEvents)]
  }

  /** The record after `addEvent(kind, note)` at time `now`: only the log
      changes, and the new event heads it. */
  function WithEvent(s: GameState, kind: EventKind, note: Note, now: int): (t: GameState)
    ensures t == s.(events := t.events) && 0 < |t.events| <= MaxEvents
    ensures t.events[0] == GameEvent(kind, note, now) && t.events[1..] == s.events[..Min(|s.events|, MaxEvents - 1)]
  {
    s.(events := PushEvent(s.events, GameEvent(kind, note, now)))
  }

  function PlayerIds(ps: seq<Player>): set<PlayerId>
  {
    set i | 0 <= i < |ps| :: ps[i].id
  }

  predicate UniquePlayerIds(ps: seq<Player>)
  {
    forall a, b :: 0 <= a < b < |ps| ==> ps[a].id != ps[b].id
  }

  /** What one property adds to its owner's net worth. */
  function Holding(p: Property): int
  {
    p.value + p.level * 100
  }

  /** Sum of value + level*100 over the properties whose owner is `id`. */
  function OwnedValue(props: seq<Property>, id: PlayerId): int
  {
    if |props| == 0 then 0
    else OwnedValue(props[..|props| - 1], id) +
         (if props[|props| - 1].ownerId == Some(id) then Holding(props[|props| - 1]) else 0)
  }

  /** Replacing one property changes the sum by exactly the difference of
      the two contributions. */
  lemma {:induction false} OwnedValueUpdate(props: seq<Property>, k: nat, q: Property, id: PlayerId)
    requires k < |props|
    ensures OwnedValue(props[k := q], id) ==
      OwnedValue(props, id)
      - (if props[k].ownerId == Some(id) then Holding(props[k]) else 0)
      + (if q.ownerId == Some(id) then Holding(q) else 0)
  {
    var n := |props|;
    if k < n - 1 {
      assert props[k := q][..n - 1] == props[..n - 1][k := q];
      OwnedValueUpdate(props[..n - 1], k, q, id);
    } else {
      assert props[k := q][..n - 1] == props[..n - 1];
    }
  }

  /** Nobody owning anything means no owned value. */
  lemma {:induction false} OwnedValueUnowned(props: seq<Property>, id: PlayerId)
    requires forall k :: 0 <= k < |props| ==> props[k].ownerId != Some(id)
    ensures OwnedValue(props, id) == 0
  {
    if |props| > 0 {
      OwnedValueUnowned(props[..|props| - 1], id);
    }
  }

  /** `netWorthForPlayer`: 0 for an unknown id, otherwise coins plus the
      owned value. */
  function NetWorthForPlayer(s: GameState, id: PlayerId): int
  {
    match FindPlayer(s.players, id)
    case None => 0
    case Some(i) => s.players[i].coins + OwnedValue(s.properties, id)
  }

  // ---------------------------------------------------------------- net worth as the source sums it

  /** The properties owned by `id`, in their order: the `filter` step. */
  function OwnedBy(props: seq<Property>, id: PlayerId): seq<Property>
  {
    if |props| == 0 then []
    else (if props[0].ownerId == Some(id) then [props[0]] else []) + OwnedBy(props[1..], id)
  }

  /** The left-to-right sum of the holdings, from `acc`: the `reduce` step. */
  function ReduceHoldings(qs: seq<Property>, acc: int): int
  {
    if |qs| == 0 then acc else ReduceHoldings(qs[1..], acc + Holding(qs[0]))
  }

  lemma {:induction false} OwnedBySnoc(props: seq<Property>, p: Property, id: PlayerId)
    ensures OwnedBy(props + [p], id) == OwnedBy(props, id) + (if p.ownerId == Some(id) then [p] else [])
  {
    if |props| > 0 {
      assert (props + [p])[1..] == props[1..] + [p];
      OwnedBySnoc(props[1..], p, id);
    }
  }

  lemma {:induction false} ReduceSnoc(qs: seq<Property>, q: Property, acc: int)
    ensures ReduceHoldings(qs + [q], acc) == ReduceHoldings(qs, acc) + Holding(q)
  {
    if |qs| > 0 {
      assert (qs + [q])[1..] == qs[1..] + [q];
      ReduceSnoc(qs[1..], q, acc + Holding(qs[0]));
    }
  }

  /** The owned value, summed from the back, is the source's
      filter-then-reduce over the properties whose owner is `id`. */
  lemma {:induction false} OwnedValueIsFilteredSum(props: seq<Property>, id: PlayerId)
    ensures OwnedValue(props, id) == ReduceHoldings(OwnedBy(props, id), 0)
  {
    var n := |props|;
    if n > 0 {
      var front, last := props[..n - 1], props[n - 1];
      assert props == front + [last];
      OwnedValueIsFilteredSum(front, id);
      OwnedBySnoc(front, last, id);
      if last.ownerId == Some(id) {
        ReduceSnoc(OwnedBy(front, id), last, 0);
      } else {
        assert OwnedBy(props, id) == OwnedBy(front, id);
      }
    }
  }

  /** Net worth is 0 for an unknown id; otherwise the player's coins plus
      the filtered, reduced sum of value + level*100 over what they own. */
  lemma NetWorthIsFilteredSum(s: GameState, id: PlayerId)
    ensures FindPlayer(s.players, id).None? ==> NetWorthForPlayer(s, id) == 0
    ensures FindPlayer(s.players, id).Some? ==>
      NetWorthForPlayer(s, id) ==
        s.players[FindPlayer(s.players, id).value].coins + ReduceHoldings(OwnedBy(s.properties, id), 0)
  {
    OwnedValueIsFilteredSum(s.properties, id);
  }

  datatype PublicState = PublicState(state: GameState, netWorthByPlayer: map<PlayerId, int>)

  /** The net-worth map of the snapshot: one entry per listed player, keyed
      by id. */
  function NetWorthEntries(s: GameState, ps: seq<Player>): (m: map<PlayerId, int>)
    ensures m.Keys == PlayerIds(ps)
    ensures forall id :: id in m ==> m[id] == NetWorthForPlayer(s, id)
  {
    if |ps| == 0 then map[]
    else
      var rest := NetWorthEntries(s, ps[..|ps| - 1]);
      assert PlayerIds(ps) == PlayerIds(ps[..|ps| - 1]) + {ps[|ps| - 1].id} by {
        forall id | id in PlayerIds(ps) ensures id in PlayerIds(ps[..|ps| - 1]) + {ps[|ps| - 1].id} {
          var i :| 0 <= i < |ps| && ps[i].id == id;
          if i < |ps| - 1 { assert ps[..|ps| - 1][i] == ps[i]; }
        }
      }
      rest[ps[|ps| - 1].id := NetWorthForPlayer(s, ps[|ps| - 1].id)]
  }

  /** The snapshot served to clients: the record unchanged plus one net-worth
      entry for exactly the current players. */
  function ToPublicState(s: GameState): (p: PublicState)
    ensures p.state == s
    ensures p.netWorthByPlayer.Keys == PlayerIds(s.players)
    ensures forall id :: id in p.netWorthByPlayer ==> p.netWorthByPlayer[id] == NetWorthForPlayer(s, id)
  {
    PublicState(s, NetWorthEntries(s, s.players))
  }

  /** The process-wide holder of the session record (`getState()`). */
  class Store {
    var state: GameState

    constructor (now: int)
      ensures state == InitialState(now)
    {
      state := InitialState(now);
    }

    /** `addEvent`: the new event goes first and the log keeps at most 30. */
    method AddEvent(kind: EventKind, note: Note, now: int)
      modifies this
      ensures state == old(state).(events := PushEvent(old(state).events, GameEvent(kind, note, now)))
    {
      var event := GameEvent(kind, note, now);
      var all := [event] + state.events;
      state := state.(events := all[..Min(|all|, MaxEvents)]);
    }

    /** `markUpdated`: only the update stamp changes. */
    method MarkUpdated(now: int)
      modifies this
      ensures state == old(state).(updatedAt := now)
    {
      state := state.(updatedAt := now);
    }
  }
}
