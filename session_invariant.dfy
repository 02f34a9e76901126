/** What every operation keeps true of the session record: players stand on
    the board, the log holds at most 30 events, the deed lists of the players
    and the owners of the properties agree, and the turn fields fit the
    status. */
module SessionInvariant {
  import opened Types
  import opened SessionStore
  import Events
  import opened GameEngine
  import BoardGenerator
  import EngineProperties
  import LobbyProperties

  predicate Distinct<T(==)>(xs: seq<T>)
  {
    forall a, b :: 0 <= a < b < |xs| ==> xs[a] != xs[b]
  }

  function PropertyIds(props: seq<Property>): set<PropertyId>
  {
    set k | 0 <= k < |props| :: props[k].id
  }

  predicate UniquePropertyIds(props: seq<Property>)
  {
    forall a, b :: 0 <= a < b < |props| ==> props[a].id != props[b].id
  }

  /** Ownership is recorded consistently on both sides: ids are unique and
      player ids non-empty, every owner is a player, a property is in a
      player's list exactly when that player owns it, every listed id is a
      property, and no list holds an id twice. Every property is priced at
      no less than zero, as every generated one is. */
  predicate Ledger(ps: seq<Player>, props: seq<Property>)
  {
    UniquePlayerIds(ps) && UniquePropertyIds(props) &&
    (forall i :: 0 <= i < |ps| ==> ps[i].id != "" && Distinct(ps[i].properties)) &&
    (forall k :: 0 <= k < |props| && props[k].ownerId.Some? ==> props[k].ownerId.value in PlayerIds(ps)) &&
    (forall i, k :: 0 <= i < |ps| && 0 <= k < |props| ==>
      (props[k].id in ps[i].properties <==> props[k].ownerId == Some(ps[i].id))) &&
    (forall i, x :: 0 <= i < |ps| && x in ps[i].properties ==> x in PropertyIds(props)) &&
    (forall k :: 0 <= k < |props| ==> props[k].value >= 0)
  }

  /** The turn fields fit the status: a running game has a current player
      who is seated, only a running game has a pending action and it belongs
      to the current player, and a finished game has neither a current
      player nor a deadline. */
  predicate TurnShape(s: GameState)
  {
    (s.status == Running ==> s.currentTurnPlayerId.Some? && s.currentTurnPlayerId.value in PlayerIds(s.players)) &&
    (s.status != Running ==> s.pendingTileAction.None?) &&
    (s.status == Finished ==> s.currentTurnPlayerId.None? && s.turnDeadline.None?) &&
    (s.pendingTileAction.Some? ==> s.currentTurnPlayerId == Some(s.pendingTileAction.value.playerId))
  }

  /** The bankruptcy flags are honest: a flagged player has no coins left,
      and nobody is flagged before the game starts. */
  predicate Standing(s: GameState)
  {
    (forall j :: 0 <= j < |s.players| && s.players[j].isBankrupt ==> s.players[j].coins <= 0) &&
    (s.status == Waiting ==> forall j :: 0 <= j < |s.players| ==> !s.players[j].isBankrupt)
  }

  /** In a running game the player holding the turn is seated and not
      bankrupt. */
  predicate HolderAlive(s: GameState)
  {
    s.status == Running ==>
      s.currentTurnPlayerId.Some? && FindPlayer(s.players, s.currentTurnPlayerId.value).Some? &&
      !s.players[FindPlayer(s.players, s.currentTurnPlayerId.value).value].isBankrupt
  }

  /** Everything the invariant asks except a live turn holder: what holds in
      the middle of a resolve, once the flags are recomputed and before the
      turn passes. */
  predicate Consistent(s: GameState)
  {
    OnBoard(s) && BoardGenerator.Indexed(s.board) && |s.events| <= MaxEvents &&
    Ledger(s.players, s.properties) && TurnShape(s) && Standing(s)
  }

  predicate Valid(s: GameState)
  {
    Consistent(s) && HolderAlive(s)
  }

  // ---------------------------------------------------------------- frames

  /** Same players in the same seats with the same deed lists. */
  predicate SameSeats(ps: seq<Player>, qs: seq<Player>)
  {
    |qs| == |ps| && forall i :: 0 <= i < |ps| ==> qs[i].id == ps[i].id && qs[i].properties == ps[i].properties
  }

  /** Same properties with the same owners and values. */
  predicate SameTitles(props: seq<Property>, qprops: seq<Property>)
  {
    |qprops| == |props| &&
    forall k :: 0 <= k < |props| ==>
      qprops[k].id == props[k].id && qprops[k].ownerId == props[k].ownerId && qprops[k].value == props[k].value
  }

  /** Same players in the same seats. */
  predicate SameIds(ps: seq<Player>, qs: seq<Player>)
  {
    |qs| == |ps| && forall i :: 0 <= i < |ps| ==> qs[i].id == ps[i].id
  }

  /** Coins, positions, flags and levels play no part in the ledger. */
  lemma LedgerFrame(ps: seq<Player>, props: seq<Property>, qs: seq<Player>, qprops: seq<Property>)
    requires Ledger(ps, props) && SameSeats(ps, qs) && SameTitles(props, qprops)
    ensures Ledger(qs, qprops)
  {
    PlayerIdsKept(ps, qs);
    PropertyIdsKept(props, qprops);
  }

  // ---------------------------------------------------------------- ownership changes

  /** Buying an unowned property keeps the ledger. */
  lemma PurchaseLedger(s: GameState, i: nat, k: nat)
    requires i < |s.players| && k < |s.properties|
    requires Ledger(s.players, s.properties) && s.properties[k].ownerId.None?
    ensures var t := Purchase(s, i, k);
      Ledger(t.players, t.properties) && PlayerIds(t.players) == PlayerIds(s.players)
  {
    var t := Purchase(s, i, k);
    var ps, props := s.players, s.properties;
    var x := props[k].id;
    assert x !in ps[i].properties;
    AppendDistinct(ps[i].properties, x);
    PlayerIdsKept(ps, t.players);
    PropertyIdsKept(props, t.properties);
    PurchaseDeeds(s, i, k);
  }

  /** Appending an id not yet listed keeps a list free of repeats. */
  lemma AppendDistinct(l: seq<PropertyId>, x: PropertyId)
    requires Distinct(l) && x !in l
    ensures Distinct(l + [x])
  {
    forall a, b | 0 <= a < b < |l| + 1
      ensures (l + [x])[a] != (l + [x])[b]
    {
      if b == |l| {
        assert l[a] in l;
      }
    }
  }

  /** After a purchase each deed list still names exactly the properties
      its player owns. */
  lemma PurchaseDeeds(s: GameState, i: nat, k: nat)
    requires i < |s.players| && k < |s.properties|
    requires Ledger(s.players, s.properties) && s.properties[k].ownerId.None?
    ensures var t := Purchase(s, i, k);
      forall j, m :: 0 <= j < |t.players| && 0 <= m < |t.properties| ==>
        (t.properties[m].id in t.players[j].properties <==> t.properties[m].ownerId == Some(t.players[j].id))
  {
    var t := Purchase(s, i, k);
    forall j, m | 0 <= j < |t.players| && 0 <= m < |t.properties|
      ensures t.properties[m].id in t.players[j].properties <==> t.properties[m].ownerId == Some(t.players[j].id)
    {
      if m != k {
        assert s.properties[m].id != s.properties[k].id;
      }
    }
  }

  /** Removing one entry of a list without repeats removes exactly that id. */
  lemma RemoveAtDistinct(l: seq<PropertyId>, idx: nat)
    requires idx < |l| && Distinct(l)
    ensures Distinct(Events.RemoveAt(l, idx))
    ensures forall y :: y in Events.RemoveAt(l, idx) <==> y in l && y != l[idx]
  {
    var r := Events.RemoveAt(l, idx);
    assert forall a :: 0 <= a < |r| ==> r[a] == if a < idx then l[a] else l[a + 1];
    forall y | y in l && y != l[idx]
      ensures y in r
    {
      var a :| 0 <= a < |l| && l[a] == y;
      if a < idx {
        assert r[a] == y;
      } else {
        assert r[a - 1] == y;
      }
    }
  }

  /** Player i giving up the id at idx of its list, and property k, which
      has that id, losing its owner and level, keeps the ledger. */
  lemma ReleaseLedger(ps: seq<Player>, props: seq<Property>, i: nat, idx: nat, k: nat)
    requires Ledger(ps, props) && i < |ps| && idx < |ps[i].properties| && k < |props|
    requires props[k].id == ps[i].properties[idx]
    ensures Ledger(ps[i := ps[i].(properties := Events.RemoveAt(ps[i].properties, idx))],
                   props[k := props[k].(ownerId := None, level := 0)])
  {
    var l := ps[i].properties;
    var x := l[idx];
    var qs := ps[i := ps[i].(properties := Events.RemoveAt(l, idx))];
    var qprops := props[k := props[k].(ownerId := None, level := 0)];
    assert props[k].ownerId == Some(ps[i].id);
    RemoveAtDistinct(l, idx);
    PlayerIdsKept(ps, qs);
    PropertyIdsKept(props, qprops);
    forall j, m | 0 <= j < |ps| && 0 <= m < |props|
      ensures qprops[m].id in qs[j].properties <==> qprops[m].ownerId == Some(qs[j].id)
    {
      if m != k {
        assert props[m].id != x;
      } else if j != i {
        assert ps[j].id != ps[i].id;
      }
    }
  }

  lemma PlayerIdsKept(ps: seq<Player>, qs: seq<Player>)
    requires |qs| == |ps| && forall j :: 0 <= j < |ps| ==> qs[j].id == ps[j].id
    ensures PlayerIds(qs) == PlayerIds(ps)
  {
    forall id | id in PlayerIds(ps)
      ensures id in PlayerIds(qs)
    {
      var j :| 0 <= j < |ps| && ps[j].id == id;
      assert qs[j].id == id;
    }
  }

  lemma PropertyIdsKept(props: seq<Property>, qprops: seq<Property>)
    requires |qprops| == |props| && forall m :: 0 <= m < |props| ==> qprops[m].id == props[m].id
    ensures PropertyIds(qprops) == PropertyIds(props)
  {
    forall y | y in PropertyIds(props)
      ensures y in PropertyIds(qprops)
    {
      var m :| 0 <= m < |props| && props[m].id == y;
      assert qprops[m].id == y;
    }
  }

  /** Forfeiting a property keeps the ledger. */
  lemma ForfeitedLedger(s: GameState, i: nat, forfeit: nat)
    requires i < |s.players| && Ledger(s.players, s.properties)
    ensures var t := Events.Forfeited(s, i, forfeit);
      Ledger(t.players, t.properties) && SameIds(s.players, t.players)
  {
    var ps, props := s.players, s.properties;
    var l := ps[i].properties;
    if |l| > 0 {
      var idx := forfeit % |l|;
      var t := Events.Forfeited(s, i, forfeit);
      assert l[idx] in PropertyIds(props);
      var k := FindProperty(props, l[idx]).value;
      assert t.players == ps[i := ps[i].(properties := Events.RemoveAt(l, idx))];
      assert t.properties == props[k := props[k].(ownerId := None, level := 0)];
      ReleaseLedger(ps, props, i, idx, k);
    }
  }

  /** A new seat with a fresh, non-empty id and no deeds keeps the ledger. */
  lemma AppendLedger(ps: seq<Player>, props: seq<Property>, p: Player)
    requires Ledger(ps, props) && p.id != "" && p.id !in PlayerIds(ps) && p.properties == []
    ensures Ledger(ps + [p], props) && PlayerIds(ps + [p]) == PlayerIds(ps) + {p.id}
  {
    var qs := ps + [p];
    forall j | 0 <= j < |ps|
      ensures ps[j].id != p.id
    {
      assert ps[j].id in PlayerIds(ps);
    }
    assert PlayerIds(qs) == PlayerIds(ps) + {p.id} by {
      forall id | id in PlayerIds(qs)
        ensures id in PlayerIds(ps) + {p.id}
      {
        var j :| 0 <= j < |qs| && qs[j].id == id;
        if j < |ps| {
          assert ps[j].id == id;
        }
      }
      forall id | id in PlayerIds(ps)
        ensures id in PlayerIds(qs)
      {
        var j :| 0 <= j < |ps| && ps[j].id == id;
        assert qs[j].id == id;
      }
      assert qs[|ps|].id == p.id;
    }
    forall j, m | 0 <= j < |qs| && 0 <= m < |props|
      ensures props[m].id in qs[j].properties <==> props[m].ownerId == Some(qs[j].id)
    {
      if j == |ps| && props[m].ownerId.Some? {
        assert props[m].ownerId.value in PlayerIds(ps);
      }
    }
  }

  /** Reseating the players keeps the ledger. */
  lemma PermutedLedger(ps: seq<Player>, props: seq<Property>, order: seq<nat>)
    requires Ledger(ps, props) && IsPermutation(order, |ps|)
    ensures Ledger(Permuted(ps, order), props)
    ensures PlayerIds(Permuted(ps, order)) == PlayerIds(ps)
  {
    LobbyProperties.PermutedUnique(ps, order);
  }

  // ---------------------------------------------------------------- the invariant, operation by operation

  /** The generated properties, before anyone has joined, satisfy the
      ledger. */
  lemma GeneratedLedger()
    ensures Ledger([], BoardGenerator.GenerateBoard().properties)
  {
    BoardGenerator.GeneratedPropertyIdsDistinct();
    BoardGenerator.GeneratedValuesNonNegative();
  }

  lemma InitialValid(now: int)
    ensures Valid(InitialState(now))
  {
    BoardGenerator.BoardShape();
    GeneratedLedger();
  }

  /** A step that keeps the ledger, the seats, the flags and the turn fields,
      and leaves every flagged player without coins, keeps the invariant. */
  lemma StepValid(s: GameState, t: GameState)
    requires Valid(s) && OnBoard(t) && t.board == s.board && |t.events| <= MaxEvents && Ledger(t.players, t.properties)
    requires SameIds(s.players, t.players)
    requires forall j :: 0 <= j < |s.players| ==> t.players[j].isBankrupt == s.players[j].isBankrupt
    requires forall j :: 0 <= j < |t.players| && t.players[j].isBankrupt ==> t.players[j].coins <= 0
    requires t.status == s.status && t.currentTurnPlayerId == s.currentTurnPlayerId
    requires t.pendingTileAction == s.pendingTileAction && t.turnDeadline == s.turnDeadline
    ensures Valid(t)
  {
    PlayerIdsKept(s.players, t.players);
    if s.status == Running {
      FindPlayerSameIds(s.players, t.players, s.currentTurnPlayerId.value);
    }
  }

  /** Without a flagged player holding coins, at most as many players have
      coins as are not flagged. */
  lemma {:induction false} PositiveAtMostAlive(ps: seq<Player>)
    requires forall j :: 0 <= j < |ps| && ps[j].isBankrupt ==> ps[j].coins <= 0
    ensures CountPositive(ps) <= CountAlive(ps)
  {
    if |ps| > 0 {
      PositiveAtMostAlive(ps[..|ps| - 1]);
    }
  }

  /** Seating one more player leaves the seat of every id already seated. */
  lemma FindPlayerAppend(ps: seq<Player>, p: Player, id: PlayerId)
    requires FindPlayer(ps, id).Some?
    ensures FindPlayer(ps + [p], id) == FindPlayer(ps, id)
  {
    var v := FindPlayer(ps, id).value;
    var qs := ps + [p];
    assert qs[v].id == id;
    var w := FindPlayer(qs, id).value;
    assert w <= v;
    assert qs[w] == ps[w];
  }

  /** Every table effect keeps the ledger and the seats. */
  lemma AppliedLedger(s: GameState, e: Effect, playerId: PlayerId, forfeit: nat)
    requires |s.board| > 0 && Ledger(s.players, s.properties)
    ensures var t := Events.Applied(s, e, playerId, forfeit);
      Ledger(t.players, t.properties) && SameIds(s.players, t.players)
  {
    var t := Events.Applied(s, e, playerId, forfeit);
    if e == PropertyDamage {
      if FindPlayer(s.players, playerId).Some? {
        ForfeitedLedger(s, FindPlayer(s.players, playerId).value, forfeit);
      }
    } else {
      assert SameSeats(s.players, t.players) && SameTitles(s.properties, t.properties);
      LedgerFrame(s.players, s.properties, t.players, t.properties);
    }
  }

  /** Under the ledger an owner id is never empty, so "not truthy" means
      "no owner". */
  lemma UnownedUnderLedger(ps: seq<Player>, props: seq<Property>, k: nat)
    requires Ledger(ps, props) && k < |props| && !Truthy(props[k].ownerId)
    ensures props[k].ownerId.None?
  {
  }

  lemma RentLedger(s: GameState, i: nat, ownerId: PlayerId, rent: int)
    requires i < |s.players| && Ledger(s.players, s.properties)
    ensures var t := RentCharged(s, i, ownerId, rent);
      Ledger(t.players, t.properties) && SameIds(s.players, t.players)
  {
    var t := RentCharged(s, i, ownerId, rent);
    var s1 := s.(players := Events.ShiftCoins(s.players, i, -rent));
    FindPlayerSameIds(s.players, s1.players, ownerId);
    assert SameSeats(s.players, t.players);
    LedgerFrame(s.players, s.properties, t.players, t.properties);
  }

  lemma PropertyOutcomeLedger(s: GameState, i: nat, k: nat, buy: bool, now: int)
    requires OnBoard(s) && i < |s.players| && k < |s.properties| && Ledger(s.players, s.properties)
    requires PropertyOutcome(s, i, k, buy, now).Ok?
    ensures var t := PropertyOutcome(s, i, k, buy, now).value.state;
      Ledger(t.players, t.properties) && SameIds(s.players, t.players)
  {
    var pr := s.properties[k];
    if !Truthy(pr.ownerId) && buy {
      BoughtLedger(s, i, k, buy, now);
    } else if Truthy(pr.ownerId) && pr.ownerId.value != s.players[i].id {
      RentedLedger(s, i, k, buy, now);
    } else {
      assert PropertyOutcome(s, i, k, buy, now).value.state.players == s.players;
      assert PropertyOutcome(s, i, k, buy, now).value.state.properties == s.properties;
    }
  }

  /** The buying branch of a property tile keeps the ledger. */
  lemma BoughtLedger(s: GameState, i: nat, k: nat, buy: bool, now: int)
    requires OnBoard(s) && i < |s.players| && k < |s.properties| && Ledger(s.players, s.properties)
    requires !Truthy(s.properties[k].ownerId) && buy && PropertyOutcome(s, i, k, buy, now).Ok?
    ensures var t := PropertyOutcome(s, i, k, buy, now).value.state;
      Ledger(t.players, t.properties) && SameIds(s.players, t.players)
  {
    var p := s.players[i];
    var pr := s.properties[k];
    UnownedUnderLedger(s.players, s.properties, k);
    PurchaseLedger(s, i, k);
    var u := Purchase(s, i, k);
    assert PropertyOutcome(s, i, k, buy, now).value.state ==
      WithEvent(u, BuyPropertyEvent, Bought(p.name, pr.name, pr.value), now);
    assert u.players[i].id == p.id;
  }

  /** The rent branch of a property tile keeps the ledger. */
  lemma RentedLedger(s: GameState, i: nat, k: nat, buy: bool, now: int)
    requires OnBoard(s) && i < |s.players| && k < |s.properties| && Ledger(s.players, s.properties)
    requires Truthy(s.properties[k].ownerId) && s.properties[k].ownerId.value != s.players[i].id
    ensures var t := PropertyOutcome(s, i, k, buy, now).value.state;
      PropertyOutcome(s, i, k, buy, now).Ok? && Ledger(t.players, t.properties) && SameIds(s.players, t.players)
  {
    var p := s.players[i];
    var pr := s.properties[k];
    var rent := pr.rent + pr.level * RentPerLevel;
    EngineProperties.RentBranch(s, i, k, buy, now);
    var t := PropertyOutcome(s, i, k, buy, now).value.state;
    assert SameSeats(s.players, t.players);
    LedgerFrame(s.players, s.properties, t.players, t.properties);
  }

  /** The tile step keeps the ledger and the seats. */
  lemma TileOutcomeLedger(s: GameState, i: nat, a: PendingTileAction, buy: bool, chance: Chance, now: int)
    requires OnBoard(s) && i < |s.players| && chance.effect < 3 && Ledger(s.players, s.properties)
    requires TileOutcome(s, i, a, buy, chance, now).Ok?
    ensures var t := TileOutcome(s, i, a, buy, chance, now).value.state;
      Ledger(t.players, t.properties) && SameIds(s.players, t.players)
  {
    var t := TileOutcome(s, i, a, buy, chance, now).value.state;
    if a.tileType == PropertyTile && Truthy(a.propertyId) {
      PropertyOutcomeLedger(s, i, FindProperty(s.properties, a.propertyId.value).value, buy, now);
    } else if a.tileType == Luck || a.tileType == BadLuck {
      AppliedLedger(s, Events.Table(a.tileType)[chance.effect], s.players[i].id, chance.forfeit);
    } else {
      assert SameSeats(s.players, t.players);
      LedgerFrame(s.players, s.properties, t.players, t.properties);
    }
  }

  /** The finish check keeps the invariant of a record that is either over
      or has a live turn holder. */
  lemma FinishCheckValid(s: GameState, now: int)
    requires Consistent(s) && (GameIsOver(s) || HolderAlive(s))
    ensures Valid(AfterFinishCheck(s, now))
  {
  }

  /** A change of the turn fields alone that fits the status keeps the
      record consistent. */
  lemma TurnFieldsConsistent(s: GameState, t: GameState)
    requires Consistent(s) && TurnShape(t) && |t.events| <= MaxEvents
    requires t.players == s.players && t.properties == s.properties && t.board == s.board
    requires t.status == Waiting ==> s.status == Waiting
    ensures Consistent(t)
  {
  }

  /** The turn advance of a running game makes a consistent record valid:
      either the game ends, or the turn goes to a player who is not
      bankrupt. */
  lemma AdvanceValid(s: GameState, reason: TurnReason, now: int)
    requires Consistent(s) && s.status == Running
    ensures Valid(AfterAdvance(s, reason, now))
  {
    var ps := s.players;
    var id := s.currentTurnPlayerId.value;
    var ci := FindPlayer(ps, id).value;
    assert ps[ci].id == id && id != "";
    if CountAlive(ps) <= 1 {
      PositiveAtMostAlive(ps);
      assert GameIsOver(s);
      assert AfterAdvance(s, reason, now) == AfterFinishCheck(s, now);
      FinishCheckValid(s, now);
    } else {
      EngineProperties.NextTurnIndexAlive(ps, ci);
      var ni := NextTurnIndex(ps, ci);
      EngineProperties.FoundAtSeat(ps, ni);
      var m := EngineProperties.AdvanceMid(s, reason, now, ci);
      assert m.players == ps && m.status == Running && m.currentTurnPlayerId == Some(ps[ni].id);
      assert ps[ni].id in PlayerIds(ps);
      TurnFieldsConsistent(s, m);
      assert HolderAlive(m);
      FinishCheckValid(m, now);
    }
  }

  /** Recomputing the flags of a running record with a seated holder and no
      pending action leaves it consistent. */
  lemma EliminationConsistent(u: GameState)
    requires OnBoard(u) && BoardGenerator.Indexed(u.board) && |u.events| <= MaxEvents
    requires Ledger(u.players, u.properties) && u.status == Running && u.pendingTileAction.None?
    requires u.currentTurnPlayerId.Some? && u.currentTurnPlayerId.value in PlayerIds(u.players)
    ensures Consistent(AfterElimination(u))
  {
    var t := AfterElimination(u);
    assert SameSeats(u.players, t.players);
    LedgerFrame(u.players, u.properties, t.players, t.properties);
    PlayerIdsKept(u.players, t.players);
  }

  /** The record after the tile step, with the pending action cleared and
      the flags recomputed, is consistent; its turn holder may now be
      bankrupt, until the turn passes. */
  lemma ClearedStepValid(s: GameState, i: nat, a: PendingTileAction, buy: bool, chance: Chance, now: int)
    requires Valid(s) && chance.effect < 3 && i < |s.players|
    requires s.status == Running && s.currentTurnPlayerId == Some(s.players[i].id)
    requires TileOutcome(s, i, a, buy, chance, now).Ok?
    ensures Consistent(AfterElimination(TileOutcome(s, i, a, buy, chance, now).value.state.(pendingTileAction := None)))
  {
    var t := TileOutcome(s, i, a, buy, chance, now).value.state;
    TileOutcomeLedger(s, i, a, buy, chance, now);
    EngineProperties.TileOutcomeFrame(s, i, a, buy, chance, now);
    PlayerIdsKept(s.players, t.players);
    assert s.players[i].id in PlayerIds(s.players);
    EliminationConsistent(t.(pendingTileAction := None));
  }

  /** A successful resolve is the turn advance of a consistent running
      record. */
  lemma ResolvedConsistent(s: GameState, playerId: PlayerId, buy: bool, chance: Chance, now: int)
    returns (s2: GameState)
    requires Valid(s) && chance.effect < 3
    requires AfterResolve(s, playerId, buy, chance, now).1.Ok?
    ensures Consistent(s2) && s2.status == Running
    ensures AfterResolve(s, playerId, buy, chance, now).0 == AfterAdvance(s2, TurnChanged, now).(updatedAt := now)
  {
    var i := FindPlayer(s.players, playerId).value;
    var a := s.pendingTileAction.value;
    var step := TileOutcome(s, i, a, buy, chance, now).value;
    s2 := AfterElimination(step.state.(pendingTileAction := None));
    ClearedStepValid(s, i, a, buy, chance, now);
  }

  /** The invariant does not depend on the time of the last change. */
  lemma StampValid(s: GameState, now: int)
    requires Valid(s)
    ensures Valid(s.(updatedAt := now))
  {
  }

  lemma ResolveValid(s: GameState, playerId: PlayerId, buy: bool, chance: Chance, now: int)
    requires Valid(s) && chance.effect < 3
    ensures Valid(AfterResolve(s, playerId, buy, chance, now).0)
  {
    if AfterResolve(s, playerId, buy, chance, now).1.Ok? {
      var s2 := ResolvedConsistent(s, playerId, buy, chance, now);
      AdvanceValid(s2, TurnChanged, now);
      StampValid(AfterAdvance(s2, TurnChanged, now), now);
    }
  }

  lemma TimeoutValid(s: GameState, chance: Chance, now: int)
    requires Valid(s) && chance.effect < 3
    ensures Valid(AfterTimeout(s, chance, now))
  {
    if !EngineProperties.TimeoutDue(s, now) {
      EngineProperties.TimeoutNotDue(s, chance, now);
      ValidKept(s, AfterTimeout(s, chance, now));
    } else if s.pendingTileAction.Some? && Truthy(s.currentTurnPlayerId) {
      ResolveValid(s, s.pendingTileAction.value.playerId, false, chance, now);
      if AfterResolve(s, s.pendingTileAction.value.playerId, false, chance, now).1.Ok? {
        EngineProperties.TimeoutDeclines(s, chance, now);
        ValidKept(AfterResolve(s, s.pendingTileAction.value.playerId, false, chance, now).0, AfterTimeout(s, chance, now));
      } else {
        EngineProperties.TimeoutShape(s, chance, now);
        SkipValid(WithEvent(s.(pendingTileAction := None), TurnChange, TimeoutDuringAction, now), now);
        ValidKept(AfterAdvance(WithEvent(s.(pendingTileAction := None), TurnChange, TimeoutDuringAction, now), TimeoutSkip, now).(updatedAt := now),
                  AfterTimeout(s, chance, now));
      }
    } else {
      EngineProperties.TimeoutShape(s, chance, now);
      SkipValid(WithEvent(s, TurnChange, TimeExpired, now), now);
      ValidKept(AfterAdvance(WithEvent(s, TurnChange, TimeExpired, now), TimeoutSkip, now).(updatedAt := now),
                AfterTimeout(s, chance, now));
    }
  }

  /** Skipping the turn of a running game keeps the invariant. */
  lemma SkipValid(m: GameState, now: int)
    requires Consistent(m) && m.status == Running
    ensures Valid(AfterAdvance(m, TimeoutSkip, now).(updatedAt := now))
  {
    AdvanceValid(m, TimeoutSkip, now);
    StampValid(AfterAdvance(m, TimeoutSkip, now), now);
  }

  /** Moving a player who is not bankrupt keeps the invariant (the lap
      bonus may lift coins above zero, which a flagged player may not have). */
  lemma MoveValid(s: GameState, i: nat, steps: int, now: int)
    requires Valid(s) && i < |s.players| && 0 <= steps && !s.players[i].isBankrupt
    ensures Valid(AfterMove(s, i, steps, now))
  {
    var t := AfterMove(s, i, steps, now);
    EngineProperties.MoveEffect(s, i, steps, now);
    assert SameSeats(s.players, t.players);
    LedgerFrame(s.players, s.properties, t.players, t.properties);
    StepValid(s, t);
  }

  /** The part of a roll after the guards: move, record the turn, and
      leave the pending action for the roller. */
  lemma RolledValid(s0: GameState, playerId: PlayerId, i: nat, roll: int, now: int)
    requires Valid(s0) && 1 <= roll <= 6
    requires s0.status == Running && s0.currentTurnPlayerId == Some(playerId)
    requires FindPlayer(s0.players, playerId) == Some(i)
    ensures var s2 := AfterMove(s0, i, roll, now).(lastProcessedTurnKey := Some(TurnKeyOf(s0)),
                                                  lastRoll := Some(LastRoll(playerId, roll)));
      Valid(s2) &&
      (PendingAction(s2, playerId).Ok? ==>
        Valid(WithEvent(s2.(pendingTileAction := Some(PendingAction(s2, playerId).value)), RollDiceEvent,
                        Rolled(s2.players[i].name, roll), now)))
  {
    assert s0.players[i].id == playerId;
    MoveValid(s0, i, roll, now);
    var s2 := AfterMove(s0, i, roll, now).(lastProcessedTurnKey := Some(TurnKeyOf(s0)),
                                          lastRoll := Some(LastRoll(playerId, roll)));
    FindPlayerSameIds(s0.players, s2.players, playerId);
  }

  lemma RollValid(s: GameState, playerId: PlayerId, roll: int, chance: Chance, now: int)
    requires Valid(s) && chance.effect < 3 && 1 <= roll <= 6
    ensures Valid(AfterRoll(s, playerId, roll, chance, now).0)
  {
    var s0 := AfterTimeout(s, chance, now);
    TimeoutValid(s, chance, now);
    if s0.status == Running && s0.currentTurnPlayerId == Some(playerId) && s0.pendingTileAction.None? &&
       s0.lastProcessedTurnKey != Some(TurnKeyOf(s0)) && FindPlayer(s0.players, playerId).Some? {
      RolledValid(s0, playerId, FindPlayer(s0.players, playerId).value, roll, now);
    }
  }

  /** A step that only lowers coins, within a ledger that still holds, and
      keeps the seats, flags, positions, board and turn fields, keeps the
      invariant: a flagged player stays without coins. */
  lemma CoinsDownValid(s: GameState, t: GameState)
    requires Valid(s) && t.board == s.board && |t.events| <= MaxEvents && Ledger(t.players, t.properties)
    requires |t.players| == |s.players|
    requires forall j :: 0 <= j < |s.players| ==>
      t.players[j].id == s.players[j].id && t.players[j].isBankrupt == s.players[j].isBankrupt &&
      t.players[j].position == s.players[j].position && t.players[j].coins <= s.players[j].coins
    requires t.status == s.status && t.currentTurnPlayerId == s.currentTurnPlayerId
    requires t.pendingTileAction == s.pendingTileAction && t.turnDeadline == s.turnDeadline
    ensures Valid(t)
  {
    StepValid(s, t);
  }

  lemma BuyValid(s: GameState, playerId: PlayerId, propertyId: PropertyId, now: int)
    requires Valid(s)
    ensures Valid(AfterBuy(s, playerId, propertyId, now).0)
  {
    EngineProperties.BuyRules(s, playerId, propertyId, now);
    if AfterBuy(s, playerId, propertyId, now).1.Ok? {
      var i := FindPlayer(s.players, playerId).value;
      var k := FindProperty(s.properties, propertyId).value;
      var note := Bought(s.players[i].name, s.properties[k].name, s.properties[k].value);
      PurchasedValid(s, i, k, note, now);
      ValidKept(WithEvent(Purchase(s, i, k), BuyPropertyEvent, note, now).(updatedAt := now),
                AfterBuy(s, playerId, propertyId, now).0);
    }
  }

  /** A purchase by the turn holder of an unowned property they can pay for,
      logged, keeps the invariant. */
  lemma PurchasedValid(s: GameState, i: nat, k: nat, note: Note, now: int)
    requires Valid(s) && i < |s.players| && k < |s.properties|
    requires !Truthy(s.properties[k].ownerId) && s.players[i].coins >= s.properties[k].value
    ensures Valid(WithEvent(Purchase(s, i, k), BuyPropertyEvent, note, now).(updatedAt := now))
  {
    var t := WithEvent(Purchase(s, i, k), BuyPropertyEvent, note, now).(updatedAt := now);
    UnownedUnderLedger(s.players, s.properties, k);
    PurchaseLedger(s, i, k);
    LedgerKept(Purchase(s, i, k).players, Purchase(s, i, k).properties, t.players, t.properties);
    CoinsDownValid(s, t);
  }

  /** Equal lists keep the ledger. */
  lemma LedgerKept(ps: seq<Player>, props: seq<Property>, qs: seq<Player>, qprops: seq<Property>)
    requires Ledger(ps, props) && qs == ps && qprops == props
    ensures Ledger(qs, qprops)
  {
  }

  /** Equal records keep the invariant. */
  lemma ValidKept(s: GameState, t: GameState)
    requires Valid(s) && t == s
    ensures Valid(t)
  {
  }

  lemma UpgradeValid(s: GameState, playerId: PlayerId, propertyId: PropertyId, now: int)
    requires Valid(s)
    ensures Valid(AfterUpgrade(s, playerId, propertyId, now).0)
  {
    if AfterUpgrade(s, playerId, propertyId, now).1.Ok? {
      EngineProperties.UpgradeEffect(s, playerId, propertyId, now);
      UpgradedValid(s, AfterUpgrade(s, playerId, propertyId, now).0,
                    FindPlayer(s.players, playerId).value, FindProperty(s.properties, propertyId).value, now);
    }
  }

  /** An upgrade keeps the invariant: only a level and the payer's coins
      move, and the price is never negative. */
  lemma UpgradedValid(s: GameState, t: GameState, i: nat, k: nat, now: int)
    requires Valid(s) && i < |s.players| && k < |s.properties|
    requires EngineProperties.UpgradeApplied(s, t, i, k, now)
    ensures Valid(t)
  {
    assert SameSeats(s.players, t.players) && SameTitles(s.properties, t.properties);
    LedgerFrame(s.players, s.properties, t.players, t.properties);
    CoinsDownValid(s, t);
  }

  /** A step that touches neither the players, the properties, the board
      nor the turn fields, and keeps the log bounded, keeps the invariant. */
  lemma SamePlayersValid(s: GameState, t: GameState)
    requires Valid(s) && t.players == s.players && t.properties == s.properties && t.board == s.board
    requires t.status == s.status && t.currentTurnPlayerId == s.currentTurnPlayerId
    requires t.pendingTileAction == s.pendingTileAction && t.turnDeadline == s.turnDeadline
    requires |t.events| <= MaxEvents
    ensures Valid(t)
  {
  }

  /** Seating a new player with a fresh, non-empty id, no deeds, no flag and
      a place on the board keeps the invariant. */
  lemma SeatAddedValid(s: GameState, t: GameState, p: Player)
    requires Valid(s) && t.players == s.players + [p] && t.properties == s.properties && t.board == s.board
    requires p.id != "" && p.id !in PlayerIds(s.players) && p.properties == [] && !p.isBankrupt
    requires 0 <= p.position < |s.board|
    requires t.status == s.status && t.currentTurnPlayerId == s.currentTurnPlayerId
    requires t.pendingTileAction == s.pendingTileAction && t.turnDeadline == s.turnDeadline
    requires |t.events| <= MaxEvents
    ensures Valid(t)
  {
    AppendLedger(s.players, s.properties, p);
    if s.status == Running {
      FindPlayerAppend(s.players, p, s.currentTurnPlayerId.value);
    }
  }

  /** A join either seats the new player (in the lobby, with a valid name)
      or leaves the seats alone; the deadline and the bound on the log are
      kept. */
  lemma JoinSeats(s: GameState, rawName: string, freshId: string, now: int)
    requires |s.events| <= MaxEvents
    ensures var t := AfterJoinRequest(s, rawName, freshId, now).0;
      var name := Trim(rawName);
      |t.events| <= MaxEvents && t.turnDeadline == s.turnDeadline &&
      if MinNameLength <= |name| <= MaxNameLength && s.status == Waiting then
        t.players == s.players + [NewPlayer(freshId, name, |s.players| == 0, now)]
      else t.players == s.players
  {
  }

  /** A join keeps the invariant when the drawn id is fresh and non-empty. */
  lemma JoinValid(s: GameState, rawName: string, freshId: string, now: int)
    requires Valid(s) && freshId != "" && freshId !in PlayerIds(s.players)
    ensures Valid(AfterJoinRequest(s, rawName, freshId, now).0)
  {
    var name := Trim(rawName);
    var t := AfterJoinRequest(s, rawName, freshId, now).0;
    JoinSeats(s, rawName, freshId, now);
    if MinNameLength <= |name| <= MaxNameLength && s.status == Waiting {
      SeatAddedValid(s, t, NewPlayer(freshId, name, |s.players| == 0, now));
    } else {
      SamePlayersValid(s, t);
    }
  }

  /** A vote either seats the requester or leaves the seats alone; the
      deadline and the bound on the log are kept. */
  lemma VoteSeats(s: GameState, voterId: PlayerId, approve: bool, freshId: PlayerId, now: int)
    requires |s.events| <= MaxEvents
    ensures var t := AfterVote(s, voterId, approve, freshId, now).0;
      |t.events| <= MaxEvents && t.turnDeadline == s.turnDeadline &&
      if AfterVote(s, voterId, approve, freshId, now).1 == Ok(Admitted(freshId)) then
        s.pendingJoinRequest.Some? &&
        t.players == s.players + [NewPlayer(freshId, s.pendingJoinRequest.value.name, false, now)]
      else t.players == s.players
  {
  }

  /** A vote keeps the invariant when the drawn id is fresh and non-empty. */
  lemma VoteValid(s: GameState, voterId: PlayerId, approve: bool, freshId: PlayerId, now: int)
    requires Valid(s) && freshId != "" && freshId !in PlayerIds(s.players)
    ensures Valid(AfterVote(s, voterId, approve, freshId, now).0)
  {
    var (t, r) := AfterVote(s, voterId, approve, freshId, now);
    VoteSeats(s, voterId, approve, freshId, now);
    if r == Ok(Admitted(freshId)) {
      SeatAddedValid(s, t, NewPlayer(freshId, s.pendingJoinRequest.value.name, false, now));
    } else {
      SamePlayersValid(s, t);
    }
  }

  lemma StartValid(s: GameState, hostId: PlayerId, order: seq<nat>, now: int)
    requires Valid(s) && IsPermutation(order, |s.players|)
    ensures Valid(AfterStart(s, hostId, order, now).0)
  {
    if AfterStart(s, hostId, order, now).1.Ok? {
      var ps := Permuted(s.players, order);
      PermutedLedger(s.players, s.properties, order);
      assert ps[0].id in PlayerIds(ps);
      assert forall j :: 0 <= j < |ps| ==> ps[j].position == s.players[order[j]].position;
    }
  }

  lemma ResolveFindsPlayer(s: GameState, playerId: PlayerId, buy: bool, chance: Chance, now: int)
    requires Valid(s) && chance.effect < 3
    requires AfterResolve(s, playerId, buy, chance, now).1.Ok?
    ensures playerId != ""
  {
    var i := FindPlayer(s.players, playerId).value;
    assert playerId == s.players[i].id;
  }

  /** Under the invariant a successful resolve always hands the turn on:
      the game is over, or another player who is not bankrupt has the turn. */
  lemma ValidResolveHandsOver(s: GameState, playerId: PlayerId, buy: bool, chance: Chance, now: int)
    requires Valid(s) && chance.effect < 3
    requires AfterResolve(s, playerId, buy, chance, now).1.Ok?
    ensures var t := AfterResolve(s, playerId, buy, chance, now).0;
      t.pendingTileAction.None? &&
      (t.status == Finished ||
       (t.currentTurnPlayerId.Some? && t.currentTurnPlayerId != Some(playerId) &&
        FindPlayer(t.players, t.currentTurnPlayerId.value).Some? &&
        !t.players[FindPlayer(t.players, t.currentTurnPlayerId.value).value].isBankrupt))
  {
    ResolveFindsPlayer(s, playerId, buy, chance, now);
    assert UniquePlayerIds(s.players) && OnBoard(s);
    EngineProperties.ResolveHandsOver(s, playerId, buy, chance, now);
  }
}
