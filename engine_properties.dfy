/** What the engine's operations promise, proved about the `After…`
    functions the methods of GameEngine are proved to follow. */
module EngineProperties {
  import opened Types
  import opened SessionStore
  import Events
  import opened GameEngine
  import BoardGenerator

  // ---------------------------------------------------------------- coin totals

  function TotalCoins(ps: seq<Player>): int
  {
    if |ps| == 0 then 0 else TotalCoins(ps[..|ps| - 1]) + ps[|ps| - 1].coins
  }

  lemma {:induction false} ShiftCoinsTotal(ps: seq<Player>, i: nat, delta: int)
    requires i < |ps|
    ensures TotalCoins(Events.ShiftCoins(ps, i, delta)) == TotalCoins(ps) + delta
  {
    var n := |ps|;
    var qs := Events.ShiftCoins(ps, i, delta);
    if i < n - 1 {
      assert qs[..n - 1] == Events.ShiftCoins(ps[..n - 1], i, delta);
      ShiftCoinsTotal(ps[..n - 1], i, delta);
    } else {
      assert qs[..n - 1] == ps[..n - 1];
    }
  }

  // ---------------------------------------------------------------- movement

  /** A move of `steps` puts the player on `(position + steps) % |board|` and
      pays the lap bonus of 300 exactly when the move reaches or passes the
      start; nothing else about the players, board or properties changes. */
  lemma MoveEffect(s: GameState, i: nat, steps: int, now: int)
    requires OnBoard(s) && i < |s.players| && 0 <= steps
    ensures var t := AfterMove(s, i, steps, now);
      var p := s.players[i];
      var lap := p.position + steps >= |s.board|;
      |t.players| == |s.players| &&
      t.players[i] == p.(position := (p.position + steps) % |s.board|,
                         coins := p.coins + if lap then LapBonus else 0) &&
      (forall j :: 0 <= j < |s.players| && j != i ==> t.players[j] == s.players[j]) &&
      t.events == (if lap then PushEvent(s.events, GameEvent(EventTriggered, LapCompleted(p.name), now)) else s.events) &&
      t == s.(players := t.players, events := t.events)
  {
  }

  /** From tile 38, a roll of 5 on the 40-tile board lands on tile 3 with one
      lap bonus. */
  lemma MoveExample(s: GameState, i: nat, now: int)
    requires OnBoard(s) && |s.board| == 40 && i < |s.players| && s.players[i].position == 38
    ensures AfterMove(s, i, 5, now).players[i].position == 3
    ensures AfterMove(s, i, 5, now).players[i].coins == s.players[i].coins + 300
  {
    MoveEffect(s, i, 5, now);
  }

  // ---------------------------------------------------------------- rolling

  /** The turn key tells turns apart: two records share it exactly when
      they are in the same round with the same current player. */
  lemma TurnKeyIdentifiesTurn(s: GameState, t: GameState)
    ensures TurnKeyOf(s) == TurnKeyOf(t) <==> s.round == t.round && s.currentTurnPlayerId == t.currentTurnPlayerId
  {
  }

  /** The four guards of `rollDice`, judged on the record after the timeout
      housekeeping. */
  predicate MayRoll(s0: GameState, playerId: PlayerId)
  {
    s0.status == Running && s0.currentTurnPlayerId == Some(playerId) &&
    s0.pendingTileAction.None? && s0.lastProcessedTurnKey != Some(TurnKeyOf(s0))
  }

  /** A roll whose guards fail is refused and changes nothing beyond the
      timeout housekeeping that precedes the guards. */
  lemma RollRefused(s: GameState, playerId: PlayerId, roll: int, chance: Chance, now: int)
    requires OnBoard(s) && chance.effect < 3 && 1 <= roll <= 6
    requires !MayRoll(AfterTimeout(s, chance, now), playerId)
    ensures AfterRoll(s, playerId, roll, chance, now).0 == AfterTimeout(s, chance, now)
    ensures AfterRoll(s, playerId, roll, chance, now).1.Err?
  {
  }

  /** A roll that succeeds passed the four guards, returns the die, leaves a
      pending action for the roller, records the turn key and the roll, and
      does not pass the turn on. */
  lemma RollAccepted(s: GameState, playerId: PlayerId, roll: int, chance: Chance, now: int)
    requires OnBoard(s) && chance.effect < 3 && 1 <= roll <= 6
    requires AfterRoll(s, playerId, roll, chance, now).1.Ok?
    ensures var s0 := AfterTimeout(s, chance, now);
      var t := AfterRoll(s, playerId, roll, chance, now).0;
      MayRoll(s0, playerId) &&
      AfterRoll(s, playerId, roll, chance, now).1 == Ok(roll) &&
      t.pendingTileAction.Some? && t.pendingTileAction.value.playerId == playerId &&
      t.lastProcessedTurnKey == Some(TurnKeyOf(s0)) && t.lastRoll == Some(LastRoll(playerId, roll)) &&
      t.status == Running && t.currentTurnPlayerId == Some(playerId) && t.round == s0.round &&
      t.updatedAt == now
  {
  }

  /** Within one turn a second roll is refused: the first left a pending
      action, and the turn key stays recorded until the turn passes. */
  lemma RollOncePerTurn(s: GameState, playerId: PlayerId, roll: int, roll2: int, chance: Chance, now: int)
    requires OnBoard(s) && chance.effect < 3 && 1 <= roll <= 6 && 1 <= roll2 <= 6
    requires AfterRoll(s, playerId, roll, chance, now).1.Ok?
    ensures var t := AfterRoll(s, playerId, roll, chance, now).0;
      OnBoard(t) && !MayRoll(t, playerId)
  {
    var s0 := AfterTimeout(s, chance, now);
    var i := FindPlayer(s0.players, playerId).value;
    MoveEffect(s0, i, roll, now);
  }

  /** The pending action describes the tile the player stands on: its
      index and type, and for a linked property tile the property's id and
      value and whether it is free to buy. It fails exactly when a property
      tile links an id no property has. */
  lemma PendingForShape(s: GameState, i: nat)
    requires OnBoard(s) && i < |s.players|
    ensures var p := s.players[i];
      var tile := s.board[p.position];
      var linked := tile.kind == PropertyTile && Truthy(tile.propertyId);
      var r := PendingFor(s, i);
      (r.Err? <==> linked && FindProperty(s.properties, tile.propertyId.value).None?) &&
      (r.Err? ==> r.error == InvalidPropertyTile) &&
      (r.Ok? ==>
        r.value.playerId == p.id && r.value.tileIndex == tile.index && r.value.tileType == tile.kind &&
        (linked ==>
          var pr := s.properties[FindProperty(s.properties, tile.propertyId.value).value];
          r.value.propertyId == Some(pr.id) && r.value.propertyValue == Some(pr.value) &&
          r.value.canBuy == Some(!Truthy(pr.ownerId))) &&
        (!linked ==> r.value.propertyId.None? && r.value.propertyValue.None? && r.value.canBuy.None?))
  {
  }

  /** After a successful roll on a board whose tile i has index i, the
      pending action is that of the tile the roller now stands on. */
  lemma RollPendingAction(s: GameState, playerId: PlayerId, roll: int, chance: Chance, now: int)
    requires OnBoard(s) && BoardGenerator.Indexed(s.board) && chance.effect < 3 && 1 <= roll <= 6
    requires AfterRoll(s, playerId, roll, chance, now).1.Ok?
    ensures var s0 := AfterTimeout(s, chance, now);
      var t := AfterRoll(s, playerId, roll, chance, now).0;
      FindPlayer(s0.players, playerId).Some? &&
      var i := FindPlayer(s0.players, playerId).value;
      i < |t.players| && t.players[i].id == playerId && t.pendingTileAction.Some? &&
      var a := t.pendingTileAction.value;
      var pos := t.players[i].position;
      var tile := t.board[pos];
      a.playerId == playerId && a.tileIndex == pos && a.tileType == tile.kind &&
      (tile.kind == PropertyTile && Truthy(tile.propertyId) ==>
        FindProperty(t.properties, tile.propertyId.value).Some? &&
        var pr := t.properties[FindProperty(t.properties, tile.propertyId.value).value];
        a.propertyId == Some(pr.id) && a.propertyValue == Some(pr.value) && a.canBuy == Some(!Truthy(pr.ownerId))) &&
      (!(tile.kind == PropertyTile && Truthy(tile.propertyId)) ==>
        a.propertyId.None? && a.propertyValue.None? && a.canBuy.None?)
  {
    var s0 := AfterTimeout(s, chance, now);
    var i := FindPlayer(s0.players, playerId).value;
    MoveEffect(s0, i, roll, now);
    var s2 := AfterMove(s0, i, roll, now).(lastProcessedTurnKey := Some(TurnKeyOf(s0)),
                                            lastRoll := Some(LastRoll(playerId, roll)));
    FindPlayerSameIds(s0.players, s2.players, playerId);
    PendingForShape(s2, i);
  }

  // ---------------------------------------------------------------- tile resolution

  /** Moving `delta` coins from seat i to seat j keeps the total. */
  lemma TransferTotal(ps: seq<Player>, i: nat, j: nat, delta: int)
    requires i < |ps| && j < |ps|
    ensures TotalCoins(Events.ShiftCoins(Events.ShiftCoins(ps, i, -delta), j, delta)) == TotalCoins(ps)
  {
    ShiftCoinsTotal(ps, i, -delta);
    ShiftCoinsTotal(Events.ShiftCoins(ps, i, -delta), j, delta);
  }

  /** Rent: the visitor pays `rent`, possibly going negative, the owner
      receives it, and the total of all coins is unchanged. */
  lemma RentConservesCoins(s: GameState, i: nat, ownerId: PlayerId, rent: int)
    requires i < |s.players| && FindPlayer(s.players, ownerId).Some?
    ensures var t := RentCharged(s, i, ownerId, rent);
      TotalCoins(t.players) == TotalCoins(s.players) && |t.players| == |s.players|
    ensures ownerId != s.players[i].id ==>
      RentCharged(s, i, ownerId, rent).players[i].coins == s.players[i].coins - rent
  {
    var ps1 := Events.ShiftCoins(s.players, i, -rent);
    FindPlayerSameIds(s.players, ps1, ownerId);
    var j := FindPlayer(s.players, ownerId).value;
    assert RentCharged(s, i, ownerId, rent).players == Events.ShiftCoins(ps1, j, rent);
    TransferTotal(s.players, i, j, rent);
  }

  /** Landing on another player's property charges `rent + level * 35`,
      whether or not the lander asked to buy, and conserves the coin total. */
  lemma RentOnLanding(s: GameState, i: nat, k: nat, buy: bool, now: int)
    requires OnBoard(s) && i < |s.players| && k < |s.properties|
    requires Truthy(s.properties[k].ownerId) && s.properties[k].ownerId.value != s.players[i].id
    requires FindPlayer(s.players, s.properties[k].ownerId.value).Some?
    ensures var out := PropertyOutcome(s, i, k, buy, now);
      var pr := s.properties[k];
      out.Ok? && out.value.message == RentPaid(pr.rent + pr.level * RentPerLevel, pr.name) &&
      out.value.state.players[i].coins == s.players[i].coins - (pr.rent + pr.level * RentPerLevel) &&
      TotalCoins(out.value.state.players) == TotalCoins(s.players) &&
      out.value.state.properties == s.properties
  {
    var pr := s.properties[k];
    var rent := pr.rent + pr.level * RentPerLevel;
    var t := RentCharged(s, i, pr.ownerId.value, rent);
    RentBranch(s, i, k, buy, now);
    var out := PropertyOutcome(s, i, k, buy, now).value.state;
    RentConservesCoins(s, i, pr.ownerId.value, rent);
    assert TotalCoins(out.players) == TotalCoins(t.players);
  }

  /** On another player's property the tile step is the rent charge, logged. */
  lemma RentBranch(s: GameState, i: nat, k: nat, buy: bool, now: int)
    requires OnBoard(s) && i < |s.players| && k < |s.properties|
    requires Truthy(s.properties[k].ownerId) && s.properties[k].ownerId.value != s.players[i].id
    ensures var pr := s.properties[k];
      var rent := pr.rent + pr.level * RentPerLevel;
      PropertyOutcome(s, i, k, buy, now) ==
        Ok(Step(WithEvent(RentCharged(s, i, pr.ownerId.value, rent), EventTriggered,
                          PaidRent(s.players[i].name, rent, pr.name), now),
                RentPaid(rent, pr.name)))
    ensures var pr := s.properties[k];
      var u := RentCharged(s, i, pr.ownerId.value, pr.rent + pr.level * RentPerLevel);
      PropertyOutcome(s, i, k, buy, now).Ok? &&
      PropertyOutcome(s, i, k, buy, now).value.state.players == u.players &&
      PropertyOutcome(s, i, k, buy, now).value.state.properties == u.properties
  {
  }

  /** The guard failures of `resolveTileAction`, and the tile failures after
      them, leave the record exactly as it was. */
  lemma ResolveRefusedUnchanged(s: GameState, playerId: PlayerId, buy: bool, chance: Chance, now: int)
    requires OnBoard(s) && chance.effect < 3
    requires AfterResolve(s, playerId, buy, chance, now).1.Err?
    ensures AfterResolve(s, playerId, buy, chance, now).0 == s
  {
  }

  /** The number of players not flagged bankrupt is the number with positive
      coins once every flag has been recomputed. */
  lemma {:induction false} FlaggedCounts(ps: seq<Player>)
    ensures |Flagged(ps)| == |ps|
    ensures CountAlive(Flagged(ps)) == CountPositive(ps)
    ensures CountPositive(Flagged(ps)) == CountPositive(ps)
  {
    if |ps| > 0 {
      assert Flagged(ps)[..|ps| - 1] == Flagged(ps[..|ps| - 1]);
      FlaggedCounts(ps[..|ps| - 1]);
    }
  }

  lemma {:induction false} AliveAtMostOne(ps: seq<Player>, ci: nat)
    requires ci < |ps| && forall j :: 0 <= j < |ps| && j != ci ==> ps[j].isBankrupt
    ensures CountAlive(ps) <= 1
  {
    var n := |ps|;
    if ci < n - 1 {
      AliveAtMostOne(ps[..n - 1], ci);
    } else {
      AliveZero(ps[..n - 1]);
    }
  }

  lemma {:induction false} AliveZero(ps: seq<Player>)
    requires forall j :: 0 <= j < |ps| ==> ps[j].isBankrupt
    ensures CountAlive(ps) == 0
  {
    if |ps| > 0 {
      AliveZero(ps[..|ps| - 1]);
    }
  }

  /** With at least two players not bankrupt, the scan of `advanceTurn`
      settles on another seat, not bankrupt, with every seat it skipped
      bankrupt: the first such player going round from the current one. */
  lemma NextTurnIndexAlive(ps: seq<Player>, ci: nat)
    requires ci < |ps| && CountAlive(ps) >= 2
    ensures var ni := NextTurnIndex(ps, ci);
      ni != ci && !ps[ni].isBankrupt &&
      1 <= Steps(ci, ni, |ps|) < |ps| &&
      forall u :: 1 <= u < Steps(ci, ni, |ps|) ==> Ahead(ps, ci, u).isBankrupt
  {
    var n := |ps|;
    if NextTurnIndex(ps, ci) == ci {
      forall j | 0 <= j < n && j != ci
        ensures ps[j].isBankrupt
      {
        var u := Steps(ci, j, n);
        Wrap(ci + u, n);
        assert Ahead(ps, ci, u) == ps[j];
      }
      AliveAtMostOne(ps, ci);
      assert false;
    }
  }

  /** `advanceTurn` with a current player present and at least two players
      not bankrupt: the turn goes to the next such player circularly, the
      round counts up exactly when the scan wrapped, and the per-turn fields
      are reset; the finish check may then end the game. */
  lemma AdvanceEffect(s: GameState, reason: TurnReason, now: int, ci: nat)
    requires Truthy(s.currentTurnPlayerId) && FindPlayer(s.players, s.currentTurnPlayerId.value) == Some(ci)
    requires CountAlive(s.players) >= 2
    ensures var t := AfterAdvance(s, reason, now);
      var ni := NextTurnIndex(s.players, ci);
      ni != ci && !s.players[ni].isBankrupt &&
      (forall u :: 1 <= u < Steps(ci, ni, |s.players|) ==> Ahead(s.players, ci, u).isBankrupt) &&
      t.round == (if ni <= ci then s.round + 1 else s.round) &&
      t.lastProcessedTurnKey == None && t.lastRoll == None && t.pendingTileAction == None &&
      t.players == s.players && t.properties == s.properties && t.board == s.board &&
      (if GameIsOver(t)
       then t.status == Finished && t.currentTurnPlayerId == None && t.turnDeadline == None
       else t.status == s.status && t.currentTurnPlayerId == Some(s.players[ni].id) &&
            t.turnDeadline == Some(now + TurnMillis))
  {
    NextTurnIndexAlive(s.players, ci);
    var mid := AdvanceMid(s, reason, now, ci);
    FinishRules(mid, now);
  }

  /** With two players alive, `advanceTurn` is the finish check of the record
      with the turn passed to the next seat and the change logged. */
  lemma AdvanceMid(s: GameState, reason: TurnReason, now: int, ci: nat) returns (mid: GameState)
    requires Truthy(s.currentTurnPlayerId) && FindPlayer(s.players, s.currentTurnPlayerId.value) == Some(ci)
    requires CountAlive(s.players) >= 2
    ensures var ni := NextTurnIndex(s.players, ci);
      mid == WithEvent(s.(round := if ni <= ci then s.round + 1 else s.round,
                          currentTurnPlayerId := Some(s.players[ni].id),
                          turnDeadline := Some(now + TurnMillis),
                          lastProcessedTurnKey := None, lastRoll := None, pendingTileAction := None),
                       TurnChange, TurnNote(reason), now)
    ensures AfterAdvance(s, reason, now) == AfterFinishCheck(mid, now)
  {
    var ni := NextTurnIndex(s.players, ci);
    mid := WithEvent(s.(round := if ni <= ci then s.round + 1 else s.round,
                        currentTurnPlayerId := Some(s.players[ni].id),
                        turnDeadline := Some(now + TurnMillis),
                        lastProcessedTurnKey := None, lastRoll := None, pendingTileAction := None),
                     TurnChange, TurnNote(reason), now);
    assert mid == PassedTurn(s, ci, reason, now);
  }

  /** `advanceTurn` does nothing without a current player it can find. */
  lemma AdvanceWithoutCurrent(s: GameState, reason: TurnReason, now: int)
    requires !Truthy(s.currentTurnPlayerId) || FindPlayer(s.players, s.currentTurnPlayerId.value).None?
    ensures AfterAdvance(s, reason, now) == s
  {
  }

  /** The tile step changes no player's id, the turn or the status. */
  lemma TileOutcomeFrame(s: GameState, i: nat, a: PendingTileAction, buy: bool, chance: Chance, now: int)
    requires OnBoard(s) && i < |s.players| && chance.effect < 3
    requires TileOutcome(s, i, a, buy, chance, now).Ok?
    ensures var t := TileOutcome(s, i, a, buy, chance, now).value.state;
      |t.players| == |s.players| && (forall j :: 0 <= j < |s.players| ==> t.players[j].id == s.players[j].id) &&
      t.currentTurnPlayerId == s.currentTurnPlayerId && t.status == s.status
  {
    var p := s.players[i];
    if a.tileType == PropertyTile && Truthy(a.propertyId) {
      var k := FindProperty(s.properties, a.propertyId.value).value;
      PropertyOutcomeFrame(s, i, k, buy, now);
    } else if a.tileType == Luck || a.tileType == BadLuck {
      var e := Events.Table(a.tileType)[chance.effect];
      if e == PropertyDamage && FindPlayer(s.players, p.id).Some? {
        var j := FindPlayer(s.players, p.id).value;
        assert Events.Applied(s, e, p.id, chance.forfeit) == Events.Forfeited(s, j, chance.forfeit);
      }
    }
  }

  lemma PropertyOutcomeFrame(s: GameState, i: nat, k: nat, buy: bool, now: int)
    requires OnBoard(s) && i < |s.players| && k < |s.properties|
    requires PropertyOutcome(s, i, k, buy, now).Ok?
    ensures var t := PropertyOutcome(s, i, k, buy, now).value.state;
      |t.players| == |s.players| && (forall j :: 0 <= j < |s.players| ==> t.players[j].id == s.players[j].id) &&
      t.currentTurnPlayerId == s.currentTurnPlayerId && t.status == s.status
  {
    var p := s.players[i];
    var pr := s.properties[k];
    if Truthy(pr.ownerId) && pr.ownerId.value != p.id {
      var rent := pr.rent + pr.level * RentPerLevel;
      var s1 := s.(players := Events.ShiftCoins(s.players, i, -rent));
      FindPlayerSameIds(s.players, s1.players, pr.ownerId.value);
    }
  }

  /** A successful resolve is the turn advance of the record after the tile
      step, the cleared pending action and the recomputed flags. */
  lemma ResolveShape(s: GameState, playerId: PlayerId, buy: bool, chance: Chance, now: int)
    returns (s2: GameState, i: nat)
    requires OnBoard(s) && chance.effect < 3
    requires AfterResolve(s, playerId, buy, chance, now).1.Ok?
    ensures AfterResolve(s, playerId, buy, chance, now).0 == AfterAdvance(s2, TurnChanged, now).(updatedAt := now)
    ensures s2.currentTurnPlayerId == Some(playerId) && FindPlayer(s2.players, playerId) == Some(i)
    ensures s2.pendingTileAction.None?
    ensures |s2.players| == |s.players| && forall j :: 0 <= j < |s.players| ==> s2.players[j].id == s.players[j].id
    ensures forall j :: 0 <= j < |s2.players| ==> s2.players[j].isBankrupt == (s2.players[j].coins <= 0)
    ensures CountAlive(s2.players) == CountPositive(s2.players)
  {
    i := FindPlayer(s.players, playerId).value;
    var step := TileOutcome(s, i, s.pendingTileAction.value, buy, chance, now).value;
    TileOutcomeFrame(s, i, s.pendingTileAction.value, buy, chance, now);
    s2 := AfterElimination(step.state.(pendingTileAction := None));
    FlaggedCounts(step.state.players);
    FindPlayerSameIds(s.players, s2.players, playerId);
  }

  /** With unique ids, the seat an id is found at is the seat holding it. */
  lemma FoundAtSeat(ps: seq<Player>, j: nat)
    requires UniquePlayerIds(ps) && j < |ps|
    ensures FindPlayer(ps, ps[j].id) == Some(j)
  {
  }

  /** The turn advance after a resolve: with every flag matching the coins,
      either the game ends or the turn goes to another player who is not
      bankrupt. */
  lemma HandOver(s2: GameState, playerId: PlayerId, i: nat, now: int)
    requires UniquePlayerIds(s2.players)
    requires playerId != "" && s2.currentTurnPlayerId == Some(playerId) && FindPlayer(s2.players, playerId) == Some(i)
    requires CountAlive(s2.players) == CountPositive(s2.players)
    ensures var t := AfterAdvance(s2, TurnChanged, now);
      t.players == s2.players &&
      (t.status == Finished ||
       (t.currentTurnPlayerId.Some? && t.currentTurnPlayerId != Some(playerId) &&
        FindPlayer(t.players, t.currentTurnPlayerId.value).Some? &&
        !t.players[FindPlayer(t.players, t.currentTurnPlayerId.value).value].isBankrupt))
  {
    if CountAlive(s2.players) >= 2 {
      HandOverAlive(s2, playerId, i, now);
    } else {
      assert AfterAdvance(s2, TurnChanged, now) == AfterFinishCheck(s2, now);
      FinishRules(s2, now);
    }
  }

  lemma HandOverAlive(s2: GameState, playerId: PlayerId, i: nat, now: int)
    requires UniquePlayerIds(s2.players)
    requires playerId != "" && s2.currentTurnPlayerId == Some(playerId) && FindPlayer(s2.players, playerId) == Some(i)
    requires CountAlive(s2.players) >= 2
    ensures var t := AfterAdvance(s2, TurnChanged, now);
      t.players == s2.players &&
      (t.status == Finished ||
       (t.currentTurnPlayerId.Some? && t.currentTurnPlayerId != Some(playerId) &&
        FindPlayer(t.players, t.currentTurnPlayerId.value).Some? &&
        !t.players[FindPlayer(t.players, t.currentTurnPlayerId.value).value].isBankrupt))
  {
    var t := AfterAdvance(s2, TurnChanged, now);
    AdvanceEffect(s2, TurnChanged, now, i);
    var ni := NextTurnIndex(s2.players, i);
    FoundAtSeat(s2.players, ni);
  }

  /** A successful resolve clears the pending action, recomputes every
      bankruptcy flag from the coins, and hands the turn on: either the game
      is over, or another player who is not bankrupt now has the turn. */
  lemma ResolveHandsOver(s: GameState, playerId: PlayerId, buy: bool, chance: Chance, now: int)
    requires OnBoard(s) && chance.effect < 3 && playerId != "" && UniquePlayerIds(s.players)
    requires AfterResolve(s, playerId, buy, chance, now).1.Ok?
    ensures var t := AfterResolve(s, playerId, buy, chance, now).0;
      t.pendingTileAction.None? && t.updatedAt == now &&
      (forall j :: 0 <= j < |t.players| ==> t.players[j].isBankrupt == (t.players[j].coins <= 0)) &&
      (t.status == Finished ||
       (t.currentTurnPlayerId.Some? && t.currentTurnPlayerId != Some(playerId) &&
        FindPlayer(t.players, t.currentTurnPlayerId.value).Some? &&
        !t.players[FindPlayer(t.players, t.currentTurnPlayerId.value).value].isBankrupt))
  {
    var s2, i := ResolveShape(s, playerId, buy, chance, now);
    assert UniquePlayerIds(s2.players);
    HandOver(s2, playerId, i, now);
    PendingStaysClear(s2, TurnChanged, now);
  }

  /** The turn advance never leaves a pending action behind where there was
      none. */
  lemma PendingStaysClear(s: GameState, reason: TurnReason, now: int)
    requires s.pendingTileAction.None?
    ensures AfterAdvance(s, reason, now).pendingTileAction.None?
  {
  }

  // ---------------------------------------------------------------- buying and upgrading

  /** A purchase debits exactly the value, makes the buyer the owner and
      appends the id once; net worth grows only by the level bonus an
      unowned property may carry. */
  lemma PurchaseEffect(s: GameState, i: nat, k: nat)
    requires i < |s.players| && k < |s.properties|
    requires FindPlayer(s.players, s.players[i].id) == Some(i)
    requires s.properties[k].ownerId != Some(s.players[i].id)
    ensures var t := Purchase(s, i, k);
      var p := s.players[i];
      var pr := s.properties[k];
      t.players[i].coins == p.coins - pr.value &&
      t.players[i].properties == p.properties + [pr.id] &&
      t.properties[k].ownerId == Some(p.id) &&
      NetWorthForPlayer(t, p.id) == NetWorthForPlayer(s, p.id) + pr.level * 100
  {
    var t := Purchase(s, i, k);
    var p := s.players[i];
    assert FindPlayer(t.players, p.id) == Some(i) by {
      FindPlayerSameIds(s.players, t.players, p.id);
    }
    OwnedValueUpdate(s.properties, k, t.properties[k], p.id);
  }

  /** `buyProperty` succeeds exactly when the game runs, it is the caller's
      turn, the caller and the property exist, the property is unowned, the
      caller can pay and stands on its tile; otherwise nothing changes. */
  lemma BuyRules(s: GameState, playerId: PlayerId, propertyId: PropertyId, now: int)
    requires OnBoard(s)
    ensures var (t, r) := AfterBuy(s, playerId, propertyId, now);
      var fi := FindPlayer(s.players, playerId);
      var fk := FindProperty(s.properties, propertyId);
      (r.Ok? <==>
        s.status == Running && s.currentTurnPlayerId == Some(playerId) && fi.Some? && fk.Some? &&
        !Truthy(s.properties[fk.value].ownerId) &&
        s.players[fi.value].coins >= s.properties[fk.value].value &&
        s.board[s.players[fi.value].position].propertyId == Some(propertyId)) &&
      (r.Err? ==> t == s) &&
      (r.Ok? ==> t == WithEvent(Purchase(s, fi.value, fk.value), BuyPropertyEvent,
                                Bought(s.players[fi.value].name, s.properties[fk.value].name, s.properties[fk.value].value), now)
                    .(updatedAt := now))
  {
  }

  /** Buying while resolving a tile needs an unowned property and enough
      coins; a lander who cannot pay is refused and nothing changes. */
  lemma ResolveBuyRules(s: GameState, i: nat, k: nat, now: int)
    requires OnBoard(s) && i < |s.players| && k < |s.properties|
    requires !Truthy(s.properties[k].ownerId)
    ensures var out := PropertyOutcome(s, i, k, true, now);
      (out.Err? <==> s.players[i].coins < s.properties[k].value) &&
      (out.Err? ==> out.error == InsufficientBalanceToBuy) &&
      (out.Ok? ==> out.value.state == WithEvent(Purchase(s, i, k), BuyPropertyEvent,
                      Bought(s.players[i].name, s.properties[k].name, s.properties[k].value), now) &&
                   out.value.message == Purchased(s.properties[k].name, s.properties[k].value))
  {
  }

  /** Declining, or a timeout resolving as a decline, never buys. */
  lemma DeclineNeverBuys(s: GameState, i: nat, k: nat, now: int)
    requires OnBoard(s) && i < |s.players| && k < |s.properties|
    ensures var out := PropertyOutcome(s, i, k, false, now);
      out.Ok? ==> out.value.state.properties == s.properties
  {
  }

  lemma UpgradeCostExamples()
    ensures UpgradeCost(Property("p", "n", "c", 280, 45, None, 0)) == 140
    ensures UpgradeCost(Property("p", "n", "c", 280, 45, None, 1)) == 220
  {
  }

  /** `upgradeProperty` succeeds exactly for the owner who can pay
      `value / 2 + level * 80`, whatever the status and whoever's turn it
      is; it debits that cost and raises the level by one. */
  lemma UpgradeRules(s: GameState, playerId: PlayerId, propertyId: PropertyId, now: int)
    ensures var (t, r) := AfterUpgrade(s, playerId, propertyId, now);
      var fi := FindPlayer(s.players, playerId);
      var fk := FindProperty(s.properties, propertyId);
      (r.Ok? <==>
        fi.Some? && fk.Some? && s.properties[fk.value].ownerId == Some(playerId) &&
        s.players[fi.value].coins >= UpgradeCost(s.properties[fk.value])) &&
      (r.Err? ==> t == s) &&
      (r.Ok? ==> UpgradeApplied(s, t, fi.value, fk.value, now))
  {
    var (t, r) := AfterUpgrade(s, playerId, propertyId, now);
    if r.Ok? {
      UpgradeEffect(s, playerId, propertyId, now);
    }
  }

  /** The record after an upgrade by seat i of property k: the owner pays
      the upgrade price, the level rises by one, an event is logged, and no
      other seat, property or field changes. */
  predicate UpgradeApplied(s: GameState, t: GameState, i: nat, k: nat, now: int)
    requires i < |s.players| && k < |s.properties|
  {
    |t.players| == |s.players| && |t.properties| == |s.properties| &&
    t.players[i] == s.players[i].(coins := s.players[i].coins - UpgradeCost(s.properties[k])) &&
    t.properties[k] == s.properties[k].(level := s.properties[k].level + 1) &&
    (forall j :: 0 <= j < |s.players| && j != i ==> t.players[j] == s.players[j]) &&
    (forall m :: 0 <= m < |s.properties| && m != k ==> t.properties[m] == s.properties[m]) &&
    t.events == PushEvent(s.events, GameEvent(UpgradePropertyEvent,
                  UpgradedTo(s.players[i].name, s.properties[k].name, s.properties[k].level + 1), now)) &&
    t == s.(players := t.players, properties := t.properties, events := t.events, updatedAt := now)
  }

  lemma UpgradeEffect(s: GameState, playerId: PlayerId, propertyId: PropertyId, now: int)
    requires AfterUpgrade(s, playerId, propertyId, now).1.Ok?
    ensures FindPlayer(s.players, playerId).Some? && FindProperty(s.properties, propertyId).Some?
    ensures UpgradeApplied(s, AfterUpgrade(s, playerId, propertyId, now).0,
                           FindPlayer(s.players, playerId).value, FindProperty(s.properties, propertyId).value, now)
  {
  }

  // ---------------------------------------------------------------- the end of the game

  /** When the game is over the finish check ends it and names as winner
      the first player, in seat order, of the largest net worth; otherwise it
      changes nothing. */
  lemma FinishRules(s: GameState, now: int)
    ensures var t := AfterFinishCheck(s, now);
      (!GameIsOver(s) ==> t == s) &&
      (GameIsOver(s) ==>
        t.status == Finished && t.currentTurnPlayerId == None && t.turnDeadline == None &&
        t.pendingTileAction == None &&
        (|s.players| == 0 ==> t.winnerId == None) &&
        (|s.players| > 0 ==>
          exists w :: 0 <= w < |s.players| && t.winnerId == Some(s.players[w].id) &&
            (forall j :: 0 <= j < |s.players| ==>
              NetWorthForPlayer(s, s.players[j].id) <= NetWorthForPlayer(s, s.players[w].id)) &&
            (forall j :: 0 <= j < w ==>
              NetWorthForPlayer(s, s.players[j].id) < NetWorthForPlayer(s, s.players[w].id))))
  {
    if GameIsOver(s) && |s.players| > 0 {
      var ws := Worths(s);
      var w := FirstMax(ws);
      assert AfterFinishCheck(s, now).winnerId == Some(s.players[w].id);
      assert forall j :: 0 <= j < |s.players| ==> ws[j] == NetWorthForPlayer(s, s.players[j].id);
    }
  }

  // ---------------------------------------------------------------- timeouts

  /** The deadline of a running game has passed (a deadline of 0 counts as
      none). */
  predicate TimeoutDue(s: GameState, now: int)
  {
    s.status == Running && s.turnDeadline.Some? && s.turnDeadline.value != 0 && now > s.turnDeadline.value
  }

  /** Before the deadline, or outside a running game, the timeout check
      changes nothing. */
  lemma TimeoutNotDue(s: GameState, chance: Chance, now: int)
    requires OnBoard(s) && chance.effect < 3 && !TimeoutDue(s, now)
    ensures AfterTimeout(s, chance, now) == s
  {
  }

  /** The two turn-skipping shapes of a due timeout: without a pending
      action the turn passes after a `TimeExpired` entry; when the decline
      is refused the pending action is dropped and the turn passes after a
      `TimeoutDuringAction` entry. */
  lemma TimeoutShape(s: GameState, chance: Chance, now: int)
    requires OnBoard(s) && chance.effect < 3 && TimeoutDue(s, now)
    ensures !(s.pendingTileAction.Some? && Truthy(s.currentTurnPlayerId)) ==>
      AfterTimeout(s, chance, now) ==
        AfterAdvance(WithEvent(s, TurnChange, TimeExpired, now), TimeoutSkip, now).(updatedAt := now)
    ensures s.pendingTileAction.Some? && Truthy(s.currentTurnPlayerId) &&
            AfterResolve(s, s.pendingTileAction.value.playerId, false, chance, now).1.Err? ==>
      AfterTimeout(s, chance, now) ==
        AfterAdvance(WithEvent(s.(pendingTileAction := None), TurnChange, TimeoutDuringAction, now), TimeoutSkip, now).(updatedAt := now)
  {
    if s.pendingTileAction.Some? && Truthy(s.currentTurnPlayerId) &&
       AfterResolve(s, s.pendingTileAction.value.playerId, false, chance, now).1.Err? {
      ResolveRefusedUnchanged(s, s.pendingTileAction.value.playerId, false, chance, now);
    }
  }

  /** A due timeout with a pending action resolves it as a decline: the
      record is that of the resolve with buy = false, and a pending property
      is never bought by it. */
  lemma TimeoutDeclines(s: GameState, chance: Chance, now: int)
    requires OnBoard(s) && chance.effect < 3 && TimeoutDue(s, now)
    requires s.pendingTileAction.Some? && Truthy(s.currentTurnPlayerId)
    requires AfterResolve(s, s.pendingTileAction.value.playerId, false, chance, now).1.Ok?
    ensures AfterTimeout(s, chance, now) == AfterResolve(s, s.pendingTileAction.value.playerId, false, chance, now).0
    ensures s.pendingTileAction.value.tileType == PropertyTile ==> AfterTimeout(s, chance, now).properties == s.properties
  {
    var a := s.pendingTileAction.value;
    var id := a.playerId;
    if a.tileType == PropertyTile {
      var i := FindPlayer(s.players, id).value;
      if Truthy(a.propertyId) {
        var k := FindProperty(s.properties, a.propertyId.value).value;
        DeclineNeverBuys(s, i, k, now);
      }
      var step := TileOutcome(s, i, a, false, chance, now).value;
      assert step.state.properties == s.properties;
      var s2 := AfterElimination(step.state.(pendingTileAction := None));
      assert AfterResolve(s, id, false, chance, now).0 == AfterAdvance(s2, TurnChanged, now).(updatedAt := now);
    }
  }

  /** A due timeout whose pending action cannot be resolved drops it and
      passes the turn; no coins, positions or properties change. */
  lemma TimeoutAfterFailedResolve(s: GameState, chance: Chance, now: int)
    requires OnBoard(s) && chance.effect < 3 && TimeoutDue(s, now)
    requires s.pendingTileAction.Some? && Truthy(s.currentTurnPlayerId)
    requires AfterResolve(s, s.pendingTileAction.value.playerId, false, chance, now).1.Err?
    ensures var t := AfterTimeout(s, chance, now);
      t.pendingTileAction.None? && t.players == s.players && t.properties == s.properties && t.updatedAt == now
    ensures var t := AfterTimeout(s, chance, now);
      FindPlayer(s.players, s.currentTurnPlayerId.value).Some? && CountAlive(s.players) >= 2 ==>
        var ci := FindPlayer(s.players, s.currentTurnPlayerId.value).value;
        t.status == Finished || t.currentTurnPlayerId == Some(s.players[NextTurnIndex(s.players, ci)].id)
  {
    var m := WithEvent(s.(pendingTileAction := None), TurnChange, TimeoutDuringAction, now);
    TimeoutShape(s, chance, now);
    PendingStaysClear(m, TimeoutSkip, now);
    if FindPlayer(s.players, s.currentTurnPlayerId.value).Some? && CountAlive(s.players) >= 2 {
      AdvanceEffect(m, TimeoutSkip, now, FindPlayer(s.players, s.currentTurnPlayerId.value).value);
    }
  }

  /** A due timeout without a pending action skips the turn: with at least
      two players not bankrupt, the next of them circularly gets the turn
      unless the game ends; no coins, positions or properties change. */
  lemma TimeoutSkipsTurn(s: GameState, chance: Chance, now: int, ci: nat)
    requires OnBoard(s) && chance.effect < 3 && TimeoutDue(s, now)
    requires s.pendingTileAction.None? && Truthy(s.currentTurnPlayerId)
    requires FindPlayer(s.players, s.currentTurnPlayerId.value) == Some(ci) && CountAlive(s.players) >= 2
    ensures var t := AfterTimeout(s, chance, now);
      var ni := NextTurnIndex(s.players, ci);
      ni != ci && !s.players[ni].isBankrupt &&
      t.players == s.players && t.properties == s.properties && t.pendingTileAction.None? && t.updatedAt == now &&
      (t.status == Finished || t.currentTurnPlayerId == Some(s.players[ni].id))
  {
    var m := WithEvent(s, TurnChange, TimeExpired, now);
    assert AfterTimeout(s, chance, now) == AfterAdvance(m, TimeoutSkip, now).(updatedAt := now);
    AdvanceEffect(m, TimeoutSkip, now, ci);
  }
}
