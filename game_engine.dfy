/** The turn-based engine (gameEngine.ts). Each exported operation is a
    method that mutates the session record held by a Store, as the source
    mutates its module-level `state`; next to it, a function `After…` states
    the record and the result the operation produces from the record it
    starts from, and each method is proved to produce exactly that. Random
    draws, the clock and fresh ids are parameters. */
module GameEngine {
  import opened Types
  import opened SessionStore
  import Events

  const StartingCoins: int := 1000
  const LapBonus: int := 300
  const TurnMillis: int := 30000
  const MaxRounds: int := 15
  const RentPerLevel: int := 35
  const UpgradePerLevel: int := 80
  const SpecialEventCoins: int := 100
  const MinNameLength: nat := 2
  const MaxNameLength: nat := 24

  /** JavaScript truthiness of an optional string: null and "" are falsy. */
  predicate Truthy(o: Option<string>)
  {
    o.Some? && o.value != ""
  }

  /** What every function below needs to be well defined: a non-empty board
      and every player standing on it. */
  predicate OnBoard(s: GameState)
  {
    |s.board| > 0 && forall i :: 0 <= i < |s.players| ==> 0 <= s.players[i].position < |s.board|
  }

  // ---------------------------------------------------------------- name validation

  /** The characters String.prototype.trim removes. */
  predicate IsWhitespace(c: char)
  {
    c == ' ' || c == '\t' || c == '\n' || c == '\r' || c == '\U{000B}' || c == '\U{000C}' ||
    c == '\U{00A0}' || c == '\U{1680}' || ('\U{2000}' <= c <= '\U{200A}') ||
    c == '\U{2028}' || c == '\U{2029}' || c == '\U{202F}' || c == '\U{205F}' ||
    c == '\U{3000}' || c == '\U{FEFF}'
  }

  function TrimStart(s: string): string
  {
    if |s| > 0 && IsWhitespace(s[0]) then TrimStart(s[1..]) else s
  }

  function TrimEnd(s: string): string
  {
    if |s| > 0 && IsWhitespace(s[|s| - 1]) then TrimEnd(s[..|s| - 1]) else s
  }

  /** The name with leading and trailing whitespace removed. */
  function Trim(s: string): string
  {
    TrimEnd(TrimStart(s))
  }

  // ---------------------------------------------------------------- counting and ranking

  function CountAlive(ps: seq<Player>): nat
  {
    if |ps| == 0 then 0 else CountAlive(ps[..|ps| - 1]) + if ps[|ps| - 1].isBankrupt then 0 else 1
  }

  function CountPositive(ps: seq<Player>): nat
  {
    if |ps| == 0 then 0 else CountPositive(ps[..|ps| - 1]) + if ps[|ps| - 1].coins > 0 then 1 else 0
  }

  /** Every player marked bankrupt exactly when no coins are left, all else kept. */
  function Flagged(ps: seq<Player>): seq<Player>
  {
    seq(|ps|, j requires 0 <= j < |ps| => ps[j].(isBankrupt := ps[j].coins <= 0))
  }

  /** Net worth of each player, in `players` order. */
  function Worths(s: GameState): (ws: seq<int>)
    ensures |ws| == |s.players|
    ensures forall j :: 0 <= j < |ws| ==> ws[j] == NetWorthForPlayer(s, s.players[j].id)
  {
    seq(|s.players|, j requires 0 <= j < |s.players| => NetWorthForPlayer(s, s.players[j].id))
  }

  /** The first position holding the largest value: what element 0 of a
      stable sort by decreasing value is. */
  function FirstMax(ws: seq<int>): (k: nat)
    requires |ws| > 0
    ensures k < |ws|
    ensures forall j :: 0 <= j < |ws| ==> ws[j] <= ws[k]
    ensures forall j :: 0 <= j < k ==> ws[j] < ws[k]
  {
    if |ws| == 1 then 0
    else
      var k := FirstMax(ws[..|ws| - 1]);
      assert forall j :: 0 <= j < |ws| - 1 ==> ws[..|ws| - 1][j] == ws[j];
      if ws[|ws| - 1] > ws[k] then |ws| - 1 else k
  }

  /** The winner: the player ranked first by net worth, none without
      players. */
  function WinnerOf(s: GameState): Option<PlayerId>
  {
    if |s.players| == 0 then None else Some(s.players[FirstMax(Worths(s))].id)
  }

  predicate GameIsOver(s: GameState)
  {
    s.round > MaxRounds || CountPositive(s.players) <= 1
  }

  function TurnKeyOf(s: GameState): TurnKey
  {
    TurnKey(s.round, s.currentTurnPlayerId)
  }

  // ---------------------------------------------------------------- turn scan

  /** How many steps forward from index ci the index r is, on a circle of n. */
  function Steps(ci: nat, r: nat, n: nat): nat
    requires ci < n && r < n
  {
    if r > ci then r - ci else r + n - ci
  }

  /** The player u seats after seat ci, going round the table. */
  function Ahead(ps: seq<Player>, ci: nat, u: nat): Player
    requires |ps| > 0
  {
    ps[(ci + u) % |ps|]
  }

  /** `%` on the range the seat arithmetic uses. */
  lemma Wrap(y: int, n: int)
    requires n > 0 && 0 <= y <= 2 * n
    ensures y % n == if y < n then y else if y < 2 * n then y - n else 0
  {
    if y == 2 * n {
      assert y == 2 * n + 0;
    } else if y >= n {
      assert y == 1 * n + (y - n);
    }
  }

  /** The scan of `advanceTurn` from step t on: the first non-bankrupt seat
      at least t steps after ci, or ci once the scan has come full circle. */
  function ScanFrom(ps: seq<Player>, ci: nat, t: nat): (r: nat)
    requires ci < |ps| && 1 <= t <= |ps|
    decreases |ps| - t
    ensures r < |ps|
    ensures r == ci ==> forall u :: t <= u < |ps| ==> Ahead(ps, ci, u).isBankrupt
    ensures r != ci ==>
      t <= Steps(ci, r, |ps|) < |ps| && (ci + Steps(ci, r, |ps|)) % |ps| == r && !ps[r].isBankrupt &&
      forall u :: t <= u < Steps(ci, r, |ps|) ==> Ahead(ps, ci, u).isBankrupt
  {
    var n := |ps|;
    if t == n then ci
    else
      var k := (ci + t) % n;
      Wrap(ci + t, n);
      assert k != ci && Steps(ci, k, n) == t;
      if !ps[k].isBankrupt then k else ScanFrom(ps, ci, t + 1)
  }

  function NextTurnIndex(ps: seq<Player>, ci: nat): nat
    requires ci < |ps|
  {
    ScanFrom(ps, ci, 1)
  }

  // ---------------------------------------------------------------- the record after each step

  /** `eliminateBankruptPlayers`: each flag becomes "no coins left" and
      nothing else changes. */
  function AfterElimination(s: GameState): (t: GameState)
    ensures t == s.(players := t.players) && |t.players| == |s.players|
    ensures forall j {:trigger t.players[j]} :: 0 <= j < |s.players| ==>
      t.players[j].(isBankrupt := s.players[j].isBankrupt) == s.players[j] &&
      (t.players[j].isBankrupt <==> t.players[j].coins <= 0)
  {
    s.(players := Flagged(s.players))
  }

  /** The end check: once one or no player is left standing, the game is
      finished, the turn and any pending action are cleared, the winner is
      recorded and a game-over entry logged; otherwise nothing changes. */
  function AfterFinishCheck(s: GameState, now: int): (t: GameState)
    ensures t.players == s.players && t.board == s.board && t.properties == s.properties
  {
    if GameIsOver(s) then
      WithEvent(s.(status := Finished, turnDeadline := None, currentTurnPlayerId := None,
                   pendingTileAction := None, winnerId := WinnerOf(s)), GameOver, GameEnded, now)
    else s
  }

  /** Passing the turn: the next standing seat after the current one takes
      it, the round grows on wrapping past the last seat, a fresh deadline is
      set, the per-turn fields are cleared, a turn-change entry is logged and
      the end check runs. */
  function AfterAdvance(s: GameState, reason: TurnReason, now: int): (t: GameState)
    ensures t.players == s.players && t.board == s.board && t.properties == s.properties
  {
    if !Truthy(s.currentTurnPlayerId) then s
    else match FindPlayer(s.players, s.currentTurnPlayerId.value)
      case None => s
      case Some(ci) =>
        if CountAlive(s.players) <= 1 then AfterFinishCheck(s, now)
        else AfterFinishCheck(PassedTurn(s, ci, reason, now), now)
  }

  /** The record with the turn handed from seat ci to the next standing
      seat: the round grows when the scan wraps, the deadline restarts, the
      per-turn fields are cleared and the change is logged. */
  function PassedTurn(s: GameState, ci: nat, reason: TurnReason, now: int): GameState
    requires ci < |s.players|
  {
    var ni := NextTurnIndex(s.players, ci);
    var s1 := s.(round := if ni <= ci then s.round + 1 else s.round,
                 currentTurnPlayerId := Some(s.players[ni].id),
                 turnDeadline := Some(now + TurnMillis),
                 lastProcessedTurnKey := None, lastRoll := None, pendingTileAction := None);
    WithEvent(s1, TurnChange, TurnNote(reason), now)
  }

  /** The player at index i moved `steps` tiles round the board, with the lap
      bonus when the move reaches or passes the start. */
  function AfterMove(s: GameState, i: nat, steps: int, now: int): (t: GameState)
    requires OnBoard(s) && i < |s.players| && 0 <= steps
    ensures OnBoard(t) && t.board == s.board
  {
    var p := s.players[i];
    var after := (p.position + steps) % |s.board|;
    var s1 := if p.position + steps >= |s.board| then
        WithEvent(s.(players := Events.ShiftCoins(s.players, i, LapBonus)), EventTriggered, LapCompleted(p.name), now)
      else s;
    s1.(players := s1.players[i := s1.players[i].(position := after)])
  }

  /** The decision the player at index i faces on the tile they stand on;
      for a property tile, its id, its value and whether it can be bought, or an
      error when the tile names no known property. */
  function PendingFor(s: GameState, i: nat): Result<PendingTileAction>
    requires OnBoard(s) && i < |s.players|
  {
    var p := s.players[i];
    var tile := s.board[p.position];
    if tile.kind == PropertyTile && Truthy(tile.propertyId) then
      match FindProperty(s.properties, tile.propertyId.value)
      case None => Err(InvalidPropertyTile)
      case Some(k) =>
        var pr := s.properties[k];
        Ok(PendingTileAction(p.id, tile.index, PropertyTile, Some(pr.id), Some(pr.value), Some(!Truthy(pr.ownerId))))
    else Ok(PendingTileAction(p.id, tile.index, tile.kind, None, None, None))
  }

  /** Player i pays the value of property k and becomes its owner; no
      other seat or property changes, and neither does the rest of the
      record. */
  function Purchase(s: GameState, i: nat, k: nat): (t: GameState)
    requires i < |s.players| && k < |s.properties|
    ensures t == s.(players := t.players, properties := t.properties)
    ensures |t.players| == |s.players| && |t.properties| == |s.properties|
    ensures forall j {:trigger t.players[j]} :: 0 <= j < |s.players| && j != i ==> t.players[j] == s.players[j]
    ensures forall m {:trigger t.properties[m]} :: 0 <= m < |s.properties| && m != k ==> t.properties[m] == s.properties[m]
    ensures t.players[i].(coins := s.players[i].coins, properties := s.players[i].properties) == s.players[i]
    ensures t.properties[k].(ownerId := s.properties[k].ownerId) == s.properties[k]
  {
    var p := s.players[i];
    var pr := s.properties[k];
    s.(players := s.players[i := p.(coins := p.coins - pr.value, properties := p.properties + [pr.id])],
       properties := s.properties[k := pr.(ownerId := Some(p.id))])
  }

  /** Player i pays `rent`, which the owner receives when still present;
      only coins change. */
  function RentCharged(s: GameState, i: nat, ownerId: PlayerId, rent: int): (t: GameState)
    requires i < |s.players|
    ensures t == s.(players := t.players) && |t.players| == |s.players|
    ensures forall j {:trigger t.players[j]} :: 0 <= j < |s.players| ==> t.players[j] == s.players[j].(coins := t.players[j].coins)
  {
    var s1 := s.(players := Events.ShiftCoins(s.players, i, -rent));
    match FindPlayer(s1.players, ownerId)
    case None => s1
    case Some(j) => s1.(players := Events.ShiftCoins(s1.players, j, rent))
  }

  datatype Step = Step(state: GameState, message: ActionMessage)

  /** The property branch of `resolveTileAction`: buy, decline, rent or
      the lander's own property. */
  function PropertyOutcome(s: GameState, i: nat, k: nat, buy: bool, now: int): (r: Result<Step>)
    requires OnBoard(s) && i < |s.players| && k < |s.properties|
    ensures r.Ok? ==> OnBoard(r.value.state) && r.value.state.board == s.board
  {
    var p := s.players[i];
    var pr := s.properties[k];
    if !Truthy(pr.ownerId) && buy then
      if p.coins < pr.value then Err(InsufficientBalanceToBuy)
      else Ok(Step(WithEvent(Purchase(s, i, k), BuyPropertyEvent, Bought(p.name, pr.name, pr.value), now),
                   Purchased(pr.name, pr.value)))
    else if !Truthy(pr.ownerId) then
      Ok(Step(WithEvent(s, EventTriggered, SkippedBuying(p.name, pr.name), now), DeclinedPurchase(pr.name)))
    else if pr.ownerId.value != p.id then
      var rent := pr.rent + pr.level * RentPerLevel;
      Ok(Step(WithEvent(RentCharged(s, i, pr.ownerId.value, rent), EventTriggered, PaidRent(p.name, rent, pr.name), now),
              RentPaid(rent, pr.name)))
    else
      Ok(Step(WithEvent(s, EventTriggered, LandedOnOwn(p.name, pr.name), now), OwnProperty(pr.name)))
  }

  /** The luck and bad-luck branch: the drawn effect applied to the lander. */
  function ChanceStep(s: GameState, i: nat, e: Effect, forfeit: nat, now: int): (r: Step)
    requires OnBoard(s) && i < |s.players|
    ensures OnBoard(r.state) && r.state.board == s.board
  {
    var p := s.players[i];
    var s1 := Events.Applied(s, e, p.id, forfeit);
    assert OnBoard(s1) by {
      if e == PropertyDamage && FindPlayer(s.players, p.id).Some? {
        var j := FindPlayer(s.players, p.id).value;
        assert s1 == Events.Forfeited(s, j, forfeit);
      }
    }
    Step(WithEvent(s1, EventTriggered, ChanceMessage(e), now), ChanceOutcome(e))
  }

  /** The tile-specific part of `resolveTileAction` for the player at index i. */
  function TileOutcome(s: GameState, i: nat, a: PendingTileAction, buy: bool, chance: Chance, now: int): (r: Result<Step>)
    requires OnBoard(s) && i < |s.players| && chance.effect < 3
    ensures r.Ok? ==> OnBoard(r.value.state) && r.value.state.board == s.board
  {
    var p := s.players[i];
    if a.tileType == PropertyTile && Truthy(a.propertyId) then
      match FindProperty(s.properties, a.propertyId.value)
      case None => Err(PropertyNotFound)
      case Some(k) => PropertyOutcome(s, i, k, buy, now)
    else if a.tileType == Luck || a.tileType == BadLuck then
      Ok(ChanceStep(s, i, Events.Table(a.tileType)[chance.effect], chance.forfeit, now))
    else if a.tileType == SpecialEvent then
      Ok(Step(WithEvent(s.(players := Events.ShiftCoins(s.players, i, SpecialEventCoins)), EventTriggered, SpecialBonus(p.name), now),
              SpecialEventBonus))
    else
      Ok(Step(WithEvent(s, EventTriggered, NeutralLanding(p.name), now), NeutralTile))
  }

  /** Resolving the pending tile action of the current player: the guards,
      then the tile's own effect, the end check and the turn passing. */
  function AfterResolve(s: GameState, playerId: PlayerId, buy: bool, chance: Chance, now: int): (r: (GameState, Result<ActionMessage>))
    requires OnBoard(s) && chance.effect < 3
    ensures OnBoard(r.0) && r.0.board == s.board
  {
    match FindPlayer(s.players, playerId)
    case None => (s, Err(PlayerNotFound))
    case Some(i) =>
      if s.status != Running then (s, Err(GameNotRunning))
      else if s.currentTurnPlayerId != Some(playerId) then (s, Err(NotYourTurn))
      else if s.pendingTileAction.None? then (s, Err(NoPendingTileAction))
      else if s.pendingTileAction.value.playerId != playerId then (s, Err(PendingBelongsToOther))
      else match TileOutcome(s, i, s.pendingTileAction.value, buy, chance, now)
        case Err(e) => (s, Err(e))
        case Ok(step) =>
          var s2 := AfterElimination(step.state.(pendingTileAction := None));
          (AfterAdvance(s2, TurnChanged, now).(updatedAt := now), Ok(step.message))
  }

  /** The timeout: once the deadline of a running game has passed, a pending
      action is resolved as a decline (or dropped when that fails) and the
      turn passes; otherwise nothing changes. */
  function AfterTimeout(s: GameState, chance: Chance, now: int): (t: GameState)
    requires OnBoard(s) && chance.effect < 3
    ensures OnBoard(t) && t.board == s.board
  {
    if s.status != Running || s.turnDeadline.None? || s.turnDeadline.value == 0 || now <= s.turnDeadline.value then s
    else if s.pendingTileAction.Some? && Truthy(s.currentTurnPlayerId) then
      var (s1, r) := AfterResolve(s, s.pendingTileAction.value.playerId, false, chance, now);
      if r.Ok? then s1
      else AfterAdvance(WithEvent(s1.(pendingTileAction := None), TurnChange, TimeoutDuringAction, now), TimeoutSkip, now).(updatedAt := now)
    else AfterAdvance(WithEvent(s, TurnChange, TimeExpired, now), TimeoutSkip, now).(updatedAt := now)
  }

  /** `buildPendingAction`, which looks the player up itself. */
  function PendingAction(s: GameState, playerId: PlayerId): Result<PendingTileAction>
    requires OnBoard(s)
  {
    match FindPlayer(s.players, playerId)
    case None => Err(PlayerNotFound)
    case Some(i) => PendingFor(s, i)
  }

  /** `rollDice`, with `roll` the die drawn. */
  function AfterRoll(s: GameState, playerId: PlayerId, roll: int, chance: Chance, now: int): (r: (GameState, Result<int>))
    requires OnBoard(s) && chance.effect < 3 && 1 <= roll <= 6
    ensures OnBoard(r.0) && r.0.board == s.board
    ensures r.1.Ok? ==> r.1.value == roll
  {
    var s0 := AfterTimeout(s, chance, now);
    if s0.status != Running then (s0, Err(GameNotRunning))
    else if s0.currentTurnPlayerId != Some(playerId) then (s0, Err(NotYourTurn))
    else if s0.pendingTileAction.Some? then (s0, Err(ResolveTileFirst))
    else if s0.lastProcessedTurnKey == Some(TurnKeyOf(s0)) then (s0, Err(TurnAlreadyProcessed))
    else match FindPlayer(s0.players, playerId)
      case None => (s0, Err(PlayerNotFound))
      case Some(i) =>
        var s1 := AfterMove(s0, i, roll, now);
        var s2 := s1.(lastProcessedTurnKey := Some(TurnKeyOf(s0)), lastRoll := Some(LastRoll(playerId, roll)));
        match PendingAction(s2, playerId)
        case Err(e) => (s2, Err(e))
        case Ok(a) =>
          (WithEvent(s2.(pendingTileAction := Some(a)), RollDiceEvent, Rolled(s2.players[i].name, roll), now).(updatedAt := now),
           Ok(roll))
  }

  /** A purchase at any time (not only on landing): the running game's buyer
      must be the turn holder, standing on the property, which must be
      unowned and affordable. */
  function AfterBuy(s: GameState, playerId: PlayerId, propertyId: PropertyId, now: int): (r: (GameState, Result<()>))
    requires OnBoard(s)
    ensures r.0.board == s.board && r.0.status == s.status && r.0.currentTurnPlayerId == s.currentTurnPlayerId
    ensures r.0.pendingTileAction == s.pendingTileAction && r.0.turnDeadline == s.turnDeadline
  {
    if s.status != Running then (s, Err(GameNotRunning))
    else if s.currentTurnPlayerId != Some(playerId) then (s, Err(NotYourTurn))
    else match FindPlayer(s.players, playerId)
      case None => (s, Err(PlayerNotFound))
      case Some(i) =>
        match FindProperty(s.properties, propertyId)
        case None => (s, Err(PropertyNotFound))
        case Some(k) =>
          var p := s.players[i];
          var pr := s.properties[k];
          if Truthy(pr.ownerId) then (s, Err(PropertyAlreadyOwned))
          else if p.coins < pr.value then (s, Err(InsufficientBalance))
          else if s.board[p.position].propertyId != Some(pr.id) then (s, Err(MustStandOnTile))
          else (WithEvent(Purchase(s, i, k), BuyPropertyEvent, Bought(p.name, pr.name, pr.value), now).(updatedAt := now), Ok(()))
  }

  /** The upgrade price: half the value rounded down, plus 80 per level
      already built. */
  function UpgradeCost(pr: Property): (c: int)
    ensures 2 * (c - pr.level * UpgradePerLevel) <= pr.value < 2 * (c - pr.level * UpgradePerLevel) + 2
    ensures pr.value >= 0 ==> c >= 0
  {
    pr.value / 2 + pr.level * UpgradePerLevel
  }

  /** An upgrade: the owner pays half the value plus 80 per level and the
      property goes up one level. */
  function AfterUpgrade(s: GameState, playerId: PlayerId, propertyId: PropertyId, now: int): (r: (GameState, Result<()>))
    ensures r.0.board == s.board && r.0.status == s.status && r.0.currentTurnPlayerId == s.currentTurnPlayerId
    ensures r.0.pendingTileAction == s.pendingTileAction && r.0.turnDeadline == s.turnDeadline
  {
    match FindPlayer(s.players, playerId)
    case None => (s, Err(PlayerNotFound))
    case Some(i) =>
      match FindProperty(s.properties, propertyId)
      case None => (s, Err(PropertyNotFound))
      case Some(k) =>
        var p := s.players[i];
        var pr := s.properties[k];
        if pr.ownerId != Some(p.id) then (s, Err(NotOwner))
        else if p.coins < UpgradeCost(pr) then (s, Err(InsufficientBalance))
        else
          var s1 := s.(players := Events.ShiftCoins(s.players, i, -UpgradeCost(pr)),
                       properties := s.properties[k := pr.(level := pr.level + 1)]);
          (WithEvent(s1, UpgradePropertyEvent, UpgradedTo(p.name, pr.name, pr.level + 1), now).(updatedAt := now), Ok(()))
  }

  /** The vote map of a new join request: every current player, undecided. */
  function OpenVotes(ps: seq<Player>): (m: map<PlayerId, Option<bool>>)
    ensures m.Keys == PlayerIds(ps)
    ensures forall id :: id in m ==> m[id] == None
  {
    map id | id in PlayerIds(ps) :: None
  }

  function NewPlayer(id: PlayerId, name: string, isHost: bool, now: int): Player
  {
    Player(id, name, StartingCoins, 0, isHost, false, [], now)
  }

  /** `requestJoin`, with `freshId` the id drawn for the player or request. */
  function AfterJoinRequest(s: GameState, rawName: string, freshId: string, now: int): (r: (GameState, Result<JoinOutcome>))
    ensures r.0.board == s.board && r.0.properties == s.properties && r.0.status == s.status
    ensures r.0.currentTurnPlayerId == s.currentTurnPlayerId && r.0.pendingTileAction == s.pendingTileAction
  {
    var name := Trim(rawName);
    if |name| < MinNameLength || |name| > MaxNameLength then (s, Err(InvalidName))
    else if s.status == Waiting then
      var s1 := s.(players := s.players + [NewPlayer(freshId, name, |s.players| == 0, now)]);
      (WithEvent(s1, RequestJoinEvent, JoinedLobby(name), now).(updatedAt := now), Ok(JoinedAs(freshId)))
    else if s.status == Running then
      if s.pendingJoinRequest.Some? then (s, Err(JoinVoteInProgress))
      else
        var s1 := s.(pendingJoinRequest := Some(JoinRequest(freshId, name, now, OpenVotes(s.players))));
        (WithEvent(s1, RequestJoinEvent, JoinRequested(name), now).(updatedAt := now), Ok(VoteRequested(freshId)))
    else (s, Err(GameAlreadyFinished))
  }

  /** `voteJoin`, with `freshId` the id drawn for an admitted player. */
  function AfterVote(s: GameState, voterId: PlayerId, approve: bool, freshId: PlayerId, now: int): (r: (GameState, Result<VoteOutcome>))
    ensures r.0.board == s.board && r.0.properties == s.properties && r.0.status == s.status
    ensures r.0.currentTurnPlayerId == s.currentTurnPlayerId && r.0.pendingTileAction == s.pendingTileAction
  {
    if s.pendingJoinRequest.None? then (s, Err(NoPendingJoinRequest))
    else if FindPlayer(s.players, voterId).None? then (s, Err(PlayerNotFound))
    else if voterId !in s.pendingJoinRequest.value.votes then (s, Err(CannotVote))
    else
      var req := s.pendingJoinRequest.value;
      var votes := req.votes[voterId := Some(approve)];
      if exists id :: id in votes && votes[id] == Some(false) then
        (WithEvent(s, VoteJoinEvent, JoinRejected(req.name), now).(pendingJoinRequest := None, updatedAt := now), Ok(Rejected))
      else if forall id :: id in votes ==> votes[id] == Some(true) then
        var s1 := s.(players := s.players + [NewPlayer(freshId, req.name, false, now)]);
        (WithEvent(s1, VoteJoinEvent, JoinApproved(req.name), now).(pendingJoinRequest := None, updatedAt := now), Ok(Admitted(freshId)))
      else
        (s.(pendingJoinRequest := Some(req.(votes := votes)), updatedAt := now), Ok(Undecided))
  }

  /** `order` lists every index below n exactly once. */
  predicate IsPermutation(order: seq<nat>, n: nat)
  {
    |order| == n &&
    (forall j :: 0 <= j < n ==> order[j] < n) &&
    (forall a, b :: 0 <= a < b < n ==> order[a] != order[b]) &&
    (forall x :: 0 <= x < n ==> x in order)
  }

  function Permuted(ps: seq<Player>, order: seq<nat>): (r: seq<Player>)
    requires IsPermutation(order, |ps|)
  {
    seq(|order|, j requires 0 <= j < |order| => ps[order[j]])
  }

  /** `startGame`, with `order` the shuffle the random comparator produced. */
  function AfterStart(s: GameState, hostId: PlayerId, order: seq<nat>, now: int): (r: (GameState, Result<()>))
    requires IsPermutation(order, |s.players|)
    ensures r.0.board == s.board && r.0.properties == s.properties && r.0.round == s.round
  {
    match FindPlayer(s.players, hostId)
    case None => (s, Err(PlayerNotFound))
    case Some(h) =>
      if !s.players[h].isHost then (s, Err(NotHost))
      else if s.status != Waiting then (s, Err(GameAlreadyStarted))
      else if |s.players| < 2 then (s, Err(NotEnoughPlayers))
      else
        var ps := Permuted(s.players, order);
        var s1 := s.(players := ps, currentTurnPlayerId := Some(ps[0].id), status := Running,
                     turnDeadline := Some(now + TurnMillis), pendingTileAction := None);
        (WithEvent(s1, StartGameEvent, GameStarted, now).(updatedAt := now), Ok(()))
  }

  // ---------------------------------------------------------------- the operations, as the source runs them

  /** Lookups by id see only the ids. */
  lemma FindPlayerSameIds(a: seq<Player>, b: seq<Player>, id: PlayerId)
    requires |a| == |b| && forall j :: 0 <= j < |a| ==> a[j].id == b[j].id
    ensures FindPlayer(a, id) == FindPlayer(b, id)
  {
  }

  method EliminateBankruptPlayers(store: Store)
    modifies store
    ensures store.state == AfterElimination(old(store.state))
  {
    var j := 0;
    while j < |store.state.players|
      invariant 0 <= j <= |store.state.players| == |old(store.state).players|
      invariant store.state == old(store.state).(players := store.state.players)
      invariant forall m :: 0 <= m < j ==> store.state.players[m] == Flagged(old(store.state).players)[m]
      invariant forall m :: j <= m < |store.state.players| ==> store.state.players[m] == old(store.state).players[m]
    {
      var p := store.state.players[j];
      store.state := store.state.(players := store.state.players[j := p.(isBankrupt := p.coins <= 0)]);
      j := j + 1;
    }
  }

  /** The scan for the first position of the largest value. */
  method FirstMaxIndex(ws: seq<int>) returns (k: nat)
    requires |ws| > 0
    ensures k == FirstMax(ws)
  {
    k := 0;
    var j := 1;
    while j < |ws|
      invariant 1 <= j <= |ws|
      invariant k == FirstMax(ws[..j])
    {
      var prefix := ws[..j + 1];
      assert prefix[..j] == ws[..j];
      assert prefix[j] == ws[j] && prefix[k] == ws[k];
      if ws[j] > ws[k] {
        k := j;
      }
      j := j + 1;
    }
    assert ws[..|ws|] == ws;
  }

  /** The ranking of `maybeFinishGame`: the first player of highest net worth. */
  method RankLeader(s: GameState) returns (w: Option<PlayerId>)
    ensures w == WinnerOf(s)
  {
    if |s.players| == 0 {
      return None;
    }
    var k := FirstMaxIndex(Worths(s));
    w := Some(s.players[k].id);
  }

  method MaybeFinishGame(store: Store, now: int)
    modifies store
    ensures store.state == AfterFinishCheck(old(store.state), now)
  {
    var positive := CountPositive(store.state.players);
    if store.state.round > MaxRounds || positive <= 1 {
      var winner := RankLeader(store.state);
      store.state := store.state.(status := Finished, turnDeadline := None, currentTurnPlayerId := None,
                                  pendingTileAction := None, winnerId := winner);
      store.AddEvent(GameOver, GameEnded, now);
    }
  }

  /** One step of the scan past a bankrupt seat. */
  lemma ScanPast(ps: seq<Player>, ci: nat, t: nat)
    requires ci < |ps| && 1 <= t < |ps| && ps[(ci + t) % |ps|].isBankrupt
    ensures ScanFrom(ps, ci, t) == ScanFrom(ps, ci, t + 1)
  {
  }

  /** The scan stopping at a seat that is not bankrupt. */
  lemma ScanStop(ps: seq<Player>, ci: nat, t: nat)
    requires ci < |ps| && 1 <= t < |ps| && !ps[(ci + t) % |ps|].isBankrupt
    ensures ScanFrom(ps, ci, t) == (ci + t) % |ps|
  {
  }

  /** One more step of the circular scan, and when it is back at ci. */
  lemma StepWrap(ci: nat, t: nat, n: nat)
    requires ci < n && 1 <= t <= n
    ensures ((ci + t) % n + 1) % n == (ci + t + 1) % n
    ensures (ci + t + 1) % n == ci <==> t + 1 == n || n == 1
  {
    Wrap(ci + t, n);
    Wrap((ci + t) % n + 1, n);
    Wrap(ci + t + 1, n);
  }

  /** The `while` of `advanceTurn`: from seat ci, the next seat whose player
      is not bankrupt, stopping after a full circle. */
  method ScanNextIndex(ps: seq<Player>, ci: nat) returns (next: nat)
    requires ci < |ps|
    ensures next == NextTurnIndex(ps, ci)
  {
    var n := |ps|;
    Wrap(ci + 1, n);
    next := (ci + 1) % n;
    ghost var t := 1;
    while ps[next].isBankrupt
      invariant 1 <= t <= n && (t < n || n == 1)
      invariant next == (ci + t) % n
      invariant t < n ==> ScanFrom(ps, ci, t) == NextTurnIndex(ps, ci)
      invariant t == n ==> NextTurnIndex(ps, ci) == ci && next == ci
      decreases n - t
    {
      if t < n {
        ScanPast(ps, ci, t);
      }
      StepWrap(ci, t, n);
      next := (next + 1) % n;
      t := t + 1;
      if next == ci {
        break;
      }
    }
    if t < n {
      ScanStop(ps, ci, t);
    }
  }

  method AdvanceTurn(store: Store, reason: TurnReason, now: int)
    modifies store
    ensures store.state == AfterAdvance(old(store.state), reason, now)
  {
    var current := store.state.currentTurnPlayerId;
    if !Truthy(current) {
      return;
    }
    var found := FindPlayer(store.state.players, current.value);
    if found.None? {
      return;
    }
    var currentIndex := found.value;
    if CountAlive(store.state.players) <= 1 {
      MaybeFinishGame(store, now);
      return;
    }
    var nextIndex := ScanNextIndex(store.state.players, currentIndex);
    ghost var s0 := store.state;
    ghost var s1 := s0.(round := if nextIndex <= currentIndex then s0.round + 1 else s0.round,
                        currentTurnPlayerId := Some(s0.players[nextIndex].id),
                        turnDeadline := Some(now + TurnMillis),
                        lastProcessedTurnKey := None, lastRoll := None, pendingTileAction := None);
    if nextIndex <= currentIndex {
      store.state := store.state.(round := store.state.round + 1);
    }
    store.state := store.state.(currentTurnPlayerId := Some(store.state.players[nextIndex].id));
    store.state := store.state.(turnDeadline := Some(now + TurnMillis));
    store.state := store.state.(lastProcessedTurnKey := None, lastRoll := None, pendingTileAction := None);
    assert store.state == s1;
    store.AddEvent(TurnChange, TurnNote(reason), now);
    assert PassedTurn(s0, currentIndex, reason, now) == WithEvent(s1, TurnChange, TurnNote(reason), now);
    MaybeFinishGame(store, now);
  }

  /** `movePlayer`; the result is the tile landed on. */
  method MovePlayer(store: Store, playerId: PlayerId, steps: int, now: int) returns (r: Result<Tile>)
    requires OnBoard(store.state) && 0 <= steps
    modifies store
    ensures FindPlayer(old(store.state).players, playerId).None? ==>
      store.state == old(store.state) && r == Err(PlayerNotFound)
    ensures FindPlayer(old(store.state).players, playerId).Some? ==>
      var i := FindPlayer(old(store.state).players, playerId).value;
      store.state == AfterMove(old(store.state), i, steps, now) &&
      r == Ok(store.state.board[store.state.players[i].position])
  {
    var found := FindPlayer(store.state.players, playerId);
    if found.None? {
      return Err(PlayerNotFound);
    }
    var i := found.value;
    var player := store.state.players[i];
    var before := player.position;
    var after := (player.position + steps) % |store.state.board|;
    if before + steps >= |store.state.board| {
      store.state := store.state.(players := Events.ShiftCoins(store.state.players, i, LapBonus));
      store.AddEvent(EventTriggered, LapCompleted(player.name), now);
    }
    store.state := store.state.(players := store.state.players[i := store.state.players[i].(position := after)]);
    r := Ok(store.state.board[after]);
  }

  /** Player i pays for property k and becomes its owner. */
  method TransferProperty(store: Store, i: nat, k: nat)
    requires i < |store.state.players| && k < |store.state.properties|
    modifies store
    ensures store.state == Purchase(old(store.state), i, k)
  {
    var player := store.state.players[i];
    var property := store.state.properties[k];
    player := player.(coins := player.coins - property.value);
    player := player.(properties := player.properties + [property.id]);
    store.state := store.state.(players := store.state.players[i := player]);
    store.state := store.state.(properties := store.state.properties[k := property.(ownerId := Some(player.id))]);
  }

  /** The visitor at seat i pays `rent`; the owner, if still seated, gets it. */
  method ChargeRent(store: Store, i: nat, ownerId: PlayerId, rent: int)
    requires i < |store.state.players|
    modifies store
    ensures store.state == RentCharged(old(store.state), i, ownerId, rent)
  {
    store.state := store.state.(players := Events.ShiftCoins(store.state.players, i, -rent));
    var owner := FindPlayer(store.state.players, ownerId);
    if owner.Some? {
      store.state := store.state.(players := Events.ShiftCoins(store.state.players, owner.value, rent));
    }
  }

  /** The property branch of `resolveTileAction`. */
  method ResolvePropertyTile(store: Store, i: nat, k: nat, buy: bool, now: int) returns (r: Result<ActionMessage>)
    requires OnBoard(store.state) && i < |store.state.players| && k < |store.state.properties|
    modifies store
    ensures var out := PropertyOutcome(old(store.state), i, k, buy, now);
      (out.Err? ==> store.state == old(store.state) && r == Err(out.error)) &&
      (out.Ok? ==> store.state == out.value.state && r == Ok(out.value.message))
  {
    var player := store.state.players[i];
    var property := store.state.properties[k];
    if !Truthy(property.ownerId) && buy {
      if player.coins < property.value {
        return Err(InsufficientBalanceToBuy);
      }
      TransferProperty(store, i, k);
      store.AddEvent(BuyPropertyEvent, Bought(player.name, property.name, property.value), now);
      r := Ok(Purchased(property.name, property.value));
    } else if !Truthy(property.ownerId) {
      store.AddEvent(EventTriggered, SkippedBuying(player.name, property.name), now);
      r := Ok(DeclinedPurchase(property.name));
    } else if property.ownerId.value != player.id {
      var rent := property.rent + property.level * RentPerLevel;
      ChargeRent(store, i, property.ownerId.value, rent);
      store.AddEvent(EventTriggered, PaidRent(player.name, rent, property.name), now);
      r := Ok(RentPaid(rent, property.name));
    } else {
      store.AddEvent(EventTriggered, LandedOnOwn(player.name, property.name), now);
      r := Ok(OwnProperty(property.name));
    }
  }

  /** The tile-specific branch of `resolveTileAction`. */
  method ApplyTileAction(store: Store, i: nat, a: PendingTileAction, buy: bool, chance: Chance, now: int)
    returns (r: Result<ActionMessage>)
    requires OnBoard(store.state) && i < |store.state.players| && chance.effect < 3
    modifies store
    ensures var out := TileOutcome(old(store.state), i, a, buy, chance, now);
      (out.Err? ==> store.state == old(store.state) && r == Err(out.error)) &&
      (out.Ok? ==> store.state == out.value.state && r == Ok(out.value.message))
  {
    var player := store.state.players[i];
    if a.tileType == PropertyTile && Truthy(a.propertyId) {
      var fk := FindProperty(store.state.properties, a.propertyId.value);
      if fk.None? {
        return Err(PropertyNotFound);
      }
      r := ResolvePropertyTile(store, i, fk.value, buy, now);
    } else if a.tileType == Luck || a.tileType == BadLuck {
      var e := Events.TriggerRandomEvent(store, a.tileType, player.id, chance);
      store.AddEvent(EventTriggered, ChanceMessage(e), now);
      r := Ok(ChanceOutcome(e));
    } else if a.tileType == SpecialEvent {
      store.state := store.state.(players := Events.ShiftCoins(store.state.players, i, SpecialEventCoins));
      store.AddEvent(EventTriggered, SpecialBonus(player.name), now);
      r := Ok(SpecialEventBonus);
    } else {
      store.AddEvent(EventTriggered, NeutralLanding(player.name), now);
      r := Ok(NeutralTile);
    }
  }

  method ResolveTileAction(store: Store, playerId: PlayerId, buy: bool, chance: Chance, now: int)
    returns (r: Result<ActionMessage>)
    requires OnBoard(store.state) && chance.effect < 3
    modifies store
    ensures (store.state, r) == AfterResolve(old(store.state), playerId, buy, chance, now)
  {
    var found := FindPlayer(store.state.players, playerId);
    if found.None? {
      return Err(PlayerNotFound);
    }
    if store.state.status != Running {
      return Err(GameNotRunning);
    }
    if store.state.currentTurnPlayerId != Some(playerId) {
      return Err(NotYourTurn);
    }
    if store.state.pendingTileAction.None? {
      return Err(NoPendingTileAction);
    }
    var pending := store.state.pendingTileAction.value;
    if pending.playerId != playerId {
      return Err(PendingBelongsToOther);
    }
    var message := ApplyTileAction(store, found.value, pending, buy, chance, now);
    if message.Err? {
      return Err(message.error);
    }
    store.state := store.state.(pendingTileAction := None);
    EliminateBankruptPlayers(store);
    AdvanceTurn(store, TurnChanged, now);
    store.MarkUpdated(now);
    r := Ok(message.value);
  }

  method ProcessTimeoutIfNeeded(store: Store, chance: Chance, now: int)
    requires OnBoard(store.state) && chance.effect < 3
    modifies store
    ensures store.state == AfterTimeout(old(store.state), chance, now)
  {
    var s := store.state;
    if s.status != Running || s.turnDeadline.None? || s.turnDeadline.value == 0 || now <= s.turnDeadline.value {
      return;
    }
    if s.pendingTileAction.Some? && Truthy(s.currentTurnPlayerId) {
      var pendingPlayerId := s.pendingTileAction.value.playerId;
      var outcome := ResolveTileAction(store, pendingPlayerId, false, chance, now);
      if outcome.Err? {
        store.state := store.state.(pendingTileAction := None);
        store.AddEvent(TurnChange, TimeoutDuringAction, now);
        AdvanceTurn(store, TimeoutSkip, now);
        store.MarkUpdated(now);
      }
      return;
    }
    store.AddEvent(TurnChange, TimeExpired, now);
    AdvanceTurn(store, TimeoutSkip, now);
    store.MarkUpdated(now);
  }

  method RollDice(store: Store, playerId: PlayerId, roll: int, chance: Chance, now: int) returns (r: Result<int>)
    requires OnBoard(store.state) && chance.effect < 3 && 1 <= roll <= 6
    modifies store
    ensures (store.state, r) == AfterRoll(old(store.state), playerId, roll, chance, now)
  {
    ProcessTimeoutIfNeeded(store, chance, now);
    if store.state.status != Running {
      return Err(GameNotRunning);
    }
    if store.state.currentTurnPlayerId != Some(playerId) {
      return Err(NotYourTurn);
    }
    if store.state.pendingTileAction.Some? {
      return Err(ResolveTileFirst);
    }
    var key := TurnKeyOf(store.state);
    if store.state.lastProcessedTurnKey == Some(key) {
      return Err(TurnAlreadyProcessed);
    }
    ghost var s0 := store.state;
    var moved := MovePlayer(store, playerId, roll, now);
    if moved.Err? {
      return Err(moved.error);
    }
    store.state := store.state.(lastProcessedTurnKey := Some(key));
    store.state := store.state.(lastRoll := Some(LastRoll(playerId, roll)));
    var pending := PendingAction(store.state, playerId);
    if pending.Err? {
      return Err(pending.error);
    }
    store.state := store.state.(pendingTileAction := Some(pending.value));
    FindPlayerSameIds(s0.players, store.state.players, playerId);
    var roller := FindPlayer(store.state.players, playerId);
    store.AddEvent(RollDiceEvent, Rolled(store.state.players[roller.value].name, roll), now);
    store.MarkUpdated(now);
    r := Ok(roll);
  }

  method BuyProperty(store: Store, playerId: PlayerId, propertyId: PropertyId, now: int) returns (r: Result<()>)
    requires OnBoard(store.state)
    modifies store
    ensures (store.state, r) == AfterBuy(old(store.state), playerId, propertyId, now)
  {
    if store.state.status != Running {
      return Err(GameNotRunning);
    }
    if store.state.currentTurnPlayerId != Some(playerId) {
      return Err(NotYourTurn);
    }
    var found := FindPlayer(store.state.players, playerId);
    if found.None? {
      return Err(PlayerNotFound);
    }
    var i := found.value;
    var fk := FindProperty(store.state.properties, propertyId);
    if fk.None? {
      return Err(PropertyNotFound);
    }
    var k := fk.value;
    var player := store.state.players[i];
    var property := store.state.properties[k];
    if Truthy(property.ownerId) {
      return Err(PropertyAlreadyOwned);
    }
    if player.coins < property.value {
      return Err(InsufficientBalance);
    }
    if store.state.board[player.position].propertyId != Some(property.id) {
      return Err(MustStandOnTile);
    }
    TransferProperty(store, i, k);
    store.AddEvent(BuyPropertyEvent, Bought(player.name, property.name, property.value), now);
    store.MarkUpdated(now);
    r := Ok(());
  }

  method UpgradeProperty(store: Store, playerId: PlayerId, propertyId: PropertyId, now: int) returns (r: Result<()>)
    modifies store
    ensures (store.state, r) == AfterUpgrade(old(store.state), playerId, propertyId, now)
  {
    var found := FindPlayer(store.state.players, playerId);
    if found.None? {
      return Err(PlayerNotFound);
    }
    var i := found.value;
    var fk := FindProperty(store.state.properties, propertyId);
    if fk.None? {
      return Err(PropertyNotFound);
    }
    var k := fk.value;
    var player := store.state.players[i];
    var property := store.state.properties[k];
    if property.ownerId != Some(player.id) {
      return Err(NotOwner);
    }
    var cost := property.value / 2 + property.level * UpgradePerLevel;
    if player.coins < cost {
      return Err(InsufficientBalance);
    }
    store.state := store.state.(players := store.state.players[i := player.(coins := player.coins - cost)]);
    store.state := store.state.(properties := store.state.properties[k := property.(level := property.level + 1)]);
    store.AddEvent(UpgradePropertyEvent, UpgradedTo(player.name, property.name, property.level + 1), now);
    store.MarkUpdated(now);
    r := Ok(());
  }

  method RequestJoin(store: Store, rawName: string, freshId: string, now: int) returns (r: Result<JoinOutcome>)
    modifies store
    ensures (store.state, r) == AfterJoinRequest(old(store.state), rawName, freshId, now)
  {
    var name := Trim(rawName);
    if |name| < MinNameLength || |name| > MaxNameLength {
      return Err(InvalidName);
    }
    if store.state.status == Waiting {
      var player := NewPlayer(freshId, name, |store.state.players| == 0, now);
      store.state := store.state.(players := store.state.players + [player]);
      store.AddEvent(RequestJoinEvent, JoinedLobby(name), now);
      store.MarkUpdated(now);
      return Ok(JoinedAs(freshId));
    }
    if store.state.status == Running {
      if store.state.pendingJoinRequest.Some? {
        return Err(JoinVoteInProgress);
      }
      store.state := store.state.(pendingJoinRequest := Some(JoinRequest(freshId, name, now, OpenVotes(store.state.players))));
      store.AddEvent(RequestJoinEvent, JoinRequested(name), now);
      store.MarkUpdated(now);
      return Ok(VoteRequested(freshId));
    }
    return Err(GameAlreadyFinished);
  }

  method VoteJoin(store: Store, voterId: PlayerId, approve: bool, freshId: PlayerId, now: int) returns (r: Result<VoteOutcome>)
    modifies store
    ensures (store.state, r) == AfterVote(old(store.state), voterId, approve, freshId, now)
  {
    if store.state.pendingJoinRequest.None? {
      return Err(NoPendingJoinRequest);
    }
    var found := FindPlayer(store.state.players, voterId);
    if found.None? {
      return Err(PlayerNotFound);
    }
    var request := store.state.pendingJoinRequest.value;
    if voterId !in request.votes {
      return Err(CannotVote);
    }
    request := request.(votes := request.votes[voterId := Some(approve)]);
    store.state := store.state.(pendingJoinRequest := Some(request));
    if exists id | id in request.votes :: request.votes[id] == Some(false) {
      store.AddEvent(VoteJoinEvent, JoinRejected(request.name), now);
      store.state := store.state.(pendingJoinRequest := None);
      store.MarkUpdated(now);
      return Ok(Rejected);
    }
    if forall id | id in request.votes :: request.votes[id] == Some(true) {
      store.state := store.state.(players := store.state.players + [NewPlayer(freshId, request.name, false, now)]);
      store.AddEvent(VoteJoinEvent, JoinApproved(request.name), now);
      store.state := store.state.(pendingJoinRequest := None);
      store.MarkUpdated(now);
      return Ok(Admitted(freshId));
    }
    store.MarkUpdated(now);
    r := Ok(Undecided);
  }

  method StartGame(store: Store, hostId: PlayerId, order: seq<nat>, now: int) returns (r: Result<()>)
    requires IsPermutation(order, |store.state.players|)
    modifies store
    ensures (store.state, r) == AfterStart(old(store.state), hostId, order, now)
  {
    var found := FindPlayer(store.state.players, hostId);
    if found.None? {
      return Err(PlayerNotFound);
    }
    if !store.state.players[found.value].isHost {
      return Err(NotHost);
    }
    if store.state.status != Waiting {
      return Err(GameAlreadyStarted);
    }
    if |store.state.players| < 2 {
      return Err(NotEnoughPlayers);
    }
    store.state := store.state.(players := Permuted(store.state.players, order));
    store.state := store.state.(currentTurnPlayerId := Some(store.state.players[0].id));
    store.state := store.state.(status := Running);
    store.state := store.state.(turnDeadline := Some(now + TurnMillis));
    store.state := store.state.(pendingTileAction := None);
    store.AddEvent(StartGameEvent, GameStarted, now);
    store.MarkUpdated(now);
    r := Ok(());
  }
}
