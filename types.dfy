/** Shapes of the session record and of its entities (types.ts), plus the
    error and message tags the engine produces. */
module Types {

  datatype Option<+T> = None | Some(value: T)

  /** Identifiers are strings, as in the source. */
  type PlayerId = string
  type PropertyId = string

  datatype Status = Waiting | Running | Finished

  datatype TileType = PropertyTile | Luck | BadLuck | SpecialEvent | Neutral

  datatype Property = Property(
    id: PropertyId,
    name: string,
    country: string,
    value: int,
    rent: int,
    ownerId: Option<PlayerId>,
    level: nat)

  datatype Tile = Tile(
    id: string,
    index: nat,
    kind: TileType,
    propertyId: Option<PropertyId>,
    caption: string)  // the `label` field (a reserved word in Dafny)

  datatype Player = Player(
    id: PlayerId,
    name: string,
    coins: int,
    position: int,
    isHost: bool,
    isBankrupt: bool,
    properties: seq<PropertyId>,
    joinedAt: int)

  /** A pending mid-game join; each vote is undecided (None), approve or reject. */
  datatype JoinRequest = JoinRequest(
    id: string,
    name: string,
    createdAt: int,
    votes: map<PlayerId, Option<bool>>)

  /** The decision waiting on the tile the current player landed on. The
      property fields are present only for a property tile. */
  datatype PendingTileAction = PendingTileAction(
    playerId: PlayerId,
    tileIndex: nat,
    tileType: TileType,
    propertyId: Option<PropertyId>,
    propertyValue: Option<int>,
    canBuy: Option<bool>)

  datatype LastRoll = LastRoll(playerId: PlayerId, value: int)

  /** The key naming one turn: the round and the turn holder, kept as the
      two parts the source joins with a dash. */
  datatype TurnKey = TurnKey(round: int, player: Option<PlayerId>)

  /** The `type` strings of the event log. */
  datatype EventKind =
    | RequestJoinEvent | VoteJoinEvent | StartGameEvent | RollDiceEvent
    | BuyPropertyEvent | UpgradePropertyEvent | EventTriggered | TurnChange | GameOver

  /** The entries of the two chance tables; each stands for its message. */
  datatype Effect = LuckyInvestment | Tailwind | TourismBoom | Taxes | PropertyDamage | GlobalCrisis

  /** The reason recorded with a turn change. */
  datatype TurnReason = TurnChanged | TimeoutSkip

  /** The message of a log entry: which template and with which values. */
  datatype Note =
    | JoinedLobby(name: string)
    | JoinRequested(name: string)
    | JoinRejected(name: string)
    | JoinApproved(name: string)
    | GameStarted
    | Rolled(name: string, roll: int)
    | LapCompleted(name: string)
    | Bought(name: string, propertyName: string, value: int)
    | SkippedBuying(name: string, propertyName: string)
    | PaidRent(name: string, rent: int, propertyName: string)
    | LandedOnOwn(name: string, propertyName: string)
    | ChanceMessage(effect: Effect)
    | SpecialBonus(name: string)
    | NeutralLanding(name: string)
    | UpgradedTo(name: string, propertyName: string, level: nat)
    | TurnNote(reason: TurnReason)
    | TimeoutDuringAction
    | TimeExpired
    | GameEnded

  datatype GameEvent = GameEvent(kind: EventKind, note: Note, createdAt: int)

  datatype GameState = GameState(
    status: Status,
    players: seq<Player>,
    board: seq<Tile>,
    properties: seq<Property>,
    currentTurnPlayerId: Option<PlayerId>,
    round: int,
    pendingJoinRequest: Option<JoinRequest>,
    pendingTileAction: Option<PendingTileAction>,
    turnDeadline: Option<int>,
    lastProcessedTurnKey: Option<TurnKey>,
    lastRoll: Option<LastRoll>,
    events: seq<GameEvent>,
    winnerId: Option<PlayerId>,
    updatedAt: int)

  /** One constructor per error the engine raises. */
  datatype Error =
    | InvalidName
    | PlayerNotFound
    | InvalidPropertyTile
    | JoinVoteInProgress
    | GameAlreadyFinished
    | NoPendingJoinRequest
    | CannotVote
    | NotHost
    | GameAlreadyStarted
    | NotEnoughPlayers
    | GameNotRunning
    | NotYourTurn
    | ResolveTileFirst
    | TurnAlreadyProcessed
    | NoPendingTileAction
    | PendingBelongsToOther
    | PropertyNotFound
    | InsufficientBalanceToBuy
    | PropertyAlreadyOwned
    | InsufficientBalance
    | MustStandOnTile
    | NotOwner

  datatype Result<+T> = Ok(value: T) | Err(error: Error)

  /** The `actionMessage` returned by a resolved tile. */
  datatype ActionMessage =
    | Purchased(propertyName: string, value: int)
    | DeclinedPurchase(propertyName: string)
    | RentPaid(rent: int, propertyName: string)
    | OwnProperty(propertyName: string)
    | ChanceOutcome(effect: Effect)
    | SpecialEventBonus
    | NeutralTile

  datatype JoinOutcome = JoinedAs(playerId: PlayerId) | VoteRequested(requestId: string)

  /** The answer to a vote: rejected, admitted under a new player id, or
      still waiting on other votes. */
  datatype VoteOutcome = Rejected | Admitted(playerId: PlayerId) | Undecided

  /** The random draws a tile resolution may consume: which table entry
      (crypto.randomInt(0, 3)) and, for a forfeiture, the raw draw whose
      remainder by the count of owned properties picks the index. */
  datatype Chance = Chance(effect: nat, forfeit: nat)

  function Min(a: int, b: int): int { if a <= b then a else b }

  /** The seat of the first player whose id is `id`, or None when no player
      has it. */
  function FindPlayer(ps: seq<Player>, id: PlayerId): (r: Option<nat>)
    ensures r.Some? ==> r.value < |ps| && ps[r.value].id == id
    ensures r.Some? ==> forall j :: 0 <= j < r.value ==> ps[j].id != id
    ensures r.None? <==> forall j :: 0 <= j < |ps| ==> ps[j].id != id
  {
    if |ps| == 0 then None
    else if ps[0].id == id then Some(0)
    else match FindPlayer(ps[1..], id)
      case None => None
      case Some(j) => Some(j + 1)
  }

  /** The index of the first property whose id is `id`, or None when no
      property has it. */
  function FindProperty(props: seq<Property>, id: PropertyId): (r: Option<nat>)
    ensures r.Some? ==> r.value < |props| && props[r.value].id == id
    ensures r.Some? ==> forall j :: 0 <= j < r.value ==> props[j].id != id
    ensures r.None? <==> forall j :: 0 <= j < |props| ==> props[j].id != id
  {
    if |props| == 0 then None
    else if props[0].id == id then Some(0)
    else match FindProperty(props[1..], id)
      case None => None
      case Some(j) => Some(j + 1)
  }
}
