# TabGame server engine in Dafny

TabGame is a multiplayer landmark-tycoon board game. One Node process holds a
single in-memory session record. Players join a lobby. The host starts the
game, and the players then take turns. On a turn a player rolls one die and
moves round a 40-tile board. They then resolve the tile they land on:

- buy the landmark property, decline it, or pay rent on it;
- draw a luck or bad-luck effect;
- take a special-event bonus;
- or nothing happens.

A turn not finished within 30 seconds is skipped. A player may join a
running game only after all seated players vote to let them in. The game ends
after round 15, or when at most one player still has coins. The winner is the
first player, in seat order, with the largest net worth.

This project models that engine:

- **Types** (types.dfy): the record and its entities, the error cases, and the
  `find` lookups.
- **BoardGenerator** (board_generator.dfy): the fixed board and its 14
  properties.
- **SessionStore** (game_state.dfy): the session record as the `Store` class.
  It holds its initial value, the event log of at most 30 entries with the
  newest first, net worth, and the public snapshot.
- **Events** (events.dfy): the luck and bad-luck tables and their effects,
  as methods on the store.
- **GameEngine** (game_engine.dfy): every engine operation, as a method on the
  store. Beside each method is a pure function `After…` that gives the record
  and the result the operation produces. Each method is proved to produce
  exactly that.
- **EngineProperties** and **LobbyProperties** (engine_properties.dfy,
  lobby_properties.dfy): what the operations promise, proved about the
  `After…` functions.
- **SessionInvariant** (session_invariant.dfy): an invariant of the record and
  its preservation by every operation. It has five parts:
  - the *board shape*: 40 tiles, tile i having index i, every player on one
    of them. No operation changes the board, and the initial record holds
    the generated one, so this holds from the start;
  - the *ownership ledger*: ids are unique and non-empty, deed lists have no
    repeats, players' deed lists and properties' owners agree, and values
    are not negative;
  - the *turn shape*: the turn fields fit the status;
  - the *standing*: a player flagged bankrupt has no coins left, and nobody
    is flagged in the lobby;
  - the *live holder*: in a running game the player holding the turn is
    seated and not bankrupt. The middle of a resolve, after the flags are
    recomputed and before the turn passes, keeps every part but this one.
- **BoardView** (game_client.dfy): the client's `indexToCoord` perimeter walk
  and `tileTone`.

Some inputs come from outside the engine, so they are parameters:

- the die (`roll`, 1 to 6);
- which table entry an effect tile draws (`chance.effect`, below 3);
- the raw forfeiture draw (`chance.forfeit`);
- the seat order the start shuffle produced (`order`, a permutation);
- the clock (`now`);
- the fresh ids (`freshId`).

A thrown `Error` becomes an `Err` result, and the record is left as it was
when the throw happened.

## Model

| member | source | states |
|---|---|---|
| Types.FindPlayer | lib/server/gameEngine.ts:13-17 | the index found holds the id and no earlier seat does; None exactly when no seat holds the id |
| Types.FindProperty | lib/server/gameEngine.ts:362-363 | the index found holds the id and is the first to; None exactly when no property has the id |
| BoardGenerator.Decimal | lib/server/boardGenerator.ts:23 | the decimal text of a number used in the ids is never empty |
| BoardGenerator.DecimalRoundTrip | lib/server/boardGenerator.ts:23 | reading the decimal text back gives the number |
| BoardGenerator.PropertyIdInjective | lib/server/boardGenerator.ts:21-26 | `property-${idx + 1}` names distinct indexes differently |
| BoardGenerator.DecimalInjective | lib/server/boardGenerator.ts:23 | two numbers with the same decimal text are equal |
| BoardGenerator.IndexOf | lib/server/boardGenerator.ts:35 | `indexOf` gives the first position holding x, or -1 exactly when x is absent |
| BoardGenerator.GeneratedPropertiesShape | lib/server/boardGenerator.ts:3-26 | 14 properties; property k has landmark k's name, country, value and rent, id `property-(k+1)`, no owner and level 0 |
| BoardGenerator.GeneratedPropertyIdsDistinct | lib/server/boardGenerator.ts:21-26 | no two generated properties share an id |
| BoardGenerator.BoardShape | lib/server/boardGenerator.ts:33-59 | 40 tiles; tile i has index i and id `tile-i` |
| BoardGenerator.IndexSetsDisjoint | lib/server/boardGenerator.ts:28-31 | the property, luck, bad-luck and special index lists share no index |
| BoardGenerator.TileKinds | lib/server/boardGenerator.ts:33-59 | a tile's type is property, luck, bad luck, special or neutral exactly when its index is in the matching list or in none; neutral tiles are labelled Start at 0 and Neutral elsewhere; only property tiles link a property |
| BoardGenerator.PropertyTileOf | lib/server/boardGenerator.ts:34-43 | the k-th property index carries a property tile linked to property k |
| BoardGenerator.OnlyTileLinked | lib/server/boardGenerator.ts:34-43 | no other tile links property k |
| BoardGenerator.BoardLinksResolve | lib/server/boardGenerator.ts:35-36 | every tile link names a generated property |
| BoardGenerator.TileLink | lib/server/boardGenerator.ts:34-43 | a property index carries a property tile linked to the property id of its position in the index list |
| BoardGenerator.GeneratedValuesNonNegative | lib/server/boardGenerator.ts:3-26 | no generated property has a negative value |
| SessionStore.InitialState | lib/server/gameState.ts:4-21 | the record starts waiting, with no players, round 1, nothing pending, no events, no winner, stamped now, holding the generated board and properties: 40 tiles and 14 unowned level-0 properties |
| SessionStore.WithEvent | lib/server/gameState.ts:27-35 | logging changes only the log: the new event comes first, followed by at most 29 of the newest older events |
| SessionStore.PushEvent | lib/server/gameState.ts:27-35 | the new event comes first, followed by the newest older events, and at most 30 are kept |
| SessionStore.Store.AddEvent | lib/server/gameState.ts:27-35 | only the event log changes, to the pushed log |
| SessionStore.Store.MarkUpdated | lib/server/gameState.ts:37-39 | only the update stamp changes |
| SessionStore.OwnedValueUpdate | lib/server/gameState.ts:45-47 | replacing one property changes the owned value by exactly the difference of the two contributions |
| SessionStore.OwnedValueUnowned | lib/server/gameState.ts:45-47 | with nothing owned the owned value is 0 |
| SessionStore.NetWorthIsFilteredSum | lib/server/gameState.ts:41-50 | 0 for an unknown id; otherwise the coins of the first player with the id plus the left-to-right sum of value + level*100 over the properties it owns, in list order |
| SessionStore.OwnedValueIsFilteredSum | lib/server/gameState.ts:45-47 | the owned value is the sum, from 0, of value + level*100 over the properties whose owner is the id, filtered first and then reduced |
| SessionStore.NetWorthEntries | lib/server/gameState.ts:55 | one entry per listed player id, each that player's net worth |
| SessionStore.ToPublicState | lib/server/gameState.ts:52-57 | the snapshot is the record unchanged plus a net worth for exactly the current players |
| Events.Table | lib/server/events.ts:66-68 | each table has three entries |
| Events.Crisis | lib/server/events.ts:60 | the result is floor(9/10 of the balance), below zero too |
| Events.ShiftAll | lib/server/events.ts:27-29 | every player's coins change by the same amount and nothing else about any player changes |
| Events.CrisisAll | lib/server/events.ts:59-61 | every player's coins become the crisis value of their coins and nothing else changes |
| Events.Forfeited | lib/server/events.ts:44-54 | a forfeiture changes only deed lists and, for properties, only the owner and level, which are both cleared when they change |
| Events.Applied | lib/server/events.ts:9-64 | an effect changes only players and properties, keeps every seat's id, and keeps every player on the board |
| Events.CrisisExamples | lib/server/events.ts:60 | 1000 becomes 900, 5 becomes 4, -1 stays -1, -15 becomes -14 |
| Events.AddToEveryone | lib/server/events.ts:27-29 | every player's coins rise by the bonus |
| Events.CutEveryone | lib/server/events.ts:59-61 | every player's coins are cut by the crisis rule |
| Events.ForfeitProperty | lib/server/events.ts:45-53 | the record becomes the forfeited record for the draw |
| Events.ApplyEffect | lib/server/events.ts:9-64 | the record becomes the drawn effect applied to the lander |
| Events.TriggerRandomEvent | lib/server/events.ts:66-71 | the entry drawn from the table of the tile's type is applied and returned |
| Events.LuckyInvestmentEffect | lib/server/events.ts:12-15 | only the lander's coins change, by +200 |
| Events.TailwindEffect | lib/server/events.ts:19-22 | only the lander's position changes, three tiles on round the board; every other player and the rest of the record are unchanged |
| Events.TourismBoomEffect | lib/server/events.ts:26-30 | every player gains 80 and nothing else changes |
| Events.TaxesEffect | lib/server/events.ts:37-40 | only the lander's coins change, by -150 |
| Events.GlobalCrisisEffect | lib/server/events.ts:58-62 | every balance becomes floor(9/10 of itself) and nothing else changes |
| Events.ForfeitNothingOwned | lib/server/events.ts:46 | a lander who owns nothing loses nothing |
| Events.ForfeitEffect | lib/server/events.ts:44-54 | exactly the drawn id leaves the lander's list, and that property loses its owner and level |
| Events.ForfeitedShape | lib/server/events.ts:44-54 | the lander's list loses exactly one copy of the drawn id and one entry; other players are untouched; the property found for the id loses owner and level and every other property stays |
| Events.RemoveAtCount | lib/server/events.ts:48 | splicing one entry out removes one entry and exactly one copy of it |
| GameEngine.FirstMax | lib/server/gameEngine.ts:35-36 | the position chosen holds the largest value, and every earlier value is strictly smaller |
| GameEngine.Worths | lib/server/gameEngine.ts:35 | one entry per player, in seat order, each that player's net worth |
| GameEngine.ScanFrom | lib/server/gameEngine.ts:59-63 | the seat found is the first non-bankrupt seat going round from the current one, or the current seat once the scan comes full circle |
| GameEngine.Wrap | lib/server/gameEngine.ts:59-61 | the remainder of a seat index below twice the seat count |
| GameEngine.StepWrap | lib/server/gameEngine.ts:59-61 | one more step of the scan adds one seat modulo the count, and it is back at the start exactly when it has gone full circle |
| GameEngine.AfterElimination | lib/server/gameEngine.ts:19-24 | only the flags change, each becoming true exactly when the player has no coins left |
| GameEngine.AfterFinishCheck | lib/server/gameEngine.ts:26-39 | the finish check never changes players, board or properties |
| GameEngine.AfterAdvance | lib/server/gameEngine.ts:46-76 | the turn advance never changes players, board or properties |
| GameEngine.AfterMove | lib/server/gameEngine.ts:78-89 | every player still stands on the board |
| GameEngine.PropertyOutcome | lib/server/gameEngine.ts:309-333 | the property step keeps every player on the board |
| GameEngine.Purchase | lib/server/gameEngine.ts:368-370 | a purchase changes only the buyer's coins and deed list and the property's owner |
| GameEngine.RentCharged | lib/server/gameEngine.ts:324-327 | rent changes only players' coins |
| GameEngine.ChanceStep | lib/server/gameEngine.ts:334-336 | the effect step keeps every player on the board |
| GameEngine.TileOutcome | lib/server/gameEngine.ts:309-344 | the tile step keeps every player on the board |
| GameEngine.AfterResolve | lib/server/gameEngine.ts:297-352 | the resolve keeps every player on the board |
| GameEngine.AfterTimeout | lib/server/gameEngine.ts:152-172 | the timeout check keeps every player on the board |
| GameEngine.AfterRoll | lib/server/gameEngine.ts:272-295 | a roll keeps every player on the board and the board itself, and a success returns the die drawn |
| GameEngine.AfterBuy | lib/server/gameEngine.ts:354-373 | a purchase keeps the board, the status, the turn holder, the pending action and the deadline |
| GameEngine.UpgradeCost | lib/server/gameEngine.ts:384 | the cost is half the value rounded down plus 80 for each level, and is not negative for a non-negative value |
| GameEngine.AfterUpgrade | lib/server/gameEngine.ts:375-391 | an upgrade keeps the board, the status, the turn holder, the pending action and the deadline |
| GameEngine.OpenVotes | lib/server/gameEngine.ts:202 | the new request lists exactly the seated players' ids, each undecided |
| GameEngine.AfterJoinRequest | lib/server/gameEngine.ts:174-210 | a join keeps the board, the properties, the status, the turn holder and the pending action |
| GameEngine.AfterVote | lib/server/gameEngine.ts:212-252 | a vote keeps the board, the properties, the status, the turn holder and the pending action |
| GameEngine.AfterStart | lib/server/gameEngine.ts:254-270 | the start keeps the board, the properties and the round |
| GameEngine.FindPlayerSameIds | lib/server/gameEngine.ts:14 | a lookup by id depends only on the ids in seat order |
| GameEngine.EliminateBankruptPlayers | lib/server/gameEngine.ts:19-24 | every flag becomes `coins <= 0` and nothing else changes |
| GameEngine.FirstMaxIndex | lib/server/gameEngine.ts:35-36 | the loop finds the first position of the largest value |
| GameEngine.RankLeader | lib/server/gameEngine.ts:35-36 | the ranking picks the first player of the largest net worth, or None with no players |
| GameEngine.ChargeRent | lib/server/gameEngine.ts:324-327 | the record becomes the rent-charged record |
| GameEngine.MaybeFinishGame | lib/server/gameEngine.ts:26-39 | the record becomes the finish-checked record |
| GameEngine.ScanPast | lib/server/gameEngine.ts:60-61 | one step of the scan past a bankrupt seat |
| GameEngine.ScanStop | lib/server/gameEngine.ts:60 | the scan stops at a seat that is not bankrupt |
| GameEngine.ScanNextIndex | lib/server/gameEngine.ts:59-63 | the loop's seat is the scan's seat |
| GameEngine.AdvanceTurn | lib/server/gameEngine.ts:46-76 | the record becomes the advanced record |
| GameEngine.MovePlayer | lib/server/gameEngine.ts:78-89 | an unknown player fails and changes nothing; otherwise the record is the moved record and the tile landed on is returned |
| GameEngine.TransferProperty | lib/server/gameEngine.ts:368-370 | the buyer pays the value, appends the id and becomes the owner |
| GameEngine.ResolvePropertyTile | lib/server/gameEngine.ts:309-333 | the record and the message are those of the property step |
| GameEngine.ApplyTileAction | lib/server/gameEngine.ts:309-344 | the record and the message are those of the tile step |
| GameEngine.ResolveTileAction | lib/server/gameEngine.ts:297-352 | record and result are those of the resolve |
| GameEngine.ProcessTimeoutIfNeeded | lib/server/gameEngine.ts:152-172 | the record becomes the timeout-checked record |
| GameEngine.RollDice | lib/server/gameEngine.ts:272-295 | record and result are those of the roll |
| GameEngine.BuyProperty | lib/server/gameEngine.ts:354-373 | record and result are those of the purchase |
| GameEngine.UpgradeProperty | lib/server/gameEngine.ts:375-391 | record and result are those of the upgrade |
| GameEngine.RequestJoin | lib/server/gameEngine.ts:174-210 | record and result are those of the join request |
| GameEngine.VoteJoin | lib/server/gameEngine.ts:212-252 | record and result are those of the vote |
| GameEngine.StartGame | lib/server/gameEngine.ts:254-270 | record and result are those of the start |
| EngineProperties.ShiftCoinsTotal | lib/server/gameEngine.ts:338 | changing one balance by delta changes the total of all coins by delta |
| EngineProperties.MoveEffect | lib/server/gameEngine.ts:78-89 | the mover ends on (position + steps) mod board size and gains 300, with a lap event, exactly when the move reaches or passes the start; nothing else changes |
| EngineProperties.MoveExample | lib/server/gameEngine.ts:82-84 | from tile 38 a roll of 5 lands on tile 3 with the lap bonus |
| EngineProperties.TurnKeyIdentifiesTurn | lib/server/gameEngine.ts:41-44 | two records have the same turn key exactly when they have the same round and the same turn holder |
| EngineProperties.RollRefused | lib/server/gameEngine.ts:275-282 | a roll failing a guard changes nothing beyond the timeout check before it |
| EngineProperties.RollAccepted | lib/server/gameEngine.ts:272-295 | a successful roll passed the guards, returns the die, leaves a pending action for the roller, records the turn key and roll, and keeps the turn |
| EngineProperties.PendingForShape | lib/server/gameEngine.ts:91-150 | the pending action fails with the invalid-tile error exactly when a property tile links a property that does not exist; otherwise it names the player, the tile's index and type, and for a linked property tile its id, value and whether it is unowned, all three absent on other tiles |
| EngineProperties.RollPendingAction | lib/server/gameEngine.ts:284-291 | after a successful roll the pending action belongs to the roller, names the tile they landed on and its type, and carries that property's id, value and buyability exactly on a linked property tile |
| EngineProperties.RollOncePerTurn | lib/server/gameEngine.ts:279-282 | straight after a successful roll the same player cannot roll again |
| EngineProperties.TransferTotal | lib/server/gameEngine.ts:325-327 | moving coins between two seats keeps the total |
| EngineProperties.RentConservesCoins | lib/server/gameEngine.ts:323-329 | the visitor pays the rent, the owner receives it, and the total of all coins is unchanged |
| EngineProperties.RentBranch | lib/server/gameEngine.ts:323-329 | on another's property the step charges rent + level*35, logs it and reports it, and the players and properties are those of the rent-charged record |
| EngineProperties.RentOnLanding | lib/server/gameEngine.ts:323-329 | on another's property the lander pays rent + level*35 whether or not they asked to buy; the total is kept and no property changes |
| EngineProperties.ResolveRefusedUnchanged | lib/server/gameEngine.ts:300-314 | a refused resolve leaves the record as it was |
| EngineProperties.FlaggedCounts | lib/server/gameEngine.ts:19-24 | once the flags are recomputed, the players not bankrupt are exactly those with positive coins |
| EngineProperties.AliveAtMostOne | lib/server/gameEngine.ts:53-54 | if every seat but one is bankrupt, at most one player counts as alive |
| EngineProperties.AliveZero | lib/server/gameEngine.ts:53 | if every seat is bankrupt, no player counts as alive |
| EngineProperties.NextTurnIndexAlive | lib/server/gameEngine.ts:59-63 | with two players alive, the scan settles on another non-bankrupt seat, and every seat it skipped is bankrupt |
| EngineProperties.AdvanceEffect | lib/server/gameEngine.ts:46-76 | the turn goes to the next non-bankrupt player circularly; the round rises exactly when the scan wrapped; the per-turn fields reset; then the game is finished or has the new turn and deadline |
| EngineProperties.AdvanceMid | lib/server/gameEngine.ts:59-75 | with two players alive the advance is the finish check of the record whose turn passed to the next seat, round raised on a wrap, deadline restarted, per-turn fields cleared and the change logged |
| EngineProperties.AdvanceWithoutCurrent | lib/server/gameEngine.ts:48-51 | without a current player who can be found, the advance does nothing |
| EngineProperties.TileOutcomeFrame | lib/server/gameEngine.ts:309-344 | the tile step changes no seat's id, the turn or the status |
| EngineProperties.PropertyOutcomeFrame | lib/server/gameEngine.ts:309-333 | the property step changes no seat's id, the turn or the status |
| EngineProperties.ResolveShape | lib/server/gameEngine.ts:346-349 | a successful resolve is the advance of the tile-stepped record, with nothing pending and every flag recomputed |
| EngineProperties.FoundAtSeat | lib/server/gameEngine.ts:14 | with unique ids, the lookup of a seat's id finds that seat |
| EngineProperties.HandOver | lib/server/gameEngine.ts:346-349 | after the flags are recomputed, the advance ends the game or gives the turn to another non-bankrupt player |
| EngineProperties.HandOverAlive | lib/server/gameEngine.ts:59-75 | with two players alive, the advance ends the game or gives the turn to another non-bankrupt player |
| EngineProperties.ResolveHandsOver | lib/server/gameEngine.ts:297-352 | a successful resolve clears the pending action, recomputes every flag, and ends the game or gives the turn to another non-bankrupt player |
| EngineProperties.PendingStaysClear | lib/server/gameEngine.ts:73 | the advance never adds a pending action |
| EngineProperties.PurchaseEffect | lib/server/gameEngine.ts:368-370 | the buyer pays the value, appends the id once and becomes the owner; their net worth changes only by the level bonus the property carries |
| EngineProperties.BuyRules | lib/server/gameEngine.ts:354-373 | a purchase succeeds exactly when all hold: the game runs, it is the caller's turn, caller and property exist, the property is unowned, the caller can pay and stands on its tile; a failure changes nothing |
| EngineProperties.ResolveBuyRules | lib/server/gameEngine.ts:313-319 | buying on landing fails, with the insufficient-balance error, exactly when the lander cannot pay; otherwise it is the purchase |
| EngineProperties.DeclineNeverBuys | lib/server/gameEngine.ts:320-333 | without buy, no property changes |
| EngineProperties.UpgradeCostExamples | lib/server/gameEngine.ts:384 | for value 280 the upgrade costs 140 at level 0 and 220 at level 1 |
| EngineProperties.UpgradeRules | lib/server/gameEngine.ts:375-391 | an upgrade succeeds exactly for an owner who can pay value/2 + level*80, in any status and on anyone's turn; it debits the cost and raises the level by one; a failure changes nothing |
| EngineProperties.UpgradeEffect | lib/server/gameEngine.ts:375-391 | a successful upgrade found both parties and is the applied upgrade |
| EngineProperties.FinishRules | lib/server/gameEngine.ts:26-39 | when the game is over it is finished, the turn fields are cleared, and the winner is the first player of the largest net worth (none without players); otherwise nothing changes |
| EngineProperties.TimeoutNotDue | lib/server/gameEngine.ts:154 | before the deadline, outside a running game, or with no deadline (0 included), nothing changes |
| EngineProperties.TimeoutShape | lib/server/gameEngine.ts:152-172 | a due timeout with no pending action is the logged turn skip; with a pending action whose resolve fails, it is the skip with the action dropped |
| EngineProperties.TimeoutDeclines | lib/server/gameEngine.ts:156-159 | a due timeout with a pending action resolves it as a decline, so a pending property is never bought |
| EngineProperties.TimeoutAfterFailedResolve | lib/server/gameEngine.ts:160-165 | if that resolve fails, the action is dropped with no player or property changed, and with two players alive the game ends or the turn goes to the next seat |
| EngineProperties.TimeoutSkipsTurn | lib/server/gameEngine.ts:169-171 | with no pending action and at least two players alive, the turn goes to the next non-bankrupt player, unless the game ends; no player or property changes |
| LobbyProperties.TrimStartSpec | lib/server/gameEngine.ts:7 | trimming the start removes exactly the leading whitespace |
| LobbyProperties.TrimEndSpec | lib/server/gameEngine.ts:7 | trimming the end removes exactly the trailing whitespace |
| LobbyProperties.TrimSpec | lib/server/gameEngine.ts:7 | the trimmed name is a slice of the raw name with only whitespace cut off; it neither starts nor ends with whitespace |
| LobbyProperties.TrimIdempotent | lib/server/gameEngine.ts:7 | trimming twice is trimming once |
| LobbyProperties.InvalidNameRefused | lib/server/gameEngine.ts:7 | a trimmed name shorter than 2 or longer than 24 is refused in every status, and nothing changes |
| LobbyProperties.JoinWhileWaiting | lib/server/gameEngine.ts:178-193 | in the lobby a valid name joins with 1000 coins on tile 0, as host exactly when the lobby was empty |
| LobbyProperties.FirstJoinerHosts | lib/server/gameEngine.ts:185 | the first joiner is the only host |
| LobbyProperties.JoinWhileRunning | lib/server/gameEngine.ts:195-207 | during a game a valid name opens a vote of exactly the seated players, all undecided, unless a vote is open; players are unchanged |
| LobbyProperties.JoinWhenFinished | lib/server/gameEngine.ts:209 | after the game nobody can join |
| LobbyProperties.VoteRefused | lib/server/gameEngine.ts:215-220 | with no open request, an unknown voter or a voter not listed, the vote is refused and nothing changes |
| LobbyProperties.VoteRejects | lib/server/gameEngine.ts:222-230 | a recorded refusal among the votes rejects the request and admits nobody |
| LobbyProperties.VoteAdmits | lib/server/gameEngine.ts:232-248 | unanimous approval admits the applicant as a non-host with 1000 coins on tile 0 and clears the request |
| LobbyProperties.VoteStaysOpen | lib/server/gameEngine.ts:222-251 | with no refusal and no unanimity, the request stays open with the vote recorded |
| LobbyProperties.StartRules | lib/server/gameEngine.ts:254-270 | only the host, in the lobby, with at least two players, can start; the same players are reseated (same multiset), the first seat has the turn with a 30-second deadline, nothing is pending, and the board, properties and round are kept; a failure changes nothing |
| LobbyProperties.PermutedUnique | lib/server/gameEngine.ts:263 | reseating keeps the set of ids and their uniqueness |
| LobbyProperties.PermutedMultiset | lib/server/gameEngine.ts:263 | reseating by a permutation keeps the multiset of players |
| SessionInvariant.LedgerFrame | lib/server/gameEngine.ts:325-338 | coins, positions, flags and levels play no part in the ownership ledger: same seats and same titles keep it |
| SessionInvariant.PurchaseLedger | lib/server/gameEngine.ts:368-370 | buying an unowned property keeps the ledger |
| SessionInvariant.PurchaseDeeds | lib/server/gameEngine.ts:368-370 | after a purchase, a property is on a player's list exactly when that player owns it |
| SessionInvariant.AppendDistinct | lib/server/gameEngine.ts:369 | appending an absent id to a list without repeats keeps it without repeats |
| SessionInvariant.RemoveAtDistinct | lib/server/events.ts:48 | splicing one entry out of a list without repeats removes exactly that id |
| SessionInvariant.ReleaseLedger | lib/server/events.ts:48-53 | giving up a listed property, which loses its owner, keeps the ledger |
| SessionInvariant.PlayerIdsKept | lib/server/gameEngine.ts:14 | seats with the same ids give the same id set |
| SessionInvariant.PropertyIdsKept | lib/server/gameEngine.ts:362 | properties with the same ids give the same id set |
| SessionInvariant.ForfeitedLedger | lib/server/events.ts:44-54 | a forfeiture keeps the ledger and the seats |
| SessionInvariant.AppendLedger | lib/server/gameEngine.ts:180-189 | seating a new player with a fresh, non-empty id and no deeds keeps the ledger |
| SessionInvariant.PermutedLedger | lib/server/gameEngine.ts:263 | reseating keeps the ledger |
| SessionInvariant.InitialValid | lib/server/gameState.ts:6-21 | the initial record satisfies the invariant |
| SessionInvariant.GeneratedLedger | lib/server/gameState.ts:4-10 | the generated properties with no players satisfy the ledger |
| SessionInvariant.StepValid | lib/server/gameEngine.ts:297-344 | a step that keeps the ledger, the seats and the turn fields keeps the invariant |
| SessionInvariant.AppliedLedger | lib/server/events.ts:9-64 | every effect keeps the ledger and the seats |
| SessionInvariant.UnownedUnderLedger | lib/server/gameEngine.ts:313 | under the ledger an owner that is not truthy is no owner |
| SessionInvariant.RentLedger | lib/server/gameEngine.ts:323-329 | rent keeps the ledger and the seats |
| SessionInvariant.RentedLedger | lib/server/gameEngine.ts:323-329 | the rent branch keeps the ledger and the seats |
| SessionInvariant.PropertyOutcomeLedger | lib/server/gameEngine.ts:309-333 | the property step keeps the ledger and the seats |
| SessionInvariant.TileOutcomeLedger | lib/server/gameEngine.ts:309-344 | the tile step keeps the ledger and the seats |
| SessionInvariant.FinishCheckValid | lib/server/gameEngine.ts:26-39 | the finish check of a consistent record whose holder is alive, or that is over, satisfies the invariant |
| SessionInvariant.AdvanceValid | lib/server/gameEngine.ts:46-76 | the advance of a consistent running record satisfies the invariant, live holder included |
| SessionInvariant.SkipValid | lib/server/gameEngine.ts:169-171 | skipping the turn of a consistent running record satisfies the invariant |
| SessionInvariant.PositiveAtMostAlive | lib/server/gameEngine.ts:19-24 | when flags are honest, players with coins are at most the players alive |
| SessionInvariant.ClearedStepValid | lib/server/gameEngine.ts:346-347 | the tile-stepped record, with the action cleared and the flags recomputed, is consistent |
| SessionInvariant.ResolveValid | lib/server/gameEngine.ts:297-352 | a resolve keeps the invariant |
| SessionInvariant.TimeoutValid | lib/server/gameEngine.ts:152-172 | the timeout check keeps the invariant |
| SessionInvariant.MoveValid | lib/server/gameEngine.ts:78-89 | a move of a player who is not bankrupt keeps the invariant |
| SessionInvariant.RolledValid | lib/server/gameEngine.ts:284-291 | the move, the turn record and the roller's pending action keep the invariant |
| SessionInvariant.RollValid | lib/server/gameEngine.ts:272-295 | a roll keeps the invariant |
| SessionInvariant.BuyValid | lib/server/gameEngine.ts:354-373 | a purchase keeps the invariant |
| SessionInvariant.PurchasedValid | lib/server/gameEngine.ts:368-372 | a logged purchase of an unowned, affordable property keeps the invariant |
| SessionInvariant.UpgradeValid | lib/server/gameEngine.ts:375-391 | an upgrade keeps the invariant |
| SessionInvariant.UpgradedValid | lib/server/gameEngine.ts:384-390 | an applied upgrade keeps the invariant |
| SessionInvariant.JoinValid | lib/server/gameEngine.ts:174-210 | a join with a fresh, non-empty id keeps the invariant |
| SessionInvariant.SeatAddedValid | lib/server/gameEngine.ts:180-189 | seating a new player with a fresh, non-empty id, no deeds and on the board keeps the invariant |
| SessionInvariant.VoteValid | lib/server/gameEngine.ts:212-252 | a vote with a fresh, non-empty id keeps the invariant |
| SessionInvariant.StartValid | lib/server/gameEngine.ts:254-270 | the start keeps the invariant |
| SessionInvariant.ResolveFindsPlayer | lib/server/gameEngine.ts:300 | a successful resolve was asked for by a seated player, whose id is not empty |
| SessionInvariant.ValidResolveHandsOver | lib/server/gameEngine.ts:297-352 | under the invariant a successful resolve clears the action and ends the game or gives the turn to another non-bankrupt player |
| BoardView.CoordOnBorder | components/GameClient.tsx:18-23 | every tile index lands on the border of the 11x11 grid, outside the centre panel |
| BoardView.Corners | components/GameClient.tsx:18-23 | tiles 0, 10, 20 and 30 sit at the four corners |
| BoardView.CoordInjective | components/GameClient.tsx:18-23 | distinct tiles get distinct cells |
| BoardView.CoordRoundTrip | components/GameClient.tsx:18-23 | the inverse walk gives the index back |
| BoardView.BorderCovered | components/GameClient.tsx:18-23 | every border cell shows some tile |
| BoardView.TileToneDistinguishes | components/GameClient.tsx:25-31 | different tile types get different colour classes |

## Left out

- The HTTP route, the client store, the rendering and the polling are not modelled; of GameClient.tsx only `indexToCoord` and `tileTone` are.
- Schema validation is ignored except the join name's trim and its 2 to 24 length. Lengths count code points, not UTF-16 units.
- Event ids, event and action message texts, and the pending action's title and description are not modelled. Events and messages are tagged by kind and data; the owner name in the description is dropped.
- `crypto.randomInt`, `crypto.randomUUID` and `Date.now` are parameters. A forfeiture picks index `forfeit % count`. Every reading of the clock within one operation takes the same `now`, so entries and stamps written by one request carry one time.
- The start shuffle, a sort with a random comparator, is any permutation `order`; its distribution is not modelled.
- Numbers are unbounded integers, not IEEE doubles. `Math.floor(coins * 0.9)` is `(coins * 9) / 10` rounded down, and `Math.floor(value * 0.5)` is `value / 2`; both are exact for the integer balances and values of the game, below zero too.
- The global crisis takes the floor of 90%, so it also rounds negative balances down.
- The turn key is the pair (round, current player) instead of its text `${round}-${id}`. The text differs only when a player id is the literal "null".
- Concurrent requests are not modelled: each operation runs to completion, as on Node's single thread.
- Dice guards are judged on the record as the timeout check left it, as in the code, so a refused roll may still have skipped a timed-out turn.
- EngineProperties.ResolveHandsOver: requires unique, non-empty player ids. The session invariant provides these (SessionInvariant.ValidResolveHandsOver); with duplicate ids the claim can fail.
- SessionInvariant.JoinValid and SessionInvariant.VoteValid: require the drawn id to be non-empty and not already seated, which a UUID is taken to be.
