/** The luck and bad-luck effect tables and the dispatch over them (events.ts). */
module Events {
  import opened Types
  import opened SessionStore

  const LuckTable: seq<Effect> := [LuckyInvestment, Tailwind, TourismBoom]
  const BadLuckTable: seq<Effect> := [Taxes, PropertyDamage, GlobalCrisis]

  /** The table a tile type draws from: luck for a luck tile, bad luck
      otherwise. */
  function Table(kind: TileType): (t: seq<Effect>)
    ensures |t| == 3
  {
    if kind == Luck then LuckTable else BadLuckTable
  }

  /** Nine tenths of the coins, rounded down (toward minus infinity, also
      for a negative balance). */
  function Crisis(coins: int): (r: int)
    ensures r * 10 <= coins * 9 < r * 10 + 10
  {
    (coins * 9) / 10
  }

  lemma CrisisExamples()
    ensures Crisis(-15) == -14 && Crisis(1000) == 900 && Crisis(5) == 4 && Crisis(-1) == -1
  {
  }

  /** One player's coins moved by delta. */
  function ShiftCoins(ps: seq<Player>, i: nat, delta: int): seq<Player>
    requires i < |ps|
  {
    ps[i := ps[i].(coins := ps[i].coins + delta)]
  }

  /** Every player's coins moved by delta; nothing else about any player
      changes. */
  function ShiftAll(ps: seq<Player>, delta: int): (r: seq<Player>)
    ensures |r| == |ps|
    ensures forall j {:trigger r[j]} :: 0 <= j < |ps| ==> r[j].coins == ps[j].coins + delta && r[j].(coins := ps[j].coins) == ps[j]
  {
    seq(|ps|, j requires 0 <= j < |ps| => ps[j].(coins := ps[j].coins + delta))
  }

  /** Every player's coins cut by the crisis rule; nothing else about any
      player changes. */
  function CrisisAll(ps: seq<Player>): (r: seq<Player>)
    ensures |r| == |ps|
    ensures forall j {:trigger r[j]} :: 0 <= j < |ps| ==> r[j].coins == Crisis(ps[j].coins) && r[j].(coins := ps[j].coins) == ps[j]
  {
    seq(|ps|, j requires 0 <= j < |ps| => ps[j].(coins := Crisis(ps[j].coins)))
  }

  /** The sequence with the element at position i taken out. */
  function RemoveAt<T>(xs: seq<T>, i: nat): seq<T>
    requires i < |xs|
  {
    xs[..i] + xs[i + 1..]
  }

  /** The record after the forfeiture draw `forfeit` for the player at index
      i: only the deed lists and the properties may change, and no seat
      changes its id. */
  function Forfeited(s: GameState, i: nat, forfeit: nat): (t: GameState)
    requires i < |s.players|
    ensures t == s.(players := t.players, properties := t.properties)
    ensures |t.players| == |s.players| && |t.properties| == |s.properties|
    ensures forall j {:trigger t.players[j]} :: 0 <= j < |s.players| ==> t.players[j] == s.players[j].(properties := t.players[j].properties)
    ensures forall k {:trigger t.properties[k]} :: 0 <= k < |s.properties| ==>
      t.properties[k] == s.properties[k] || t.properties[k] == s.properties[k].(ownerId := None, level := 0)
  {
    var p := s.players[i];
    if |p.properties| == 0 then s
    else
      var idx := forfeit % |p.properties|;
      var pid := p.properties[idx];
      var s1 := s.(players := s.players[i := p.(properties := RemoveAt(p.properties, idx))]);
      match FindProperty(s1.properties, pid)
      case None => s1
      case Some(k) => s1.(properties := s1.properties[k := s1.properties[k].(ownerId := None, level := 0)])
  }

  /** The record after `apply(state, playerId)` of one table entry: only
      players and properties change, the seats keep their ids, and every
      player stays on the board. */
  function Applied(s: GameState, e: Effect, playerId: PlayerId, forfeit: nat): (t: GameState)
    requires |s.board| > 0
    ensures t == s.(players := t.players, properties := t.properties)
    ensures |t.players| == |s.players| && forall j {:trigger t.players[j]} :: 0 <= j < |s.players| ==> t.players[j].id == s.players[j].id
    ensures forall j {:trigger t.players[j]} :: 0 <= j < |s.players| && 0 <= s.players[j].position < |s.board| ==>
      0 <= t.players[j].position < |s.board|
  {
    match e
    case LuckyInvestment =>
      (match FindPlayer(s.players, playerId)
       case None => s
       case Some(i) => s.(players := ShiftCoins(s.players, i, 200)))
    case Tailwind =>
      (match FindPlayer(s.players, playerId)
       case None => s
       case Some(i) =>
         var p := s.players[i];
         s.(players := s.players[i := p.(position := (p.position + 3) % |s.board|)]))
    case TourismBoom => s.(players := ShiftAll(s.players, 80))
    case Taxes =>
      (match FindPlayer(s.players, playerId)
       case None => s
       case Some(i) => s.(players := ShiftCoins(s.players, i, -150)))
    case PropertyDamage =>
      (match FindPlayer(s.players, playerId)
       case None => s
       case Some(i) => Forfeited(s, i, forfeit))
    case GlobalCrisis => s.(players := CrisisAll(s.players))
  }

  // ---------------------------------------------------------------- the effects, as the source runs them

  /** The loop that adds the bonus to every player's coins in turn. */
  method AddToEveryone(store: Store, bonus: int)
    modifies store
    ensures store.state == old(store.state).(players := ShiftAll(old(store.state).players, bonus))
  {
    var i := 0;
    while i < |store.state.players|
      invariant i <= |store.state.players| == |old(store.state).players|
      invariant store.state == old(store.state).(players := store.state.players)
      invariant forall j :: 0 <= j < i ==>
        store.state.players[j] == old(store.state).players[j].(coins := old(store.state).players[j].coins + bonus)
      invariant forall j :: i <= j < |store.state.players| ==> store.state.players[j] == old(store.state).players[j]
    {
      var p := store.state.players[i];
      store.state := store.state.(players := store.state.players[i := p.(coins := p.coins + bonus)]);
      i := i + 1;
    }
  }

  /** The loop that cuts every player's coins by the crisis rule in turn. */
  method CutEveryone(store: Store)
    modifies store
    ensures store.state == old(store.state).(players := CrisisAll(old(store.state).players))
  {
    var i := 0;
    while i < |store.state.players|
      invariant i <= |store.state.players| == |old(store.state).players|
      invariant store.state == old(store.state).(players := store.state.players)
      invariant forall j :: 0 <= j < i ==>
        store.state.players[j] == old(store.state).players[j].(coins := Crisis(old(store.state).players[j].coins))
      invariant forall j :: i <= j < |store.state.players| ==> store.state.players[j] == old(store.state).players[j]
    {
      var p := store.state.players[i];
      store.state := store.state.(players := store.state.players[i := p.(coins := Crisis(p.coins))]);
      i := i + 1;
    }
  }

  /** The property-damage entry: splice one owned id out and reset that property. */
  method ForfeitProperty(store: Store, i: nat, forfeit: nat)
    requires i < |store.state.players|
    modifies store
    ensures store.state == Forfeited(old(store.state), i, forfeit)
  {
    var p := store.state.players[i];
    if |p.properties| == 0 {
      return;
    }
    var idx := forfeit % |p.properties|;
    var pid := p.properties[idx];
    store.state := store.state.(players := store.state.players[i := p.(properties := RemoveAt(p.properties, idx))]);
    var found := FindProperty(store.state.properties, pid);
    if found.Some? {
      var k := found.value;
      var q := store.state.properties[k];
      store.state := store.state.(properties := store.state.properties[k := q.(ownerId := None, level := 0)]);
    }
  }

  method ApplyEffect(store: Store, e: Effect, playerId: PlayerId, forfeit: nat)
    requires |store.state.board| > 0
    modifies store
    ensures store.state == Applied(old(store.state), e, playerId, forfeit)
  {
    var found := FindPlayer(store.state.players, playerId);
    match e
    case LuckyInvestment =>
      if found.Some? {
        var p := store.state.players[found.value];
        store.state := store.state.(players := store.state.players[found.value := p.(coins := p.coins + 200)]);
      }
    case Tailwind =>
      if found.Some? {
        var p := store.state.players[found.value];
        var after := (p.position + 3) % |store.state.board|;
        store.state := store.state.(players := store.state.players[found.value := p.(position := after)]);
      }
    case TourismBoom =>
      AddToEveryone(store, 80);
    case Taxes =>
      if found.Some? {
        var p := store.state.players[found.value];
        store.state := store.state.(players := store.state.players[found.value := p.(coins := p.coins - 150)]);
      }
    case PropertyDamage =>
      if found.Some? {
        ForfeitProperty(store, found.value, forfeit);
      }
    case GlobalCrisis =>
      CutEveryone(store);
  }

  /** `triggerRandomEvent`: applies entry `chance.effect` of the table for the
      tile type and returns that entry (its message). */
  method TriggerRandomEvent(store: Store, kind: TileType, playerId: PlayerId, chance: Chance) returns (e: Effect)
    requires chance.effect < 3 && |store.state.board| > 0
    modifies store
    ensures e == Table(kind)[chance.effect]
    ensures store.state == Applied(old(store.state), e, playerId, chance.forfeit)
  {
    var source := if kind == Luck then LuckTable else BadLuckTable;
    e := source[chance.effect];
    ApplyEffect(store, e, playerId, chance.forfeit);
  }

  // ---------------------------------------------------------------- what each entry does

  /** "+200": only the lander's coins change, by exactly +200. */
  lemma LuckyInvestmentEffect(s: GameState, playerId: PlayerId, forfeit: nat, i: nat)
    requires |s.board| > 0 && i < |s.players| && FindPlayer(s.players, playerId) == Some(i)
    ensures var t := Applied(s, LuckyInvestment, playerId, forfeit);
      t == s.(players := t.players) && |t.players| == |s.players| &&
      forall j :: 0 <= j < |s.players| ==>
        t.players[j] == s.players[j].(coins := s.players[j].coins + if j == i then 200 else 0)
  {
  }

  /** "advance 3": the lander moves three tiles round the board and no coins
      change (no lap bonus). */
  lemma TailwindEffect(s: GameState, playerId: PlayerId, forfeit: nat, i: nat)
    requires |s.board| > 0 && i < |s.players| && FindPlayer(s.players, playerId) == Some(i)
    ensures var t := Applied(s, Tailwind, playerId, forfeit);
      t == s.(players := t.players) && |t.players| == |s.players| &&
      t.players[i] == s.players[i].(position := (s.players[i].position + 3) % |s.board|) &&
      forall j :: 0 <= j < |s.players| && j != i ==> t.players[j] == s.players[j]
  {
  }

  /** "global boom": every player gains 80 and nothing else changes. */
  lemma TourismBoomEffect(s: GameState, playerId: PlayerId, forfeit: nat)
    requires |s.board| > 0
    ensures var t := Applied(s, TourismBoom, playerId, forfeit);
      t == s.(players := t.players) && |t.players| == |s.players| &&
      forall j :: 0 <= j < |s.players| ==> t.players[j] == s.players[j].(coins := s.players[j].coins + 80)
  {
  }

  /** "taxes": only the lander's coins change, by exactly -150. */
  lemma TaxesEffect(s: GameState, playerId: PlayerId, forfeit: nat, i: nat)
    requires |s.board| > 0 && i < |s.players| && FindPlayer(s.players, playerId) == Some(i)
    ensures var t := Applied(s, Taxes, playerId, forfeit);
      t == s.(players := t.players) && |t.players| == |s.players| &&
      forall j :: 0 <= j < |s.players| ==>
        t.players[j] == s.players[j].(coins := s.players[j].coins - if j == i then 150 else 0)
  {
  }

  /** "global crisis": every balance becomes floor(9/10 of itself). */
  lemma GlobalCrisisEffect(s: GameState, playerId: PlayerId, forfeit: nat)
    requires |s.board| > 0
    ensures var t := Applied(s, GlobalCrisis, playerId, forfeit);
      t == s.(players := t.players) && |t.players| == |s.players| &&
      forall j :: 0 <= j < |s.players| ==>
        t.players[j] == s.players[j].(coins := Crisis(s.players[j].coins)) &&
        (s.players[j].coins >= 0 ==> 0 <= t.players[j].coins <= s.players[j].coins) &&
        (s.players[j].coins < 0 ==> s.players[j].coins <= t.players[j].coins <= 0)
  {
  }

  /** Forfeiture of a lander who owns nothing changes nothing. */
  lemma ForfeitNothingOwned(s: GameState, playerId: PlayerId, forfeit: nat, i: nat)
    requires |s.board| > 0 && i < |s.players| && FindPlayer(s.players, playerId) == Some(i)
    requires |s.players[i].properties| == 0
    ensures Applied(s, PropertyDamage, playerId, forfeit) == s
  {
  }

  /** Forfeiture removes exactly one id from the lander's list, and that
      property (when it exists) loses its owner and its levels; no other
      player or property changes. */
  lemma ForfeitEffect(s: GameState, playerId: PlayerId, forfeit: nat, i: nat)
    requires |s.board| > 0 && i < |s.players| && FindPlayer(s.players, playerId) == Some(i)
    requires |s.players[i].properties| > 0
    ensures var t := Applied(s, PropertyDamage, playerId, forfeit);
      var owned := s.players[i].properties;
      var pid := owned[forfeit % |owned|];
      t == s.(players := t.players, properties := t.properties) &&
      |t.players| == |s.players| && |t.properties| == |s.properties| &&
      t.players[i] == s.players[i].(properties := t.players[i].properties) &&
      |t.players[i].properties| == |owned| - 1 &&
      multiset(t.players[i].properties) == multiset(owned) - multiset{pid} &&
      (forall j :: 0 <= j < |s.players| && j != i ==> t.players[j] == s.players[j]) &&
      (forall k :: 0 <= k < |s.properties| ==>
        t.properties[k] == if FindProperty(s.properties, pid) == Some(k)
                           then s.properties[k].(ownerId := None, level := 0)
                           else s.properties[k])
  {
    ForfeitedShape(s, i, forfeit, Applied(s, PropertyDamage, playerId, forfeit));
  }

  /** What `Forfeited` does to a lander holding at least one deed. */
  lemma ForfeitedShape(s: GameState, i: nat, forfeit: nat, t: GameState)
    requires i < |s.players| && |s.players[i].properties| > 0 && t == Forfeited(s, i, forfeit)
    ensures var owned := s.players[i].properties;
      var pid := owned[forfeit % |owned|];
      t == s.(players := t.players, properties := t.properties) &&
      |t.players| == |s.players| && |t.properties| == |s.properties| &&
      t.players[i] == s.players[i].(properties := t.players[i].properties) &&
      |t.players[i].properties| == |owned| - 1 &&
      multiset(t.players[i].properties) == multiset(owned) - multiset{pid} &&
      (forall j :: 0 <= j < |s.players| && j != i ==> t.players[j] == s.players[j]) &&
      (forall k :: 0 <= k < |s.properties| ==>
        t.properties[k] == if FindProperty(s.properties, pid) == Some(k)
                           then s.properties[k].(ownerId := None, level := 0)
                           else s.properties[k])
  {
    RemoveAtCount(s.players[i].properties, forfeit % |s.players[i].properties|);
  }

  /** Removing entry idx takes exactly that one occurrence out. */
  lemma RemoveAtCount<T>(xs: seq<T>, idx: nat)
    requires idx < |xs|
    ensures |RemoveAt(xs, idx)| == |xs| - 1
    ensures multiset(RemoveAt(xs, idx)) == multiset(xs) - multiset{xs[idx]}
  {
    assert xs == xs[..idx] + [xs[idx]] + xs[idx + 1..];
    assert multiset(xs) == multiset(xs[..idx]) + multiset{xs[idx]} + multiset(xs[idx + 1..]);
  }
}
