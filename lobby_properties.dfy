/** What admission and the game start promise: the trimmed name check, the
    join rules in each status, the unanimous vote, and the start. */
module LobbyProperties {
  import opened Types
  import opened SessionStore
  import opened GameEngine

  // ---------------------------------------------------------------- trimming

  /** TrimStart drops exactly the leading whitespace. */
  lemma {:induction false} TrimStartSpec(s: string)
    ensures |TrimStart(s)| <= |s| && TrimStart(s) == s[|s| - |TrimStart(s)|..]
    ensures forall j :: 0 <= j < |s| - |TrimStart(s)| ==> IsWhitespace(s[j])
    ensures |TrimStart(s)| > 0 ==> !IsWhitespace(TrimStart(s)[0])
  {
    if |s| > 0 && IsWhitespace(s[0]) {
      TrimStartSpec(s[1..]);
      assert forall j :: 1 <= j < |s| ==> s[j] == s[1..][j - 1];
    }
  }

  /** TrimEnd drops exactly the trailing whitespace. */
  lemma {:induction false} TrimEndSpec(s: string)
    ensures |TrimEnd(s)| <= |s| && TrimEnd(s) == s[..|TrimEnd(s)|]
    ensures forall j :: |TrimEnd(s)| <= j < |s| ==> IsWhitespace(s[j])
    ensures |TrimEnd(s)| > 0 ==> !IsWhitespace(TrimEnd(s)[|TrimEnd(s)| - 1])
  {
    if |s| > 0 && IsWhitespace(s[|s| - 1]) {
      TrimEndSpec(s[..|s| - 1]);
      assert forall j :: 0 <= j < |s| - 1 ==> s[j] == s[..|s| - 1][j];
    }
  }

  /** The trimmed name is a slice of the raw name with only whitespace cut
      off either end, and it neither starts nor ends with whitespace. */
  lemma TrimSpec(s: string)
    ensures var t := Trim(s);
      (exists a, b :: 0 <= a <= b <= |s| && t == s[a..b] &&
        (forall j :: 0 <= j < a ==> IsWhitespace(s[j])) &&
        (forall j :: b <= j < |s| ==> IsWhitespace(s[j]))) &&
      (|t| > 0 ==> !IsWhitespace(t[0]) && !IsWhitespace(t[|t| - 1]))
  {
    var u := TrimStart(s);
    TrimStartSpec(s);
    TrimEndSpec(u);
    var a := |s| - |u|;
    var b := a + |TrimEnd(u)|;
    assert u == s[a..];
    assert Trim(s) == u[..b - a];
    assert u[..b - a] == s[a..b];
    assert forall j :: 0 <= j < a ==> IsWhitespace(s[j]);
    forall j | b <= j < |s|
      ensures IsWhitespace(s[j])
    {
      assert s[j] == u[j - a];
    }
    assert 0 <= a <= b <= |s| && Trim(s) == s[a..b];
    if |Trim(s)| > 0 {
      assert Trim(s)[0] == u[0];
    }
  }

  /** Trimming twice trims nothing more. */
  lemma TrimIdempotent(s: string)
    ensures Trim(Trim(s)) == Trim(s)
  {
    var t := Trim(s);
    TrimSpec(s);
    if |t| > 0 {
      assert TrimStart(t) == t;
      assert TrimEnd(t) == t;
    }
  }

  // ---------------------------------------------------------------- joining

  predicate ValidName(raw: string)
  {
    MinNameLength <= |Trim(raw)| <= MaxNameLength
  }

  /** A name that is shorter than 2 or longer than 24 once trimmed is
      refused, in every status, and nothing changes. */
  lemma InvalidNameRefused(s: GameState, raw: string, freshId: string, now: int)
    requires !ValidName(raw)
    ensures AfterJoinRequest(s, raw, freshId, now) == (s, Err(InvalidName))
  {
  }

  /** In the lobby a valid name always joins as a new player with 1000
      coins on tile 0, host exactly when nobody was there before. */
  lemma JoinWhileWaiting(s: GameState, raw: string, freshId: string, now: int)
    requires ValidName(raw) && s.status == Waiting
    ensures var (t, r) := AfterJoinRequest(s, raw, freshId, now);
      r == Ok(JoinedAs(freshId)) &&
      t.players == s.players + [Player(freshId, Trim(raw), 1000, 0, |s.players| == 0, false, [], now)] &&
      t == s.(players := t.players, events := t.events, updatedAt := now) &&
      t.events[0] == GameEvent(RequestJoinEvent, JoinedLobby(Trim(raw)), now)
  {
  }

  /** The first player to join is the only host. */
  lemma FirstJoinerHosts(s: GameState, raw: string, freshId: string, now: int)
    requires ValidName(raw) && s.status == Waiting
    requires forall j :: 0 <= j < |s.players| ==> !s.players[j].isHost
    ensures var t := AfterJoinRequest(s, raw, freshId, now).0;
      forall j :: 0 <= j < |t.players| ==> (t.players[j].isHost <==> (j == 0 && |s.players| == 0))
  {
  }

  /** During a game a valid name opens a vote over exactly the current
      players, all undecided, unless a vote is already open; the players
      are not changed either way. */
  lemma JoinWhileRunning(s: GameState, raw: string, freshId: string, now: int)
    requires ValidName(raw) && s.status == Running
    ensures var (t, r) := AfterJoinRequest(s, raw, freshId, now);
      (s.pendingJoinRequest.Some? ==> t == s && r == Err(JoinVoteInProgress)) &&
      (s.pendingJoinRequest.None? ==>
        r == Ok(VoteRequested(freshId)) && t.players == s.players &&
        t.pendingJoinRequest.Some? && t.pendingJoinRequest.value.id == freshId &&
        t.pendingJoinRequest.value.name == Trim(raw) &&
        t.pendingJoinRequest.value.votes.Keys == PlayerIds(s.players) &&
        (forall id :: id in t.pendingJoinRequest.value.votes ==> t.pendingJoinRequest.value.votes[id] == None))
  {
  }

  /** Once the game is finished nobody can join. */
  lemma JoinWhenFinished(s: GameState, raw: string, freshId: string, now: int)
    requires s.status == Finished
    ensures AfterJoinRequest(s, raw, freshId, now).0 == s
    ensures AfterJoinRequest(s, raw, freshId, now).1.Err?
  {
  }

  // ---------------------------------------------------------------- voting

  /** A vote is counted only from a present player listed in the open
      request; otherwise it is refused and nothing changes. */
  lemma VoteRefused(s: GameState, voterId: PlayerId, approve: bool, freshId: PlayerId, now: int)
    requires s.pendingJoinRequest.None? || FindPlayer(s.players, voterId).None? ||
             voterId !in s.pendingJoinRequest.value.votes
    ensures AfterVote(s, voterId, approve, freshId, now).0 == s
    ensures AfterVote(s, voterId, approve, freshId, now).1.Err?
  {
  }

  /** The votes of the open request once this vote is recorded. */
  function VotesAfter(s: GameState, voterId: PlayerId, approve: bool): map<PlayerId, Option<bool>>
    requires s.pendingJoinRequest.Some?
  {
    s.pendingJoinRequest.value.votes[voterId := Some(approve)]
  }

  predicate Counted(s: GameState, voterId: PlayerId)
  {
    s.pendingJoinRequest.Some? && FindPlayer(s.players, voterId).Some? &&
    voterId in s.pendingJoinRequest.value.votes
  }

  /** A recorded refusal rejects the request: it is cleared and admits
      nobody. */
  lemma VoteRejects(s: GameState, voterId: PlayerId, approve: bool, freshId: PlayerId, now: int)
    requires Counted(s, voterId)
    requires exists id :: id in VotesAfter(s, voterId, approve) && VotesAfter(s, voterId, approve)[id] == Some(false)
    ensures var (t, r) := AfterVote(s, voterId, approve, freshId, now);
      r == Ok(Rejected) && t.pendingJoinRequest == None && t.players == s.players
  {
  }

  /** Unanimous approval admits the applicant as a non-host with 1000 coins
      on tile 0 and clears the request. */
  lemma VoteAdmits(s: GameState, voterId: PlayerId, approve: bool, freshId: PlayerId, now: int)
    requires Counted(s, voterId)
    requires forall id :: id in VotesAfter(s, voterId, approve) ==> VotesAfter(s, voterId, approve)[id] == Some(true)
    ensures var (t, r) := AfterVote(s, voterId, approve, freshId, now);
      r == Ok(Admitted(freshId)) && t.pendingJoinRequest == None &&
      t.players == s.players + [Player(freshId, s.pendingJoinRequest.value.name, 1000, 0, false, false, [], now)]
  {
    var votes := VotesAfter(s, voterId, approve);
    assert voterId in votes;
    assert !exists id :: id in votes && votes[id] == Some(false);
  }

  /** Without a refusal and without unanimity the request stays open with
      this vote recorded, and nobody is admitted. */
  lemma VoteStaysOpen(s: GameState, voterId: PlayerId, approve: bool, freshId: PlayerId, now: int)
    requires Counted(s, voterId)
    requires forall id :: id in VotesAfter(s, voterId, approve) ==> VotesAfter(s, voterId, approve)[id] != Some(false)
    requires exists id :: id in VotesAfter(s, voterId, approve) && VotesAfter(s, voterId, approve)[id] != Some(true)
    ensures var (t, r) := AfterVote(s, voterId, approve, freshId, now);
      r == Ok(Undecided) && t.players == s.players &&
      t.pendingJoinRequest == Some(s.pendingJoinRequest.value.(votes := VotesAfter(s, voterId, approve)))
  {
  }

  // ---------------------------------------------------------------- starting

  /** Only the host, in the lobby, with at least two players, starts the
      game; the players are then reseated in the drawn order, the first seat
      has the turn with a fresh 30-second deadline. */
  lemma StartRules(s: GameState, hostId: PlayerId, order: seq<nat>, now: int)
    requires IsPermutation(order, |s.players|)
    ensures var (t, r) := AfterStart(s, hostId, order, now);
      var fh := FindPlayer(s.players, hostId);
      (r.Ok? <==> fh.Some? && s.players[fh.value].isHost && s.status == Waiting && |s.players| >= 2) &&
      (r.Err? ==> t == s) &&
      (r.Ok? ==>
        t.status == Running && |t.players| == |s.players| &&
        t.currentTurnPlayerId == Some(t.players[0].id) &&
        t.turnDeadline == Some(now + TurnMillis) && t.pendingTileAction == None &&
        multiset(t.players) == multiset(s.players) &&
        (forall j :: 0 <= j < |t.players| ==> t.players[j] in s.players) &&
        (forall x :: 0 <= x < |s.players| ==> s.players[x] in t.players) &&
        t.properties == s.properties && t.board == s.board && t.round == s.round)
  {
    var n := |s.players|;
    if AfterStart(s, hostId, order, now).1.Ok? {
      var ps := Permuted(s.players, order);
      PermutedMultiset(s.players, order);
      forall x | 0 <= x < n
        ensures s.players[x] in ps
      {
        assert x in order;
        var j :| 0 <= j < n && order[j] == x;
        assert ps[j] == s.players[x];
      }
    }
  }

  /** Reseating is a permutation: every player is seated as often as
      before. */
  lemma {:induction false} PermutedMultiset(ps: seq<Player>, order: seq<nat>)
    requires IsPermutation(order, |ps|)
    ensures multiset(Permuted(ps, order)) == multiset(ps)
    decreases |ps|
  {
    var n := |ps|;
    if n > 0 {
      assert n - 1 in order;
      var j :| 0 <= j < n && order[j] == n - 1;
      var rest := WithoutLast(order, j);
      var front := ps[..n - 1];
      PermutedMultiset(front, rest);
      var q := Permuted(front, rest);
      PermutedSplit(ps, order, j);
      assert q == q[..j] + q[j..];
      assert ps == front + [ps[n - 1]];
      calc {
        multiset(Permuted(ps, order));
        multiset(q[..j]) + multiset{ps[n - 1]} + multiset(q[j..]);
        multiset(q) + multiset{ps[n - 1]};
        multiset(front) + multiset{ps[n - 1]};
        multiset(ps);
      }
    }
  }

  /** The order with entry j, the last index, taken out: a permutation of
      the indexes below n - 1. */
  function WithoutLast(order: seq<nat>, j: nat): (rest: seq<nat>)
    requires IsPermutation(order, |order|) && j < |order| && order[j] == |order| - 1
    ensures |rest| == |order| - 1
    ensures forall a :: 0 <= a < |rest| ==> rest[a] == if a < j then order[a] else order[a + 1]
    ensures IsPermutation(rest, |order| - 1)
  {
    var n := |order|;
    var rest := order[..j] + order[j + 1..];
    assert forall a :: 0 <= a < n - 1 ==> rest[a] == if a < j then order[a] else order[a + 1];
    forall x | 0 <= x < n - 1
      ensures x in rest
    {
      assert x in order;
      var a :| 0 <= a < n && order[a] == x;
      if a < j {
        assert rest[a] == x;
      } else {
        assert rest[a - 1] == x;
      }
    }
    rest
  }

  /** Reseating by `order` is reseating the first n - 1 players by the
      rest of the order, with the last player put back at seat j. */
  lemma PermutedSplit(ps: seq<Player>, order: seq<nat>, j: nat)
    requires IsPermutation(order, |ps|) && j < |ps| && order[j] == |ps| - 1
    ensures var q := Permuted(ps[..|ps| - 1], WithoutLast(order, j));
      Permuted(ps, order) == q[..j] + [ps[|ps| - 1]] + q[j..]
  {
    var q := Permuted(ps[..|ps| - 1], WithoutLast(order, j));
    var p := Permuted(ps, order);
    var r := q[..j] + [ps[|ps| - 1]] + q[j..];
    assert |p| == |r|;
    forall a | 0 <= a < |p|
      ensures p[a] == r[a]
    {
      if a < j {
        assert r[a] == q[a];
      } else if a > j {
        assert r[a] == q[a - 1];
      }
    }
  }

  /** Reseating keeps every id unique. */
  lemma PermutedUnique(ps: seq<Player>, order: seq<nat>)
    requires IsPermutation(order, |ps|) && UniquePlayerIds(ps)
    ensures UniquePlayerIds(Permuted(ps, order))
    ensures PlayerIds(Permuted(ps, order)) == PlayerIds(ps)
  {
    var qs := Permuted(ps, order);
    forall id | id in PlayerIds(ps)
      ensures id in PlayerIds(qs)
    {
      var x :| 0 <= x < |ps| && ps[x].id == id;
      assert x in order;
      var j :| 0 <= j < |order| && order[j] == x;
      assert qs[j].id == id;
    }
  }
}
