/**
 The in-memory match store: an append-only log of rounds, and everything derived from it that is kept beside
 it. The derived copies always agree with the log.
 */
module MatchStore {
  import opened Seqs
  import opened Domain

  datatype StoreError = EmptyMatchID | MatchExists | MatchNotFound | OtherMatch | BadRound | RoundNotNewer | RoundNotFound

  datatype Outcome<+T> = Done(value: T) | Failed(error: StoreError)

  datatype StoredMatch = StoredMatch(
    state: MatchState,
    snapshots: seq<MatchState>,
    rounds: seq<RoundRecord>,
    events: seq<Event>,
    commentary: seq<Commentary>)

  function NormalizedHistoryLimit(limit: int): int { if limit <= 0 then 10 else limit }

  function FlattenEvents(rounds: seq<RoundRecord>): seq<Event> {
    if |rounds| == 0 then [] else rounds[0].events + FlattenEvents(rounds[1..])
  }

  function FlattenCommentary(rounds: seq<RoundRecord>): seq<Commentary> {
    if |rounds| == 0 then [] else rounds[0].commentary + FlattenCommentary(rounds[1..])
  }

  lemma {:induction false} EventsPush(rounds: seq<RoundRecord>, r: RoundRecord)
    ensures FlattenEvents(rounds + [r]) == FlattenEvents(rounds) + r.events
  {
    var all := rounds + [r];
    if |rounds| == 0 {
      assert all == [r] && all[1..] == [];
      assert FlattenEvents(all) == r.events + [];
    } else {
      assert all[1..] == rounds[1..] + [r];
      EventsPush(rounds[1..], r);
      assert FlattenEvents(all) == rounds[0].events + (FlattenEvents(rounds[1..]) + r.events);
    }
  }

  lemma {:induction false} CommentaryPush(rounds: seq<RoundRecord>, r: RoundRecord)
    ensures FlattenCommentary(rounds + [r]) == FlattenCommentary(rounds) + r.commentary
  {
    var all := rounds + [r];
    if |rounds| == 0 {
      assert all == [r] && all[1..] == [];
      assert FlattenCommentary(all) == r.commentary + [];
    } else {
      assert all[1..] == rounds[1..] + [r];
      CommentaryPush(rounds[1..], r);
      assert FlattenCommentary(all) == rounds[0].commentary + (FlattenCommentary(rounds[1..]) + r.commentary);
    }
  }

  // ---------------------------------------------------------------- snapshots

  function SnapshotIndex(states: seq<MatchState>, round: int): (i: nat)
    ensures i <= |states|
    ensures i < |states| ==> states[i].currentRound == round
    ensures forall j | 0 <= j < i :: states[j].currentRound != round
  {
    if |states| == 0 || states[0].currentRound == round then 0 else 1 + SnapshotIndex(states[1..], round)
  }

  function WithSnapshot(states: seq<MatchState>, next: MatchState): seq<MatchState> {
    var i := SnapshotIndex(states, next.currentRound);
    if i < |states| then states[i := next] else states + [next]
  }

  ghost predicate OneSnapshotPerRound(states: seq<MatchState>) {
    forall i, j | 0 <= i < j < |states| :: states[i].currentRound != states[j].currentRound
  }

  // ---------------------------------------------------------------- the invariant

  ghost predicate Increasing(rounds: seq<RoundRecord>) {
    forall i, j | 0 <= i < j < |rounds| :: rounds[i].round < rounds[j].round
  }

  /** All that is kept beside the log is a function of the log; the current state is among the snapshots. */
  ghost predicate Consistent(m: StoredMatch, limit: int) {
    && m.state.history == Tail(m.rounds, limit)
    && m.events == FlattenEvents(m.rounds)
    && m.commentary == FlattenCommentary(m.rounds)
    && OneSnapshotPerRound(m.snapshots)
    && m.state in m.snapshots
  }

  // ---------------------------------------------------------------- what the operations do

  function Created(initial: MatchState, limit: int): StoredMatch {
    var state := initial.(history := Tail(initial.history, limit));
    StoredMatch(state, [state], state.history, FlattenEvents(state.history), FlattenCommentary(state.history))
  }

  function Committed(m: StoredMatch, next: MatchState, round: RoundRecord, limit: int): StoredMatch {
    var rounds := m.rounds + [round];
    var state := next.(history := Tail(rounds, limit));
    StoredMatch(state, WithSnapshot(m.snapshots, state), rounds, m.events + round.events, m.commentary + round.commentary)
  }

  /** The errors of a commit, in the order in which they are found. */
  function CommitError(matches: map<MatchID, StoredMatch>, id: MatchID, next: MatchState, round: RoundRecord): Option<StoreError> {
    if id == 0 then Some(EmptyMatchID)
    else if next.matchID != id then Some(OtherMatch)
    else if round.round <= 0 then Some(BadRound)
    else if id !in matches then Some(MatchNotFound)
    else
      var rounds := matches[id].rounds;
      if |rounds| > 0 && round.round <= rounds[|rounds| - 1].round then Some(RoundNotNewer) else None
  }

  /**
   A commit is accepted if and only if it is for a match of the store, carries that match's state, and its round is positive
   and newer than every round of the log; the first of these that fails names the error.
   */
  lemma CommitAcceptedExactlyWhen(matches: map<MatchID, StoredMatch>, id: MatchID, next: MatchState, round: RoundRecord)
    requires id in matches ==> Increasing(matches[id].rounds)
    ensures var error := CommitError(matches, id, next, round);
            && (error.None? <==> id != 0 && next.matchID == id && round.round > 0 && id in matches
                                 && forall r | r in matches[id].rounds :: r.round < round.round)
            && (error == Some(EmptyMatchID) <==> id == 0)
            && (error == Some(OtherMatch) <==> id != 0 && next.matchID != id)
            && (error == Some(BadRound) <==> id != 0 && next.matchID == id && round.round <= 0)
            && (error == Some(MatchNotFound) <==> id != 0 && next.matchID == id && round.round > 0 && id !in matches)
  {
    if id in matches {
      var rounds := matches[id].rounds;
      forall r | r in rounds ensures r.round <= rounds[|rounds| - 1].round {
        var i :| 0 <= i < |rounds| && rounds[i] == r;
        assert i < |rounds| - 1 ==> rounds[i].round < rounds[|rounds| - 1].round;
      }
      assert |rounds| > 0 ==> rounds[|rounds| - 1] in rounds;
    }
  }

  lemma CreatedIsConsistent(initial: MatchState, limit: int)
    requires limit > 0
    ensures Consistent(Created(initial, limit), limit)
    ensures Increasing(initial.history) ==> Increasing(Created(initial, limit).rounds)
    ensures Created(initial, limit).rounds == Tail(initial.history, limit)
  {
  }

  lemma SnapshotsStayUnique(states: seq<MatchState>, next: MatchState)
    requires OneSnapshotPerRound(states)
    ensures OneSnapshotPerRound(WithSnapshot(states, next)) && next in WithSnapshot(states, next)
    ensures forall s | s in states && s.currentRound != next.currentRound :: s in WithSnapshot(states, next)
    ensures forall s | s in WithSnapshot(states, next) :: s == next || s in states
    ensures |states| <= |WithSnapshot(states, next)|
    ensures forall i | 0 <= i < |states| && states[i].currentRound != next.currentRound :: WithSnapshot(states, next)[i] == states[i]
  {
    var i, after := SnapshotIndex(states, next.currentRound), WithSnapshot(states, next);
    assert i < |states| ==> after[i] == next;
    assert i == |states| ==> after[i] == next;
    forall s | s in states && s.currentRound != next.currentRound ensures s in after {
      var j :| 0 <= j < |states| && states[j] == s;
      assert after[j] == s;
    }
  }

  lemma IncreasingPush(rounds: seq<RoundRecord>, r: RoundRecord)
    requires Increasing(rounds) && (|rounds| > 0 ==> rounds[|rounds| - 1].round < r.round)
    ensures Increasing(rounds + [r])
  {
    forall i | 0 <= i < |rounds| ensures rounds[i].round < r.round {
      assert i < |rounds| - 1 ==> rounds[i].round < rounds[|rounds| - 1].round;
    }
  }

  /** A commit keeps the derived copies in step with the log, and accepted rounds strictly increasing. */
  lemma CommitKeepsConsistency(matches: map<MatchID, StoredMatch>, id: MatchID, next: MatchState, round: RoundRecord, limit: int)
    requires id in matches && Consistent(matches[id], limit) && CommitError(matches, id, next, round).None?
    ensures Consistent(Committed(matches[id], next, round, limit), limit)
    ensures Increasing(matches[id].rounds) ==> Increasing(Committed(matches[id], next, round, limit).rounds)
    ensures var before, after := matches[id], Committed(matches[id], next, round, limit);
            && after.rounds == before.rounds + [round] && after.state == next.(history := after.state.history)
            && (forall s | s in before.snapshots && s.currentRound != next.currentRound :: s in after.snapshots)
            && (forall s | s in after.snapshots :: s == after.state || s in before.snapshots)
  {
    var m := matches[id];
    EventsPush(m.rounds, round);
    CommentaryPush(m.rounds, round);
    SnapshotsStayUnique(m.snapshots, next.(history := Tail(m.rounds + [round], limit)));
    if Increasing(m.rounds) {
      IncreasingPush(m.rounds, round);
    }
  }

  // ---------------------------------------------------------------- the store

  class Store {
    const historyLimit: int
    var matches: map<MatchID, StoredMatch>

    ghost predicate Valid()
      reads this
    {
      historyLimit > 0 && forall id | id in matches :: Consistent(matches[id], historyLimit)
    }

    constructor (recentHistoryLimit: int)
      ensures Valid() && matches == map[] && historyLimit == NormalizedHistoryLimit(recentHistoryLimit)
      ensures historyLimit == (if recentHistoryLimit > 0 then recentHistoryLimit else 10)
    {
      historyLimit := NormalizedHistoryLimit(recentHistoryLimit);
      matches := map[];
    }

    method CreateMatch(initial: MatchState) returns (error: Option<StoreError>)
      requires Valid()
      modifies this
      ensures Valid()
      ensures error == (if initial.matchID == 0 then Some(EmptyMatchID)
                        else if initial.matchID in old(matches) then Some(MatchExists) else None)
      ensures matches == if error.Some? then old(matches)
                         else old(matches)[initial.matchID := Created(initial, historyLimit)]
    {
      hide Consistent, Increasing;
      if initial.matchID == 0 { return Some(EmptyMatchID); }
      if initial.matchID in matches { return Some(MatchExists); }
      CreatedIsConsistent(initial, historyLimit);
      var history := Tail(initial.history, historyLimit);
      var state := initial.(history := history);
      var events := AllEvents(history);
      var commentary := AllCommentary(history);
      matches := matches[initial.matchID := StoredMatch(state, [state], history, events, commentary)];
      return None;
    }

    method CommitRound(id: MatchID, next: MatchState, round: RoundRecord) returns (outcome: Outcome<MatchState>)
      requires Valid()
      modifies this
      ensures Valid()
      ensures outcome.Failed? <==> CommitError(old(matches), id, next, round).Some?
      ensures outcome.Failed? ==> CommitError(old(matches), id, next, round) == Some(outcome.error) && matches == old(matches)
      ensures outcome.Done? ==>
                && matches == old(matches)[id := Committed(old(matches)[id], next, round, historyLimit)]
                && outcome.value == matches[id].state
    {
      hide Consistent, Increasing;
      if id == 0 { return Failed(EmptyMatchID); }
      if next.matchID != id { return Failed(OtherMatch); }
      if round.round <= 0 { return Failed(BadRound); }
      if id !in matches { return Failed(MatchNotFound); }
      var m := matches[id];
      if |m.rounds| > 0 {
        var last := m.rounds[|m.rounds| - 1].round;
        if round.round <= last { return Failed(RoundNotNewer); }
      }
      CommitKeepsConsistency(matches, id, next, round, historyLimit);
      var rounds := m.rounds + [round];
      var state := next.(history := Tail(rounds, historyLimit));
      var snapshots := AppendOrReplaceSnapshot(m.snapshots, state);
      matches := matches[id := StoredMatch(state, snapshots, rounds, m.events + round.events, m.commentary + round.commentary)];
      return Done(state);
    }

    /** The round with this number; in an increasing log there is at most one. */
    method Round(id: MatchID, number: int) returns (outcome: Outcome<RoundRecord>)
      requires Valid()
      ensures id !in matches ==> outcome == Failed(MatchNotFound)
      ensures id in matches && outcome.Failed? ==>
                outcome.error == RoundNotFound && forall r | r in matches[id].rounds :: r.round != number
      ensures outcome.Done? ==> id in matches && outcome.value in matches[id].rounds && outcome.value.round == number
      ensures outcome.Done? && Increasing(matches[id].rounds) ==>
                forall r | r in matches[id].rounds && r.round == number :: r == outcome.value
    {
      hide Consistent;
      if id !in matches { return Failed(MatchNotFound); }
      var rounds := matches[id].rounds;
      for i := 0 to |rounds|
        invariant forall j | 0 <= j < i :: rounds[j].round != number
      {
        if rounds[i].round == number { return Done(rounds[i]); }
      }
      return Failed(RoundNotFound);
    }

    method CurrentState(id: MatchID) returns (outcome: Outcome<MatchState>)
      ensures outcome == if id in matches then Done(matches[id].state) else Failed(MatchNotFound)
    {
      if id !in matches { return Failed(MatchNotFound); }
      return Done(matches[id].state);
    }
  }

  method AllEvents(rounds: seq<RoundRecord>) returns (events: seq<Event>)
    ensures events == FlattenEvents(rounds)
  {
    events := [];
    for i := 0 to |rounds|
      invariant events == FlattenEvents(rounds[..i])
    {
      EventsPush(rounds[..i], rounds[i]);
      assert rounds[..i] + [rounds[i]] == rounds[..i + 1];
      events := events + rounds[i].events;
    }
    assert rounds[..|rounds|] == rounds;
  }

  method AllCommentary(rounds: seq<RoundRecord>) returns (commentary: seq<Commentary>)
    ensures commentary == FlattenCommentary(rounds)
  {
    commentary := [];
    for i := 0 to |rounds|
      invariant commentary == FlattenCommentary(rounds[..i])
    {
      CommentaryPush(rounds[..i], rounds[i]);
      assert rounds[..i] + [rounds[i]] == rounds[..i + 1];
      commentary := commentary + rounds[i].commentary;
    }
    assert rounds[..|rounds|] == rounds;
  }

  method AppendOrReplaceSnapshot(states: seq<MatchState>, next: MatchState) returns (after: seq<MatchState>)
    ensures after == WithSnapshot(states, next)
  {
    for i := 0 to |states|
      invariant forall j | 0 <= j < i :: states[j].currentRound != next.currentRound
    {
      if states[i].currentRound == next.currentRound {
        return states[i := next];
      }
    }
    return states + [next];
  }

  // ---------------------------------------------------------------- two windows on one log

  /** Trimming a trimmed log again, one round later, is trimming the log. */
  lemma WindowStep(log: seq<RoundRecord>, r: RoundRecord, limit: int)
    requires limit > 0
    ensures Tail(Tail(log, limit) + [r], limit) == Tail(log + [r], limit)
  {
  }

  /** The store trims its own log, the resolver trims the window the store left it. */
  ghost predicate SameWindow(log: seq<RoundRecord>, r: RoundRecord, storeLimit: int, resolverLimit: int) {
    Tail(Tail(log, storeLimit) + [r], resolverLimit) == Tail(log + [r], storeLimit)
  }

  /** Store and resolver agree on every log if and only if they keep the same number of rounds. */
  lemma WindowsAgreeExactly(storeLimit: int, resolverLimit: int)
    requires storeLimit > 0 && resolverLimit > 0
    ensures (forall log: seq<RoundRecord>, r: RoundRecord :: SameWindow(log, r, storeLimit, resolverLimit))
            <==> storeLimit == resolverLimit
  {
    if storeLimit == resolverLimit {
      forall log: seq<RoundRecord>, r: RoundRecord ensures SameWindow(log, r, storeLimit, resolverLimit) {
        WindowStep(log, r, storeLimit);
      }
    } else {
      var r := RoundRecord(1, [], [], [], None);
      var log := seq(storeLimit, i requires 0 <= i < storeLimit => r);
      assert |Tail(log + [r], storeLimit)| == storeLimit;
      assert |Tail(Tail(log, storeLimit) + [r], resolverLimit)| == Min(storeLimit + 1, resolverLimit);
      assert !SameWindow(log, r, storeLimit, resolverLimit);
    }
  }
}
