/**
 The loop that plays a match against the store. After every round it goes on from the state the store hands
 back, whose history the store has trimmed from its own log.
 */
module Runner {
  import opened Seqs
  import opened Domain
  import opened Quality
  import opened Phases
  import opened Actions
  import opened Resolver
  import opened Frames
  import opened Ledger
  import opened LedgerClosing
  import opened Accounting
  import opened Settlement
  import opened SupplyPipeline
  import opened Window
  import opened MatchStore

  type Accepted = map<RoleID, ActionSubmission>

  function LastActions(previous: Accepted, actions: seq<ActionSubmission>): Accepted
    decreases |actions|
  {
    if |actions| == 0 then previous else LastActions(previous[actions[0].role := actions[0]], actions[1..])
  }

  function LastOfRounds(previous: Accepted, rounds: seq<RoundRecord>): Accepted
    decreases |rounds|
  {
    if |rounds| == 0 then previous else LastOfRounds(LastActions(previous, rounds[0].actions), rounds[1..])
  }

  // The last action of a role, by its place in the history.

  ghost predicate ActsIn(actions: seq<ActionSubmission>, role: RoleID) { exists a :: a in actions && a.role == role }

  ghost predicate LastIn(actions: seq<ActionSubmission>, role: RoleID, a: ActionSubmission) {
    exists i: nat :: && i < |actions| && actions[i] == a && a.role == role
                     && forall j | i < j < |actions| :: actions[j].role != role
  }

  lemma {:induction false} LastActionsAre(previous: Accepted, actions: seq<ActionSubmission>, role: RoleID)
    ensures var m := LastActions(previous, actions);
            if ActsIn(actions, role) then role in m && LastIn(actions, role, m[role])
            else if role in previous then role in m && m[role] == previous[role]
            else role !in m
    decreases |actions|
  {
    if |actions| > 0 {
      var a, rest, m := actions[0], actions[1..], LastActions(previous, actions);
      LastActionsAre(previous[a.role := a], rest, role);
      assert forall x | x in actions :: x == a || x in rest;
      if ActsIn(rest, role) {
        var i: nat :| i < |rest| && rest[i] == m[role] && m[role].role == role && forall j | i < j < |rest| :: rest[j].role != role;
        assert actions[i + 1] == rest[i];
      } else if a.role == role {
        assert actions[0] == m[role] && forall j | 0 < j < |actions| :: actions[j] in rest;
      }
    }
  }

  ghost predicate LastAt(rounds: seq<RoundRecord>, role: RoleID, a: ActionSubmission, i: nat) {
    i < |rounds| && LastIn(rounds[i].actions, role, a) && forall j | i < j < |rounds| :: !ActsIn(rounds[j].actions, role)
  }

  ghost predicate LastInHistory(rounds: seq<RoundRecord>, role: RoleID, a: ActionSubmission) {
    exists i: nat :: LastAt(rounds, role, a, i)
  }

  ghost predicate ActsInHistory(rounds: seq<RoundRecord>, role: RoleID) { exists r :: r in rounds && ActsIn(r.actions, role) }

  lemma HistorySplits(rounds: seq<RoundRecord>, role: RoleID)
    requires |rounds| > 0
    ensures ActsInHistory(rounds, role) <==> ActsIn(rounds[0].actions, role) || ActsInHistory(rounds[1..], role)
  {
    hide ActsIn;
    assert forall x | x in rounds :: x == rounds[0] || x in rounds[1..];
  }

  lemma HistoryCons(rounds: seq<RoundRecord>, role: RoleID, a: ActionSubmission)
    requires |rounds| > 0
    ensures LastInHistory(rounds[1..], role, a) ==> LastInHistory(rounds, role, a)
    ensures LastIn(rounds[0].actions, role, a) && !ActsInHistory(rounds[1..], role) ==> LastInHistory(rounds, role, a)
  {
    hide ActsIn, LastIn, LastAt, ActsInHistory;
    if i: nat :| LastAt(rounds[1..], role, a, i) {
      LaterRound(rounds, role, a, i);
    }
    OnlyRound(rounds, role, a);
  }

  lemma LaterRound(rounds: seq<RoundRecord>, role: RoleID, a: ActionSubmission, i: nat)
    requires |rounds| > 0 && LastAt(rounds[1..], role, a, i)
    ensures LastAt(rounds, role, a, i + 1)
  {
    hide ActsIn, LastIn;
    assert forall j | 0 < j < |rounds| :: rounds[j] == rounds[1..][j - 1];
  }

  lemma OnlyRound(rounds: seq<RoundRecord>, role: RoleID, a: ActionSubmission)
    requires |rounds| > 0
    ensures LastIn(rounds[0].actions, role, a) && !ActsInHistory(rounds[1..], role) ==> LastAt(rounds, role, a, 0)
  {
    hide ActsIn, LastIn;
    assert forall j | 0 < j < |rounds| :: rounds[j] == rounds[1..][j - 1] && rounds[j] in rounds[1..];
  }

  /** The remembered action of a role is its last one in the last round it acted in, and there is none if it never did. */
  lemma {:induction false} PreviousIsLast(previous: Accepted, rounds: seq<RoundRecord>, role: RoleID)
    ensures var m := LastOfRounds(previous, rounds);
            if ActsInHistory(rounds, role) then role in m && LastInHistory(rounds, role, m[role])
            else if role in previous then role in m && m[role] == previous[role]
            else role !in m
    decreases |rounds|
  {
    hide ActsIn, LastIn, LastActions, ActsInHistory, LastInHistory;
    if |rounds| > 0 {
      var m := LastOfRounds(previous, rounds);
      LastActionsAre(previous, rounds[0].actions, role);
      PreviousIsLast(LastActions(previous, rounds[0].actions), rounds[1..], role);
      HistorySplits(rounds, role);
      if role in m {
        HistoryCons(rounds, role, m[role]);
      }
    } else {
      NoHistory(role);
    }
  }

  lemma NoHistory(role: RoleID)
    ensures !ActsInHistory([], role)
  {
  }

  /** `previousAcceptedActions`. */
  method PreviousAcceptedActions(st: MatchState) returns (previous: Accepted)
    ensures previous == LastOfRounds(map[], st.history)
  {
    previous := map[];
    for i := 0 to |st.history|
      invariant LastOfRounds(previous, st.history[i..]) == LastOfRounds(map[], st.history)
    {
      assert st.history[i..][1..] == st.history[i + 1..];
      previous := Remember(previous, st.history[i].actions);
    }
  }

  method Remember(previous: Accepted, actions: seq<ActionSubmission>) returns (next: Accepted)
    ensures next == LastActions(previous, actions)
  {
    next := previous;
    for i := 0 to |actions|
      invariant LastActions(next, actions[i..]) == LastActions(previous, actions)
    {
      assert actions[i..][1..] == actions[i + 1..];
      next := next[actions[i].role := actions[i]];
    }
  }

  // ---------------------------------------------------------------- the loop

  datatype StoredRun = StoredRun(
    st: MatchState, drawn: nat, results: seq<RoundResult>, failed: bool, matches: map<MatchID, StoredMatch>, previous: Accepted)

  /** What one round of the loop hands to the next. */
  datatype Step = Step(result: RoundResult, matches: map<MatchID, StoredMatch>, previous: Accepted)

  function Commit(limit: int, st: MatchState, matches: map<MatchID, StoredMatch>, previous: Accepted, r: RoundResult): Option<Step> {
    if CommitError(matches, st.matchID, r.next, r.record).Some? then None
    else
      var m := Committed(matches[st.matchID], r.next, r.record, limit);
      Some(Step(r.(next := m.state), matches[st.matchID := m], LastActions(previous, r.record.actions)))
  }

  function StoredRound(cfg: Config, limit: int, random: Random, drawn: nat, st: MatchState, matches: map<MatchID, StoredMatch>,
                       previous: Accepted, actions: seq<ActionSubmission>): Option<Step> {
    match Resolve(cfg, random, drawn, st, actions)
    case Err => None
    case Ok(r) => Commit(limit, st, matches, previous, r)
  }

  function PlayStored(cfg: Config, limit: int, random: Random, drawn: nat, st: MatchState, matches: map<MatchID, StoredMatch>,
                      previous: Accepted, inputs: seq<seq<ActionSubmission>>): StoredRun
    decreases |inputs|
  {
    if |inputs| == 0 then StoredRun(st, drawn, [], false, matches, previous)
    else
      match StoredRound(cfg, limit, random, drawn, st, matches, previous, inputs[0])
      case None => StoredRun(st, drawn, [], true, matches, previous)
      case Some(step) =>
        var rest := PlayStored(cfg, limit, random, step.result.drawn, step.result.next, step.matches, step.previous, inputs[1..]);
        rest.(results := [step.result] + rest.results)
  }

  ghost predicate Continues(rest: StoredRun, results: seq<RoundResult>, whole: StoredRun) {
    whole == rest.(results := results + rest.results)
  }

  lemma StepOfRun(cfg: Config, limit: int, random: Random, drawn: nat, st: MatchState, matches: map<MatchID, StoredMatch>,
                  previous: Accepted, inputs: seq<seq<ActionSubmission>>)
    requires |inputs| > 0
    ensures var run := PlayStored(cfg, limit, random, drawn, st, matches, previous, inputs);
            match StoredRound(cfg, limit, random, drawn, st, matches, previous, inputs[0])
            case None => run == StoredRun(st, drawn, [], true, matches, previous)
            case Some(step) =>
              Continues(PlayStored(cfg, limit, random, step.result.drawn, step.result.next, step.matches, step.previous, inputs[1..]),
                        [step.result], run)
  {
    hide StoredRound;
  }

  lemma EndOfRun(cfg: Config, limit: int, random: Random, drawn: nat, st: MatchState, matches: map<MatchID, StoredMatch>, previous: Accepted)
    ensures PlayStored(cfg, limit, random, drawn, st, matches, previous, []) == StoredRun(st, drawn, [], false, matches, previous)
  {
    hide StoredRound;
  }

  lemma ContinuesOn(a: StoredRun, first: seq<RoundResult>, b: StoredRun, second: seq<RoundResult>, c: StoredRun)
    requires Continues(a, second, b) && Continues(b, first, c)
    ensures Continues(a, first + second, c)
  {
    assert first + (second + a.results) == first + second + a.results;
  }

  /** `Play`, with a store. The actions of a round stand for whatever the collector returned. */
  method Play(store: Store, cfg: Config, random: Random, drawn: nat, start: MatchState, inputs: seq<seq<ActionSubmission>>)
    returns (st: MatchState, results: seq<RoundResult>, failed: bool)
    requires store.Valid()
    modifies store
    ensures store.Valid()
    ensures start.matchID == 0 && 0 !in old(store.matches) ==> failed && results == [] && store.matches == old(store.matches)
    ensures start.matchID != 0 || 0 in old(store.matches) ==>
              var known := if start.matchID in old(store.matches) then old(store.matches)
                            else old(store.matches)[start.matchID := Created(start, store.historyLimit)];
              var run := PlayStored(cfg, store.historyLimit, random, drawn, start, known, LastOfRounds(map[], start.history), inputs);
              st == run.st && results == run.results && failed == run.failed && store.matches == run.matches
  {
    hide Resolve, Committed, CommitError, LastActions, LastOfRounds, Store.Valid, Created, StoredRound, PlayStored;
    st, results, failed := start, [], false;
    var previous := PreviousAcceptedActions(start);
    var found := store.CurrentState(start.matchID);
    if found.Failed? {
      var error := store.CreateMatch(start);
      if error.Some? { return start, [], true; }
    }
    ghost var known, first := store.matches, previous;
    var rolled := drawn;
    ghost var whole := PlayStored(cfg, store.historyLimit, random, drawn, start, known, first, inputs);
    assert inputs[0..] == inputs;
    for i := 0 to |inputs|
      invariant store.Valid()
      invariant !failed
      invariant Continues(PlayStored(cfg, store.historyLimit, random, rolled, st, store.matches, previous, inputs[i..]), results, whole)
    {
      assert inputs[i..][1..] == inputs[i + 1..];
      StepOfRun(cfg, store.historyLimit, random, rolled, st, store.matches, previous, inputs[i..]);
      ghost var rest := PlayStored(cfg, store.historyLimit, random, rolled, st, store.matches, previous, inputs[i..]);
      var step := PlayRound(store, cfg, random, rolled, st, previous, inputs[i]);
      if step.None? { return st, results, true; }
      ContinuesOn(PlayStored(cfg, store.historyLimit, random, step.value.result.drawn, step.value.result.next, store.matches,
                             step.value.previous, inputs[i + 1..]), results, rest, [step.value.result], whole);
      results := results + [step.value.result];
      previous, st, rolled := step.value.previous, step.value.result.next, step.value.result.drawn;
    }
    assert inputs[|inputs|..] == [];
    EndOfRun(cfg, store.historyLimit, random, rolled, st, store.matches, previous);
  }

  method PlayRound(store: Store, cfg: Config, random: Random, drawn: nat, st: MatchState, previous: Accepted, actions: seq<ActionSubmission>)
    returns (step: Option<Step>)
    requires store.Valid()
    modifies store
    ensures store.Valid()
    ensures step == StoredRound(cfg, store.historyLimit, random, drawn, st, old(store.matches), previous, actions)
    ensures store.matches == if step.Some? then step.value.matches else old(store.matches)
  {
    hide Resolve, Committed, CommitError, LastActions, Store.Valid;
    var resolved := ResolveRound(cfg, random, drawn, st, actions);
    if resolved.Err? { return None; }
    var r := resolved.value;
    var committed := store.CommitRound(st.matchID, r.next, r.record);
    if committed.Failed? { return None; }
    var next := Remember(previous, r.record.actions);
    return Some(Step(r.(next := committed.value), store.matches, next));
  }

  // ---------------------------------------------------------------- a round keeps its place in the match

  lemma BeforeWorldKeepsPlace(env: Env, p: Phase, actions: seq<ActionSubmission>)
    ensures var q := BeforeWorld(env, p, actions).st;
            q.matchID == p.st.matchID && q.currentRound == p.st.currentRound && q.history == p.st.history && q.roles == p.st.roles
  {
    hide ResolveProcurement, ReceiveSupply, ReleaseInspectionHolds, ProcessCustomerReturns, ResolveProduction, ResolveSales;
    var p1 := ResolveProcurement(env, p, ActionFor(actions, ProcurementManager));
    ProcurementFrame(env, p, ActionFor(actions, ProcurementManager));
    SupplyFrame(env, p1);
    var p2 := ReceiveSupply(env, p1);
    HoldsFrame(env, p2);
    var p3 := ReleaseInspectionHolds(env, p2);
    ReturnsFrame(env, p3);
    var p4 := ProcessCustomerReturns(env, p3);
    ProductionFrame(env, p4, ActionFor(actions, ProductionManager));
    SalesFrame(env, ResolveProduction(env, p4, ActionFor(actions, ProductionManager)), ActionFor(actions, SalesManager));
  }

  /** Every round is recorded under its own number and leads to the next one in the same match. */
  lemma RoundKeepsPlace(cfg: Config, random: Random, drawn: nat, st: MatchState, actions: seq<ActionSubmission>, r: RoundResult)
    requires OrderlyWorld(cfg) && Resolved(cfg, random, drawn, st, actions, r)
    ensures st.matchID != 0 && st.currentRound > 0
    ensures r.next.matchID == st.matchID && r.next.roles == st.roles
    ensures r.record.round == st.currentRound && r.next.currentRound == st.currentRound + 1
    ensures r.next.history == AppendRecent(st.history, r.record, cfg.historyLimit)
  {
    hide BeforeWorld, Finalize, NormalizeActions, ResetCapacity, ComputeMetrics;
    var env, ordered := EnvOf(cfg, random, st), NormalizeActions(st, actions).value;
    var begin := Begin(st, drawn);
    BeforeWorldKeepsPlace(env, begin, ordered);
    var p1 := BeforeWorld(env, begin, ordered);
    if cfg.world.Some? {
      assert OrderlyEffect(p1.st, cfg.world.value(p1.st, ordered, p1.drawn).value);
    }
    FinalizeFrame(env, ApplyWorld(env, p1, ordered).value, ActionFor(ordered, FinanceController));
  }

  // ---------------------------------------------------------------- the store is transparent

  /** The state goes on where the log of its match ends, with the window the store would give it. */
  ghost predicate InStep(m: StoredMatch, st: MatchState, limit: int) {
    && st.history == Tail(m.rounds, limit)
    && (|m.rounds| > 0 ==> m.rounds[|m.rounds| - 1].round < st.currentRound)
  }

  lemma CommitSucceeds(cfg: Config, random: Random, drawn: nat, st: MatchState, matches: map<MatchID, StoredMatch>,
                       previous: Accepted, actions: seq<ActionSubmission>, limit: int)
    requires OrderlyWorld(cfg) && limit > 0 && Resolve(cfg, random, drawn, st, actions).Ok?
    requires st.matchID in matches && InStep(matches[st.matchID], st, limit)
    ensures var r := Resolve(cfg, random, drawn, st, actions).value;
            var step := StoredRound(cfg, limit, random, drawn, st, matches, previous, actions);
            && step.Some?
            && st.matchID in step.value.matches
            && InStep(step.value.matches[st.matchID], step.value.result.next, limit)
            && step.value.matches[st.matchID].rounds == matches[st.matchID].rounds + [r.record]
            && step.value.result == r.(next := step.value.result.next)
            && step.value.result.next.matchID == st.matchID
            && step.value.previous == LastActions(previous, r.record.actions)
            && (cfg.historyLimit == limit ==> step.value.result == r)
            && (Consistent(matches[st.matchID], limit) ==> Consistent(step.value.matches[st.matchID], limit))
            && (Consistent(matches[st.matchID], limit) && Increasing(matches[st.matchID].rounds) ==>
                  Increasing(step.value.matches[st.matchID].rounds))
  {
    hide Resolve, LastActions, Consistent, Increasing, WithSnapshot;
    var r := Resolve(cfg, random, drawn, st, actions).value;
    RoundKeepsPlace(cfg, random, drawn, st, actions, r);
    WindowStep(matches[st.matchID].rounds, r.record, limit);
    if Consistent(matches[st.matchID], limit) {
      CommitKeepsConsistency(matches, st.matchID, r.next, r.record, limit);
    }
  }

  function Records(results: seq<RoundResult>): seq<RoundRecord> {
    if |results| == 0 then [] else [results[0].record] + Records(results[1..])
  }

  lemma RecordsOf(r: RoundResult, rest: seq<RoundResult>)
    ensures Records([r] + rest) == [r.record] + Records(rest)
  {
    assert ([r] + rest)[1..] == rest;
  }

  lemma RefusedRound(cfg: Config, limit: int, random: Random, drawn: nat, st: MatchState, matches: map<MatchID, StoredMatch>,
                     previous: Accepted, actions: seq<ActionSubmission>)
    requires Resolve(cfg, random, drawn, st, actions).Err?
    ensures StoredRound(cfg, limit, random, drawn, st, matches, previous, actions).None?
  {
    hide Resolve;
  }

  /** A round of the stored run is a round of the plain run that keeps the window of the store. */
  lemma StoredStep(cfg: Config, limit: int, random: Random, drawn: nat, st: MatchState, matches: map<MatchID, StoredMatch>,
                   previous: Accepted, actions: seq<ActionSubmission>)
    requires OrderlyWorld(cfg) && limit > 0
    requires st.matchID in matches && InStep(matches[st.matchID], st, limit)
    ensures var plain := Resolve(cfg.(historyLimit := limit), random, drawn, st, actions);
            var step := StoredRound(cfg, limit, random, drawn, st, matches, previous, actions);
            && (plain.Ok? <==> step.Some?)
            && (plain.Ok? ==>
                  && step.value.result == plain.value
                  && plain.value.next.matchID == st.matchID && st.matchID in step.value.matches
                  && InStep(step.value.matches[st.matchID], plain.value.next, limit)
                  && step.value.matches[st.matchID].rounds == matches[st.matchID].rounds + [plain.value.record])
  {
    hide Resolve, OrderlyWorld, InStep, LastActions, StoredRound, Consistent, Increasing;
    OnlyHistoryDiffers(cfg, limit, random, drawn, st, actions);
    if Resolve(cfg, random, drawn, st, actions).Ok? {
      CommitSucceeds(cfg, random, drawn, st, matches, previous, actions, limit);
      var step := StoredRound(cfg, limit, random, drawn, st, matches, previous, actions).value;
      var plain := Resolve(cfg.(historyLimit := limit), random, drawn, st, actions).value;
      OrderlyWithLimit(cfg, limit);
      RoundKeepsPlace(cfg.(historyLimit := limit), random, drawn, st, actions, plain);
      WindowKept(matches[st.matchID], st, step.matches[st.matchID], step.result.next, plain.record, limit);
      CommittedNext(cfg, limit, random, drawn, st, matches, previous, actions);
    } else {
      RefusedRound(cfg, limit, random, drawn, st, matches, previous, actions);
    }
  }

  lemma CommittedNext(cfg: Config, limit: int, random: Random, drawn: nat, st: MatchState, matches: map<MatchID, StoredMatch>,
                      previous: Accepted, actions: seq<ActionSubmission>)
    requires StoredRound(cfg, limit, random, drawn, st, matches, previous, actions).Some?
    ensures var step := StoredRound(cfg, limit, random, drawn, st, matches, previous, actions).value;
            var r := Resolve(cfg, random, drawn, st, actions);
            r.Ok? && step.result.next == r.value.next.(history := step.result.next.history)
  {
    hide Resolve, LastActions, WithSnapshot;
  }

  lemma OrderlyWithLimit(cfg: Config, limit: int)
    requires OrderlyWorld(cfg)
    ensures OrderlyWorld(cfg.(historyLimit := limit))
  {
    hide OrderlyEffect;
  }

  /** The window after one more record, from the store's side and from the resolver's. */
  lemma WindowKept(m: StoredMatch, st: MatchState, n: StoredMatch, next: MatchState, record: RoundRecord, limit: int)
    requires limit > 0 && InStep(m, st, limit) && InStep(n, next, limit) && n.rounds == m.rounds + [record]
    ensures next.history == AppendRecent(st.history, record, limit)
  {
    WindowStep(m.rounds, record, limit);
  }

  /**
   A match played against the store goes exactly as it would without one, under the history limit of the store, whatever
   the limit of the resolver is: no commit fails, the same states and records come out, and the log is extended by the
   records.
   */
  lemma {:induction false} StoreIsTransparent(cfg: Config, limit: int, random: Random, drawn: nat, st: MatchState,
                                              matches: map<MatchID, StoredMatch>, previous: Accepted, inputs: seq<seq<ActionSubmission>>)
    requires OrderlyWorld(cfg) && limit > 0
    requires st.matchID in matches && InStep(matches[st.matchID], st, limit)
    ensures var stored := PlayStored(cfg, limit, random, drawn, st, matches, previous, inputs);
            var run := Resolver.Play(cfg.(historyLimit := limit), random, drawn, st, inputs);
            && stored.st == run.st && stored.drawn == run.drawn && stored.results == run.results && stored.failed == run.failed
            && st.matchID in stored.matches
            && stored.matches[st.matchID].rounds == matches[st.matchID].rounds + Records(run.results)
    decreases |inputs|
  {
    hide Resolve, OrderlyWorld, InStep, LastActions, StoredRound, Records, Consistent, Increasing;
    NoRecords();
    if |inputs| > 0 {
      StoredStep(cfg, limit, random, drawn, st, matches, previous, inputs[0]);
      if Resolve(cfg.(historyLimit := limit), random, drawn, st, inputs[0]).Ok? {
        var r := Resolve(cfg.(historyLimit := limit), random, drawn, st, inputs[0]).value;
        var step := StoredRound(cfg, limit, random, drawn, st, matches, previous, inputs[0]).value;
        StoreIsTransparent(cfg, limit, random, r.drawn, r.next, step.matches, step.previous, inputs[1..]);
        RecordsOf(r, Resolver.Play(cfg.(historyLimit := limit), random, r.drawn, r.next, inputs[1..]).results);
      }
    }
  }

  lemma SoundWithLimit(cfg: Config, limit: int)
    requires ValidConfig(cfg) && SoundHooks(cfg) && limit > 0
    ensures ValidConfig(cfg.(historyLimit := limit)) && SoundHooks(cfg.(historyLimit := limit))
  {
    OrderlyWithLimit(cfg, limit);
    var other := cfg.(historyLimit := limit);
    assert forall s: seq<BacklogEntry> :: other.sort(s) == cfg.sort(s);
  }

  /**
   A match played against a store of any limit is accounted for as a plain run is: the corrected profits explain its net
   worth, every commitment is settled in its round, and every order is delivered in one of its two rounds.
   */
  lemma StoredRunIsAccountedFor(cfg: Config, limit: int, random: Random, drawn: nat, st: MatchState,
                                matches: map<MatchID, StoredMatch>, previous: Accepted, inputs: seq<seq<ActionSubmission>>,
                                c: CashCommitment, lot: SupplyLot)
    requires ValidConfig(cfg) && SoundHooks(cfg) && limit > 0
    requires ValidState(st) && OnSchedule(st) && PipelineOnTime(st)
    requires st.matchID in matches && InStep(matches[st.matchID], st, limit)
    ensures var run := PlayStored(cfg, limit, random, drawn, st, matches, previous, inputs);
            var late := lot.promised + LateRounds(st.suppliers, lot.supplier);
            && ValidState(run.st) && PipelineOnTime(run.st)
            && NetWorth(run.st.plant) - NetWorth(st.plant) == Sum(Profit(), run.results)
            && Count(st.plant.receivables, c) + Sum(RunReceivables(c), run.results) ==
               Sum(RunCollections(c), run.results) + Count(run.st.plant.receivables, c)
            && Count(st.plant.payables, c) + Sum(RunPayables(c), run.results) ==
               Sum(RunPayments(c), run.results) + Count(run.st.plant.payables, c)
            && (run.st.currentRound > c.due ==> Count(run.st.plant.receivables, c) == 0 && Count(run.st.plant.payables, c) == 0)
            && InTransit(st.plant, lot) + Sum(RunOrders(lot), run.results) ==
               Sum(RunReceipts(lot), run.results) + InTransit(run.st.plant, lot)
            && (run.st.currentRound > late ==> InTransit(run.st.plant, lot) == 0)
  {
    hide ValidConfig, OrderlyWorld, PermutingSort, ValidState, OnSchedule, PipelineOnTime, InStep, Sum, NetWorth, InTransit;
    hide PlayStored, Resolver.Play, Records, LateRounds;
    var other := cfg.(historyLimit := limit);
    SoundWithLimit(cfg, limit);
    StoreIsTransparent(cfg, limit, random, drawn, st, matches, previous, inputs);
    ProfitExplainsRun(other, random, drawn, st, inputs);
    ScheduledIsSettledOnce(other, random, drawn, st, inputs, c);
    OrderedIsDeliveredOnce(other, random, drawn, st, inputs, lot);
  }

  lemma NoRecords()
    ensures Records([]) == []
  {
  }

  lemma LastOfMore(previous: Accepted, r: RoundRecord, rest: seq<RoundRecord>)
    ensures LastOfRounds(previous, [r] + rest) == LastOfRounds(LastActions(previous, r.actions), rest)
  {
    assert ([r] + rest)[1..] == rest;
  }

  /**
   Whatever the two limits are, no commit of a run fails: a run that fails does so on a round that cannot be resolved.
   The log grows by exactly the records of the run, its round numbers keep increasing, and the state's history is the
   tail of the log.
   */
  lemma {:induction false} LogOfRun(cfg: Config, limit: int, random: Random, drawn: nat, st: MatchState, matches: map<MatchID, StoredMatch>,
                                    previous: Accepted, inputs: seq<seq<ActionSubmission>>)
    requires OrderlyWorld(cfg) && limit > 0
    requires st.matchID in matches && Increasing(matches[st.matchID].rounds) && InStep(matches[st.matchID], st, limit)
    requires Consistent(matches[st.matchID], limit)
    ensures var run := PlayStored(cfg, limit, random, drawn, st, matches, previous, inputs);
            && st.matchID in run.matches
            && Consistent(run.matches[st.matchID], limit)
            && Increasing(run.matches[st.matchID].rounds)
            && InStep(run.matches[st.matchID], run.st, limit)
            && run.matches[st.matchID].rounds == matches[st.matchID].rounds + Records(run.results)
            && (!run.failed ==> |run.results| == |inputs|)
            && (run.failed ==> |run.results| < |inputs| &&
                               Resolve(cfg, random, run.drawn, run.st, inputs[|run.results|]).Err?)
            && run.previous == LastOfRounds(previous, Records(run.results))
    decreases |inputs|
  {
    hide Resolve, OrderlyWorld, InStep, LastActions, StoredRound, Records, Consistent, Increasing;
    NoRecords();
    if |inputs| > 0 {
      if Resolve(cfg, random, drawn, st, inputs[0]).Ok? {
        CommitSucceeds(cfg, random, drawn, st, matches, previous, inputs[0], limit);
        var step := StoredRound(cfg, limit, random, drawn, st, matches, previous, inputs[0]).value;
        LogOfRun(cfg, limit, random, step.result.drawn, step.result.next, step.matches, step.previous, inputs[1..]);
        var rest := PlayStored(cfg, limit, random, step.result.drawn, step.result.next, step.matches, step.previous, inputs[1..]);
        RecordsOf(step.result, rest.results);
        LastOfMore(previous, step.result.record, Records(rest.results));
      } else {
        RefusedRound(cfg, limit, random, drawn, st, matches, previous, inputs[0]);
      }
    }
  }
}
