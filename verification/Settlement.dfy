/**
 When commitments are settled. Nothing in a state is overdue, and every receivable and payable is settled
 once, in the very round it falls due, over whole runs.
 */
module Settlement {
  import opened Seqs
  import opened Domain
  import opened Cash
  import opened Inventory
  import opened Labor
  import opened Quality
  import opened Phases
  import opened Actions
  import opened Resolver
  import opened Ledger
  import opened LedgerPhases
  import opened LedgerClosing
  import opened Frames
  import opened Accounting

  // ---------------------------------------------------------------- growth during a round

  /** A list grew only by commitments of this round that fall due later. */
  ghost predicate Grown(a: seq<CashCommitment>, b: seq<CashCommitment>, round: int) {
    a <= b && forall i | |a| <= i < |b| :: b[i].created == round < b[i].due
  }

  ghost predicate GrownReturns(a: seq<CustomerReturn>, b: seq<CustomerReturn>, round: int) {
    a <= b && forall i | |a| <= i < |b| :: b[i].created == round < b[i].due
  }

  lemma FilterGrown(a: seq<CashCommitment>, b: seq<CashCommitment>, round: int)
    requires Grown(a, b, round)
    ensures Grown(Filter(Open(round), a), Filter(Open(round), b), round)
    ensures Filter(Matured(round), b) == Filter(Matured(round), a)
  {
    var added := b[|a|..];
    assert b == a + added;
    assert forall c | c in added :: c.created == round < c.due;
    FilterConcat(Open(round), a, added);
    FilterConcat(Matured(round), a, added);
    FilterAll(Open(round), added);
    FilterNone(Matured(round), added);
  }

  lemma SchedulePayableGrows(env: Env, p: Phase, amount: int)
    requires ValidConfig(env.cfg)
    ensures Grown(p.st.plant.payables, SchedulePayable(env, p, amount).st.plant.payables, env.round)
  {
    hide ProjectCashDelta;
  }

  lemma ProcurementGrows(env: Env, p: Phase, action: Option<ActionSubmission>)
    requires ValidConfig(env.cfg)
    ensures Grown(p.st.plant.payables, ResolveProcurement(env, p, action).st.plant.payables, env.round)
  {
    hide PlaceOrders, SchedulePayable;
    if action.Some? && action.value.action.procurement.Some? {
      var cap, id, orders := CappedBudget(p.st.targets.procurementBudget), action.value.id,
                             action.value.action.procurement.value;
      PlaceOrdersFrame(env, Buying(p, 0), cap, id, 1, orders);
      var b := PlaceOrders(env, Buying(p, 0), cap, id, 1, orders);
      SchedulePayableGrows(env, b.p, b.spent);
    }
  }

  lemma ShipEntryGrows(env: Env, s: Selling, prices: map<ProductID, int>, entry: BacklogEntry)
    ensures var t := ShipEntry(env, s, prices, entry);
            && Grown(s.p.st.plant.receivables, t.p.st.plant.receivables, env.round)
            && GrownReturns(s.p.st.plant.pendingReturns, t.p.st.plant.pendingReturns, env.round)
  {
    hide Take, QtyOf, CostOf, ReturnQuantity, Normalized, DrawnForReturns, ProjectCashDelta, PaymentDelay, Price;
  }

  lemma {:induction false} ShipAllGrows(env: Env, s: Selling, prices: map<ProductID, int>, entries: seq<BacklogEntry>)
    ensures var t := ShipAll(env, s, prices, entries);
            && Grown(s.p.st.plant.receivables, t.p.st.plant.receivables, env.round)
            && GrownReturns(s.p.st.plant.pendingReturns, t.p.st.plant.pendingReturns, env.round)
    decreases |entries|
  {
    hide ShipEntry;
    if |entries| > 0 {
      ShipEntryGrows(env, s, prices, entries[0]);
      ShipAllGrows(env, ShipEntry(env, s, prices, entries[0]), prices, entries[1..]);
    }
  }

  lemma SalesGrow(env: Env, p: Phase, action: Option<ActionSubmission>)
    ensures var q := ResolveSales(env, p, action);
            && Grown(p.st.plant.receivables, q.st.plant.receivables, env.round)
            && GrownReturns(p.st.plant.pendingReturns, q.st.plant.pendingReturns, env.round)
  {
    hide ShipAll, SyncCustomers, EffectiveBacklog;
    ShipAllGrows(env, Selling(p, [], []), SalesPrices(action), env.cfg.sort(EffectiveBacklog(p.st)));
  }

  // ---------------------------------------------------------------- holds

  predicate SameHold(g: InspectionHold, h: InspectionHold) {
    g.product == h.product && g.release == h.release && g.reason == h.reason
  }

  /** Holds are merged per product, release round and reason. */
  ghost predicate DistinctHolds(holds: seq<InspectionHold>) {
    forall i, j | 0 <= i < j < |holds| :: !SameHold(holds[i], holds[j])
  }

  /** Nothing is released before a later round; and the holds are distinct, where that is asked for. */
  ghost predicate HeldAs(holds: seq<InspectionHold>, round: int, unique: bool) {
    (forall h | h in holds :: h.release > round) && (unique ==> DistinctHolds(holds))
  }

  lemma AddHoldBeyond(holds: seq<InspectionHold>, product: ProductID, qty: int, cost: int, held: int, release: int,
                      reason: HoldReason, round: int, unique: bool)
    requires HeldAs(holds, round, unique) && release > round
    ensures HeldAs(AddHold(holds, product, qty, cost, held, release, reason), round, unique)
  {
  }

  lemma {:induction false} AcceptReturnsHold(env: Env, p: Phase, items: seq<CustomerReturn>, unique: bool)
    requires HeldAs(p.st.plant.holds, env.round, unique)
    ensures HeldAs(AcceptReturns(env, p, items).st.plant.holds, env.round, unique)
    decreases |items|
  {
    hide AddHold, Disappoint, HeldAs;
    if |items| > 0 {
      var item := items[0];
      AddHoldBeyond(p.st.plant.holds, item.product, item.qty, item.cost, env.round, env.round + 1, CustomerReturned, env.round, unique);
      AcceptReturnsHold(env, AcceptReturn(env, p, item), items[1..], unique);
    }
  }

  lemma CompleteHolds(env: Env, p: Phase, key: WipKey, qty: int, cost: int, overtime: bool, unique: bool)
    requires HeldAs(p.st.plant.holds, env.round, unique)
    ensures HeldAs(CompleteUnits(env, p, key, qty, cost, overtime).st.plant.holds, env.round, unique)
  {
    hide Add, AddHold, FinishedSplit, Normalized, HeldAs;
    var ctx := FinalInspection(key.product, key.station, qty, key.station in p.stressed, overtime);
    var profile := Normalized(env.cfg.quality(p.st, env.round, ctx));
    var split := FinishedSplit(qty, profile, env.random, p.drawn);
    AddHoldBeyond(p.st.plant.holds, key.product, split.hold, cost, env.round, env.round + Max(profile.holdRounds, 1),
                  ProductionQuality, env.round, unique);
  }

  lemma AdvanceHolds(env: Env, s: Producing, cap: int, a: CapacityAllocation, unique: bool)
    requires HeldAs(s.p.st.plant.holds, env.round, unique)
    ensures HeldAs(Advance(env, s, cap, a).p.st.plant.holds, env.round, unique)
  {
    hide PlanAdvance, CompleteUnits, Take, TakeCost, Add, OvertimeUsed, StressedCapacity, ConsumeLabor, HeldAs;
    var i := StationIndex(s.p.st.plant.stations, a.station);
    if a.capacity > 0 && i < |s.p.st.plant.stations| {
      var p := MeasureStress(s.p, i);
      var plan := PlanAdvance(env, p, i, At(s.overtime, a.station), cap, s.spent, a);
      if plan.advance > 0 {
        var key := WipKey(a.product, a.station);
        var cost := PerUnitCost(TakeCost(p.st.plant.wip, key, plan.advance, 0), plan.advance);
        var overtime := OvertimeUsed(p.st.plant.stations[i], plan.advance, At(s.overtime, a.station)) > 0;
        var booked := BookAdvance(s.(p := TakeWip(p, key, plan.advance)), i, plan);
        CompleteHolds(env, booked.p, key, plan.advance, cost, overtime, unique);
      }
    }
  }

  lemma {:induction false} AdvanceAllHolds(env: Env, s: Producing, cap: int, allocations: seq<CapacityAllocation>, unique: bool)
    requires HeldAs(s.p.st.plant.holds, env.round, unique)
    ensures HeldAs(AdvanceAll(env, s, cap, allocations).p.st.plant.holds, env.round, unique)
    decreases |allocations|
  {
    hide Advance, HeldAs;
    if |allocations| > 0 {
      AdvanceHolds(env, s, cap, allocations[0], unique);
      AdvanceAllHolds(env, Advance(env, s, cap, allocations[0]), cap, allocations[1..], unique);
    }
  }

  lemma ProductionHolds(env: Env, p: Phase, action: Option<ActionSubmission>, unique: bool)
    requires HeldAs(p.st.plant.holds, env.round, unique)
    ensures HeldAs(ResolveProduction(env, p, action).st.plant.holds, env.round, unique)
  {
    hide ReleaseAll, AdvanceAll, RequestOvertime, ProjectCashDelta, HeldAs;
    if action.Some? && action.value.action.production.Some? && |p.st.plant.stations| > 0 {
      var todo := action.value.action.production.value;
      var first, overtime := p.st.plant.stations[0].id, RequestOvertime(map[], todo.overtime);
      ReleaseAllFrame(env, p, first, todo.releases);
      var released := ReleaseAll(env, p, first, todo.releases);
      AdvanceAllHolds(env, Producing(released, overtime, 0), CappedBudget(released.st.targets.productionSpendBudget),
                      todo.allocations, unique);
    }
  }

  // ---------------------------------------------------------------- the round

  /** What the lists of a plant look like to the end of the round, relative to its beginning. */
  ghost predicate Maturing(a: Plant, b: Plant, round: int) {
    && Grown(a.receivables, b.receivables, round)
    && Grown(a.payables, b.payables, round)
    && GrownReturns(Filter(DueAfter(round), a.pendingReturns), b.pendingReturns, round)
    && HeldAs(b.holds, round, DistinctHolds(a.holds))
  }

  lemma ReturnsMature(env: Env, p: Phase, unique: bool)
    requires HeldAs(p.st.plant.holds, env.round, unique)
    ensures var q := ProcessCustomerReturns(env, p);
            && HeldAs(q.st.plant.holds, env.round, unique)
            && q.st.plant.pendingReturns == Filter(DueAfter(env.round), p.st.plant.pendingReturns)
  {
    hide AcceptReturns, Filter, SyncCustomers, HeldAs;
    var items := p.st.plant.pendingReturns;
    var q := p.WithPlant(p.st.plant.(pendingReturns := Filter(DueAfter(env.round), items)));
    AcceptReturnsHold(env, q, Filter(DueBy(env.round), items), unique);
    AcceptReturnsFrame(env, q, Filter(DueBy(env.round), items));
  }

  lemma HoldsMature(env: Env, p: Phase)
    ensures HeldAs(ReleaseInspectionHolds(env, p).st.plant.holds, env.round, DistinctHolds(p.st.plant.holds))
  {
    hide ReleaseHolds, Filter, DistinctHolds;
    FilterMembers(HeldUntil(env.round), p.st.plant.holds);
    if DistinctHolds(p.st.plant.holds) {
      FilterDistinct(HeldUntil(env.round), p.st.plant.holds);
    }
  }

  lemma {:induction false} FilterDistinct(keep: InspectionHold -> bool, holds: seq<InspectionHold>)
    requires DistinctHolds(holds)
    ensures DistinctHolds(Filter(keep, holds))
  {
    if |holds| > 0 {
      var rest := holds[1..];
      assert forall i | 0 <= i < |rest| :: rest[i] == holds[i + 1];
      FilterDistinct(keep, rest);
      FilterMembers(keep, rest);
      var kept := Filter(keep, rest);
      forall j | 0 <= j < |kept| ensures !SameHold(holds[0], kept[j]) {
        assert kept[j] in kept;
        var k :| 0 <= k < |rest| && rest[k] == kept[j];
        assert !SameHold(holds[0], holds[k + 1]);
      }
    }
  }

  lemma BeforeWorldMatures(env: Env, p: Phase, actions: seq<ActionSubmission>)
    requires ValidConfig(env.cfg)
    ensures Maturing(p.st.plant, BeforeWorld(env, p, actions).st.plant, env.round)
    ensures BeforeWorld(env, p, actions).st.currentRound == p.st.currentRound
    ensures BeforeWorld(env, p, actions).st.matchID == p.st.matchID
  {
    hide ResolveProcurement, ReceiveSupply, ReleaseInspectionHolds, ProcessCustomerReturns, ResolveProduction, ResolveSales;
    hide Filter, HeldAs, Grown;
    var action := ActionFor(actions, ProcurementManager);
    var p1 := ResolveProcurement(env, p, action);
    ProcurementGrows(env, p, action);
    ProcurementFrame(env, p, action);
    var p2 := ReceiveSupply(env, p1);
    SupplyFrame(env, p1);
    var p3 := ReleaseInspectionHolds(env, p2);
    HoldsFrame(env, p2);
    HoldsMature(env, p2);
    var p4 := ProcessCustomerReturns(env, p3);
    ReturnsFrame(env, p3);
    ReturnsMature(env, p3, DistinctHolds(p.st.plant.holds));
    var production := ActionFor(actions, ProductionManager);
    var p5 := ResolveProduction(env, p4, production);
    ProductionFrame(env, p4, production);
    ProductionHolds(env, p4, production, DistinctHolds(p.st.plant.holds));
    var sales := ActionFor(actions, SalesManager);
    SalesFrame(env, p5, sales);
    SalesGrow(env, p5, sales);
  }

  lemma WorldMatures(env: Env, p: Phase, actions: seq<ActionSubmission>)
    requires OrderlyWorld(env.cfg) && ApplyWorld(env, p, actions).Ok?
    ensures var q := ApplyWorld(env, p, actions).value;
            && q.st == p.st.(customers := q.st.customers, plant := p.st.plant.(backlog := q.st.plant.backlog))
            && SameCustomers(p.st.customers, q.st.customers)
  {
    if env.cfg.world.Some? {
      assert OrderlyEffect(p.st, env.cfg.world.value(p.st, actions, p.drawn).value);
    }
  }

  /** `payPayablesDue` runs before payroll is scheduled, so payroll of this round stays for later. */
  lemma FinalizeLists(env: Env, p: Phase, action: Option<ActionSubmission>)
    requires ValidConfig(env.cfg)
    ensures var q := Finalize(env, p, action);
            && q.st.plant.receivables == Filter(Open(env.round), p.st.plant.receivables)
            && Grown(Filter(Open(env.round), p.st.plant.payables), q.st.plant.payables, env.round)
            && q.st.plant.pendingReturns == p.st.plant.pendingReturns
            && q.st.plant.holds == p.st.plant.holds
            && q.st.currentRound == p.st.currentRound && q.st.matchID == p.st.matchID
  {
    hide AgeBacklog, CollectReceivablesDue, PayPayablesDue, Sum, HoldingCost, CarryingCost, ProjectCashDelta, Filter;
    AgingFrame(env, p);
    var p1 := AdoptTargets(env, AgeBacklog(env, p), action);
    CollectFrame(env, p1);
    var p2 := CollectReceivablesDue(env, p1);
    PayFrame(env, p2);
    FinalizeFrame(env, p, action);
  }

  /** The commitment lists of a state, before and after a round. */
  ghost predicate Rolled(a: Plant, b: Plant, round: int) {
    && Grown(Filter(Open(round), a.receivables), b.receivables, round)
    && Grown(Filter(Open(round), a.payables), b.payables, round)
    && GrownReturns(Filter(DueAfter(round), a.pendingReturns), b.pendingReturns, round)
    && HeldAs(b.holds, round, DistinctHolds(a.holds))
  }

  lemma RoundRolls(cfg: Config, random: Random, drawn: nat, st: MatchState, actions: seq<ActionSubmission>, r: RoundResult)
    requires ValidConfig(cfg) && OrderlyWorld(cfg) && Resolved(cfg, random, drawn, st, actions, r)
    ensures Rolled(st.plant, r.next.plant, st.currentRound)
    ensures r.next.currentRound == st.currentRound + 1 && r.next.matchID == st.matchID
    ensures var p := Settlers(cfg, random, drawn, st, NormalizeActions(st, actions).value);
            && Filter(Matured(st.currentRound), p.st.plant.receivables) == Filter(Matured(st.currentRound), st.plant.receivables)
            && Maturing(st.plant, p.st.plant, st.currentRound)
  {
    hide BeforeWorld, Finalize, ApplyWorld, Filter, NormalizeActions, ComputeMetrics, Grown, HeldAs, OrderlyWorld;
    var env, ordered := EnvOf(cfg, random, st), NormalizeActions(st, actions).value;
    var begin := Begin(st, drawn);
    BeforeWorldMatures(env, begin, ordered);
    var p1 := BeforeWorld(env, begin, ordered);
    WorldMatures(env, p1, ordered);
    var p2 := ApplyWorld(env, p1, ordered).value;
    FilterGrown(st.plant.receivables, p2.st.plant.receivables, env.round);
    FilterGrown(st.plant.payables, p2.st.plant.payables, env.round);
    FinalizeLists(env, p2, ActionFor(ordered, FinanceController));
    GrownTwice(Filter(Open(env.round), st.plant.payables), Filter(Open(env.round), p2.st.plant.payables),
               r.next.plant.payables, env.round);
  }

  lemma GrownTwice(a: seq<CashCommitment>, b: seq<CashCommitment>, c: seq<CashCommitment>, round: int)
    requires Grown(a, b, round) && Grown(b, c, round)
    ensures Grown(a, c, round)
  {
  }

  // ---------------------------------------------------------------- one line per key

  /** Parts, work in progress, finished goods and holds list each of their keys once. */
  ghost predicate OneLinePerKey(plant: Plant) {
    Tidy(plant.parts) && Tidy(plant.wip) && Tidy(plant.finished) && DistinctHolds(plant.holds)
  }

  /** All four buckets keep one line per key, in every state of every run. */
  lemma {:induction false} BucketsKeepOneLinePerKey(cfg: Config, random: Random, drawn: nat, st: MatchState,
                                                    inputs: seq<seq<ActionSubmission>>)
    requires ValidConfig(cfg) && SoundHooks(cfg) && ValidState(st) && DistinctHolds(st.plant.holds)
    ensures var run := Play(cfg, random, drawn, st, inputs);
            ValidState(run.st) && OneLinePerKey(run.st.plant)
    decreases |inputs|
  {
    hide Resolve, ValidState, OrderlyWorld, PermutingSort, DistinctHolds, ValidConfig, OneLinePerKey, NormalizeActions;
    if |inputs| > 0 && Resolve(cfg, random, drawn, st, inputs[0]).Ok? {
      var r := Resolve(cfg, random, drawn, st, inputs[0]).value;
      RoundRolls(cfg, random, drawn, st, inputs[0], r);
      ProfitExplainsNetWorth(cfg, random, drawn, st, inputs[0], r);
      BucketsKeepOneLinePerKey(cfg, random, r.drawn, r.next, inputs[1..]);
    } else {
      BucketsOf(st);
    }
  }

  lemma BucketsOf(st: MatchState)
    requires ValidState(st) && DistinctHolds(st.plant.holds)
    ensures OneLinePerKey(st.plant)
  {
    hide Tidy, DistinctHolds;
  }

  // ---------------------------------------------------------------- nothing is overdue

  /** No receivable, payable, pending return or hold of the state is overdue, and all stem from earlier rounds. */
  ghost predicate OnSchedule(st: MatchState) {
    && (forall c | c in st.plant.receivables :: c.created < st.currentRound <= c.due)
    && (forall c | c in st.plant.payables :: c.created < st.currentRound <= c.due)
    && (forall c | c in st.plant.pendingReturns :: c.created < st.currentRound <= c.due)
    && (forall h | h in st.plant.holds :: st.currentRound <= h.release)
  }

  lemma OpenOnSchedule(a: seq<CashCommitment>, b: seq<CashCommitment>, round: int)
    requires Grown(Filter(Open(round), a), b, round) && forall c | c in a :: c.created < round
    ensures forall c | c in b :: c.created < round + 1 <= c.due
  {
    hide Filter;
    FilterMembers(Open(round), a);
    var kept := Filter(Open(round), a);
    forall c | c in b ensures c.created < round + 1 <= c.due {
      var i :| 0 <= i < |b| && b[i] == c;
      if i < |kept| {
        assert kept[i] == c && c in kept;
      }
    }
  }

  /** The schedule is kept by every round. */
  lemma RoundStaysOnSchedule(cfg: Config, random: Random, drawn: nat, st: MatchState, actions: seq<ActionSubmission>, r: RoundResult)
    requires ValidConfig(cfg) && OrderlyWorld(cfg) && Resolved(cfg, random, drawn, st, actions, r) && OnSchedule(st)
    ensures OnSchedule(r.next)
  {
    hide Resolved, OrderlyWorld, Filter;
    RoundRolls(cfg, random, drawn, st, actions, r);
    var round := st.currentRound;
    OpenOnSchedule(st.plant.receivables, r.next.plant.receivables, round);
    OpenOnSchedule(st.plant.payables, r.next.plant.payables, round);
    FilterMembers(DueAfter(round), st.plant.pendingReturns);
    var kept := Filter(DueAfter(round), st.plant.pendingReturns);
    forall c | c in r.next.plant.pendingReturns ensures c.created < round + 1 <= c.due {
      var i :| 0 <= i < |r.next.plant.pendingReturns| && r.next.plant.pendingReturns[i] == c;
      if i < |kept| {
        assert kept[i] == c && c in kept;
      }
    }
  }

  // ---------------------------------------------------------------- exactly once, exactly then

  lemma {:induction false} SameCounts<T>(s: seq<T>, x: T)
    ensures Sum(Same(x), s) == multiset(s)[x]
  {
    if |s| > 0 {
      SameCounts(s[1..], x);
      assert s == [s[0]] + s[1..];
      assert multiset(s)[x] == multiset{s[0]}[x] + multiset(s[1..])[x];
    }
  }

  /** How often a round's log settles one commitment. */
  function Collections(record: RoundRecord, c: CashCommitment): int { Sum(Moved(CollectedItem(c)), record.events) }

  function Payments(record: RoundRecord, c: CashCommitment): int { Sum(Moved(PaidItem(c)), record.events) }

  function Count(items: seq<CashCommitment>, c: CashCommitment): nat { multiset(items)[c] }

  lemma KeptCount(a: seq<CashCommitment>, b: seq<CashCommitment>, round: int, c: CashCommitment)
    requires Grown(Filter(Open(round), a), b, round) && c.created < round
    ensures Count(b, c) == if c.due > round then Count(a, c) else 0
  {
    hide Filter;
    var kept := Filter(Open(round), a);
    FilterCount(Open(round), a, c);
    assert b == kept + b[|kept|..];
    assert c !in b[|kept|..];
  }

  /**
   A commitment from an earlier round leaves the lists in its due round and not before; the round's log settles
   it as often as the list held it, and only in that round.
   */
  lemma SettledWhenDue(cfg: Config, random: Random, drawn: nat, st: MatchState, actions: seq<ActionSubmission>,
                       r: RoundResult, c: CashCommitment)
    requires ValidConfig(cfg) && ValidState(st) && OnSchedule(st) && SoundHooks(cfg)
    requires Resolved(cfg, random, drawn, st, actions, r) && c.created < st.currentRound
    ensures Count(r.next.plant.receivables, c) == if c.due > st.currentRound then Count(st.plant.receivables, c) else 0
    ensures Collections(r.record, c) == if c.due == st.currentRound then Count(st.plant.receivables, c) else 0
    ensures Count(r.next.plant.payables, c) == if c.due > st.currentRound then Count(st.plant.payables, c) else 0
    ensures Payments(r.record, c) == if c.due == st.currentRound then Count(st.plant.payables, c) else 0
  {
    hide Resolved, ValidState, OrderlyWorld, PermutingSort, Filter, Settlers, NormalizeActions, Movement;
    RoundRolls(cfg, random, drawn, st, actions, r);
    KeptCount(st.plant.receivables, r.next.plant.receivables, st.currentRound, c);
    KeptCount(st.plant.payables, r.next.plant.payables, st.currentRound, c);
    CollectionCount(cfg, random, drawn, st, actions, r, c);
    PaymentCount(cfg, random, drawn, st, actions, r, c);
    MaturedCount(st.plant.receivables, st.currentRound, c);
    MaturedCount(st.plant.payables, st.currentRound, c);
  }

  lemma MaturedCount(items: seq<CashCommitment>, round: int, c: CashCommitment)
    requires forall x | x in items :: round <= x.due
    ensures multiset(Filter(Matured(round), items))[c] == if c.due == round then Count(items, c) else 0
  {
    FilterCount(Matured(round), items, c);
    if Count(items, c) > 0 {
      assert c in items;
    }
  }

  lemma CollectionCount(cfg: Config, random: Random, drawn: nat, st: MatchState, actions: seq<ActionSubmission>,
                        r: RoundResult, c: CashCommitment)
    requires ValidConfig(cfg) && ValidState(st) && SoundHooks(cfg) && Resolved(cfg, random, drawn, st, actions, r)
    ensures Collections(r.record, c) == multiset(Filter(Matured(st.currentRound), st.plant.receivables))[c]
  {
    hide Resolve, ValidState, OrderlyWorld, PermutingSort, Filter, Settlers, NormalizeActions, Movement, ComputeMetrics, Begin, Arrivals, Bought;
    var k := CollectedItem(c);
    var q := RoundAccount(cfg, random, drawn, st, actions, r, k);
    OpeningBooks(st, drawn, k);
    RoundRolls(cfg, random, drawn, st, actions, r);
    SameCounts(Filter(Matured(st.currentRound), st.plant.receivables), c);
  }

  lemma PaymentCount(cfg: Config, random: Random, drawn: nat, st: MatchState, actions: seq<ActionSubmission>,
                     r: RoundResult, c: CashCommitment)
    requires ValidConfig(cfg) && ValidState(st) && SoundHooks(cfg) && Resolved(cfg, random, drawn, st, actions, r)
    ensures Payments(r.record, c) == multiset(Filter(Matured(st.currentRound), st.plant.payables))[c]
  {
    hide Resolve, ValidState, OrderlyWorld, PermutingSort, Filter, Settlers, NormalizeActions, Movement, ComputeMetrics, Begin, Arrivals, Bought;
    var k := PaidItem(c);
    var q := RoundAccount(cfg, random, drawn, st, actions, r, k);
    OpeningBooks(st, drawn, k);
    RoundRolls(cfg, random, drawn, st, actions, r);
    var p := Settlers(cfg, random, drawn, st, NormalizeActions(st, actions).value);
    FilterGrown(st.plant.payables, p.st.plant.payables, st.currentRound);
    SameCounts(Filter(Matured(st.currentRound), st.plant.payables), c);
  }

  function RunCollections(c: CashCommitment): RoundResult -> int { (r: RoundResult) => Collections(r.record, c) }

  function RunPayments(c: CashCommitment): RoundResult -> int { (r: RoundResult) => Payments(r.record, c) }

  /**
   Over any run: until its due round has been played a commitment is still listed and was never settled;
   from then on it is gone and was settled exactly as often as it was listed.
   */
  lemma {:induction false} SettledOnceOverRun(cfg: Config, random: Random, drawn: nat, st: MatchState,
                                              inputs: seq<seq<ActionSubmission>>, c: CashCommitment)
    requires ValidConfig(cfg) && ValidState(st) && OnSchedule(st) && SoundHooks(cfg) && c.created < st.currentRound
    ensures var run := Play(cfg, random, drawn, st, inputs);
            var played := run.st.currentRound > c.due;
            && OnSchedule(run.st)
            && Count(run.st.plant.receivables, c) == (if played then 0 else Count(st.plant.receivables, c))
            && Sum(RunCollections(c), run.results) == (if played then Count(st.plant.receivables, c) else 0)
            && Count(run.st.plant.payables, c) == (if played then 0 else Count(st.plant.payables, c))
            && Sum(RunPayments(c), run.results) == (if played then Count(st.plant.payables, c) else 0)
            && run.st.currentRound >= st.currentRound
    decreases |inputs|
  {
    hide Resolve, ValidState, SoundHooks, OnSchedule, Collections, Payments, ValidConfig;
    if |inputs| > 0 && Resolve(cfg, random, drawn, st, inputs[0]).Ok? {
      var r := Resolve(cfg, random, drawn, st, inputs[0]).value;
      RunStep(cfg, random, drawn, st, inputs[0], r, c);
      SettledOnceOverRun(cfg, random, r.drawn, r.next, inputs[1..], c);
      var rest := Play(cfg, random, r.drawn, r.next, inputs[1..]);
      assert ([r] + rest.results)[1..] == rest.results;
    } else {
      NotListedLate(st, c);
    }
  }

  lemma RunStep(cfg: Config, random: Random, drawn: nat, st: MatchState, actions: seq<ActionSubmission>, r: RoundResult, c: CashCommitment)
    requires ValidConfig(cfg) && ValidState(st) && OnSchedule(st) && SoundHooks(cfg) && c.created < st.currentRound
    requires Resolve(cfg, random, drawn, st, actions) == Ok(r)
    ensures ValidState(r.next) && OnSchedule(r.next) && r.next.currentRound == st.currentRound + 1
    ensures Count(r.next.plant.receivables, c) == if c.due > st.currentRound then Count(st.plant.receivables, c) else 0
    ensures Collections(r.record, c) == if c.due == st.currentRound then Count(st.plant.receivables, c) else 0
    ensures Count(r.next.plant.payables, c) == if c.due > st.currentRound then Count(st.plant.payables, c) else 0
    ensures Payments(r.record, c) == if c.due == st.currentRound then Count(st.plant.payables, c) else 0
    ensures c.due < st.currentRound ==> Count(st.plant.receivables, c) == 0 && Count(st.plant.payables, c) == 0
  {
    hide Resolve, ValidState, OrderlyWorld, PermutingSort, OnSchedule, Collections, Payments, ValidConfig;
    SettledWhenDue(cfg, random, drawn, st, actions, r, c);
    RoundStaysOnSchedule(cfg, random, drawn, st, actions, r);
    RoundRolls(cfg, random, drawn, st, actions, r);
    ProfitExplainsNetWorth(cfg, random, drawn, st, actions, r);
    NotListedLate(st, c);
  }

  lemma NotListedLate(st: MatchState, c: CashCommitment)
    requires OnSchedule(st)
    ensures c.due < st.currentRound ==> Count(st.plant.receivables, c) == 0 && Count(st.plant.payables, c) == 0
  {
    assert c !in st.plant.receivables ==> Count(st.plant.receivables, c) == 0;
    assert c !in st.plant.payables ==> Count(st.plant.payables, c) == 0;
  }

  // ---------------------------------------------------------------- from the commitment to its settlement

  function ReceivableLogged(c: CashCommitment): Event -> int {
    (e: Event) => if e == Scheduled(c) && c.kind.Receivable? then 1 else 0
  }

  function PayableLogged(c: CashCommitment): Event -> int {
    (e: Event) => if e == Scheduled(c) && !c.kind.Receivable? then 1 else 0
  }

  lemma {:induction false} CommitmentMovements(events: seq<Event>, c: CashCommitment)
    ensures Sum(Moved(ReceivableItem(c)), events) == Sum(ReceivableLogged(c), events) - Sum(Moved(CollectedItem(c)), events)
    ensures Sum(Moved(PayableItem(c)), events) == Sum(PayableLogged(c), events) - Sum(Moved(PaidItem(c)), events)
  {
    if |events| > 0 {
      CommitmentMovement(events[0], c);
      hide Movement;
      CommitmentMovements(events[1..], c);
    }
  }

  lemma CommitmentMovement(e: Event, c: CashCommitment)
    ensures Movement(ReceivableItem(c), e) == ReceivableLogged(c)(e) - Movement(CollectedItem(c), e)
    ensures Movement(PayableItem(c), e) == PayableLogged(c)(e) - Movement(PaidItem(c), e)
  {
  }

  lemma ListedReceivables(cfg: Config, random: Random, drawn: nat, st: MatchState, actions: seq<ActionSubmission>,
                          r: RoundResult, c: CashCommitment)
    requires ValidState(st) && SoundHooks(cfg) && Resolved(cfg, random, drawn, st, actions, r)
    ensures Count(r.next.plant.receivables, c) ==
            Count(st.plant.receivables, c) + Sum(ReceivableLogged(c), r.record.events) - Collections(r.record, c)
  {
    hide Resolve, ValidState, SoundHooks, Settlers, NormalizeActions, Movement, ComputeMetrics, Begin, Arrivals, Bought;
    var q := RoundAccount(cfg, random, drawn, st, actions, r, ReceivableItem(c));
    OpeningBooks(st, drawn, ReceivableItem(c));
    CommitmentMovements(r.record.events, c);
    SameCounts(st.plant.receivables, c);
    SameCounts(r.next.plant.receivables, c);
  }

  lemma ListedPayables(cfg: Config, random: Random, drawn: nat, st: MatchState, actions: seq<ActionSubmission>,
                       r: RoundResult, c: CashCommitment)
    requires ValidState(st) && SoundHooks(cfg) && Resolved(cfg, random, drawn, st, actions, r)
    ensures Count(r.next.plant.payables, c) ==
            Count(st.plant.payables, c) + Sum(PayableLogged(c), r.record.events) - Payments(r.record, c)
  {
    hide Resolve, ValidState, SoundHooks, Settlers, NormalizeActions, Movement, ComputeMetrics, Begin, Arrivals, Bought;
    var q := RoundAccount(cfg, random, drawn, st, actions, r, PayableItem(c));
    OpeningBooks(st, drawn, PayableItem(c));
    CommitmentMovements(r.record.events, c);
    SameCounts(st.plant.payables, c);
    SameCounts(r.next.plant.payables, c);
  }

  /** A round settles a commitment only if this is its due round, whenever it was made. */
  lemma SettledOnlyWhenDue(cfg: Config, random: Random, drawn: nat, st: MatchState, actions: seq<ActionSubmission>,
                           r: RoundResult, c: CashCommitment)
    requires ValidConfig(cfg) && ValidState(st) && OnSchedule(st) && SoundHooks(cfg) && Resolved(cfg, random, drawn, st, actions, r)
    ensures c.due != st.currentRound ==> Collections(r.record, c) == 0 && Payments(r.record, c) == 0
  {
    hide Resolved, ValidState, SoundHooks, Filter, Collections, Payments;
    CollectionCount(cfg, random, drawn, st, actions, r, c);
    PaymentCount(cfg, random, drawn, st, actions, r, c);
    MaturedCount(st.plant.receivables, st.currentRound, c);
    MaturedCount(st.plant.payables, st.currentRound, c);
  }

  /** One round in the life of a commitment, listed or not. */
  lemma RoundCommitments(cfg: Config, random: Random, drawn: nat, st: MatchState, actions: seq<ActionSubmission>,
                         r: RoundResult, c: CashCommitment)
    requires ValidConfig(cfg) && ValidState(st) && OnSchedule(st) && SoundHooks(cfg) && Resolved(cfg, random, drawn, st, actions, r)
    ensures Count(r.next.plant.receivables, c) ==
            Count(st.plant.receivables, c) + RunReceivables(c)(r) - RunCollections(c)(r)
    ensures Count(r.next.plant.payables, c) == Count(st.plant.payables, c) + RunPayables(c)(r) - RunPayments(c)(r)
    ensures r.record.round != c.due ==> RunCollections(c)(r) == 0 && RunPayments(c)(r) == 0
    ensures r.record.round == st.currentRound && r.next.currentRound == st.currentRound + 1
    ensures ValidState(r.next) && OnSchedule(r.next)
  {
    hide Resolve, ValidState, OrderlyWorld, PermutingSort, OnSchedule, Collections, Payments, NormalizeActions, ComputeMetrics;
    ListedReceivables(cfg, random, drawn, st, actions, r, c);
    ListedPayables(cfg, random, drawn, st, actions, r, c);
    SettledOnlyWhenDue(cfg, random, drawn, st, actions, r, c);
    RoundStaysOnSchedule(cfg, random, drawn, st, actions, r);
    RoundRolls(cfg, random, drawn, st, actions, r);
    ProfitExplainsNetWorth(cfg, random, drawn, st, actions, r);
    FinalState(cfg, random, drawn, st, actions, r);
  }

  function RunReceivables(c: CashCommitment): RoundResult -> int { (r: RoundResult) => Sum(ReceivableLogged(c), r.record.events) }

  function RunPayables(c: CashCommitment): RoundResult -> int { (r: RoundResult) => Sum(PayableLogged(c), r.record.events) }

  /**
   Over any run, for every commitment whatever: it was listed at the start and scheduled during the run as often as it
   was settled and is still listed. It is settled in its due round and in no other, and once that round has been played
   it is no longer listed, so everything ever scheduled has then been settled exactly once.
   */
  lemma {:induction false} ScheduledIsSettledOnce(cfg: Config, random: Random, drawn: nat, st: MatchState,
                                                  inputs: seq<seq<ActionSubmission>>, c: CashCommitment)
    requires ValidConfig(cfg) && ValidState(st) && OnSchedule(st) && SoundHooks(cfg)
    ensures var run := Play(cfg, random, drawn, st, inputs);
            && Count(st.plant.receivables, c) + Sum(RunReceivables(c), run.results) ==
               Sum(RunCollections(c), run.results) + Count(run.st.plant.receivables, c)
            && Count(st.plant.payables, c) + Sum(RunPayables(c), run.results) ==
               Sum(RunPayments(c), run.results) + Count(run.st.plant.payables, c)
            && (forall r | r in run.results && r.record.round != c.due :: RunCollections(c)(r) == 0 && RunPayments(c)(r) == 0)
            && (run.st.currentRound > c.due ==> Count(run.st.plant.receivables, c) == 0 && Count(run.st.plant.payables, c) == 0)
    decreases |inputs|
  {
    hide Resolve, ValidState, SoundHooks, OnSchedule, Collections, Payments, ValidConfig, Count;
    if |inputs| > 0 && Resolve(cfg, random, drawn, st, inputs[0]).Ok? {
      var r := Resolve(cfg, random, drawn, st, inputs[0]).value;
      RoundCommitments(cfg, random, drawn, st, inputs[0], r, c);
      ScheduledIsSettledOnce(cfg, random, r.drawn, r.next, inputs[1..], c);
      var rest := Play(cfg, random, r.drawn, r.next, inputs[1..]);
      assert ([r] + rest.results)[1..] == rest.results;
    } else {
      NotListedLate(st, c);
    }
  }
}
