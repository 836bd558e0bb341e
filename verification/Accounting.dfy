/**
 What a whole round, and a whole run, does to the accounts: profit explains the change in net worth,
 receipts and disbursements explain the change in cash, and the event log explains every unit.
 */
module Accounting {
  import opened Seqs
  import opened Domain
  import opened Cash
  import opened Inventory
  import opened Quality
  import opened Phases
  import opened Actions
  import opened Resolver
  import opened Ledger
  import opened LedgerPhases
  import opened LedgerClosing
  import opened Frames

  ghost predicate DistinctCustomers(customers: seq<Customer>) {
    forall i, j | 0 <= i < j < |customers| :: customers[i].id != customers[j].id
  }

  ghost predicate SameCustomers(a: seq<Customer>, b: seq<Customer>) {
    |a| == |b| && forall i | 0 <= i < |a| :: a[i].id == b[i].id
  }

  function NewEntries(st: MatchState, effect: WorldEffect): seq<BacklogEntry>
    requires |st.plant.backlog| <= |effect.st.plant.backlog|
  {
    effect.st.plant.backlog[|st.plant.backlog|..]
  }

  /** A world update that only adds demand: new backlog of this round, logged, and copied to the customers. */
  ghost predicate OrderlyEffect(st: MatchState, effect: WorldEffect) {
    && st.plant.backlog <= effect.st.plant.backlog
    && effect.st == st.(customers := effect.st.customers, plant := st.plant.(backlog := effect.st.plant.backlog))
    && SameCustomers(st.customers, effect.st.customers)
    && (forall e | e in NewEntries(st, effect) :: e.qty > 0 && e.origin == st.currentRound && e.age == 0)
    && (forall k: Account :: Sum(Moved(k), effect.events) == OpenUnits(k, NewEntries(st, effect)))
    && (Coherent(st) && DistinctCustomers(st.customers) ==> Coherent(effect.st))
  }

  ghost predicate OrderlyWorld(cfg: Config) {
    cfg.world.Some? ==>
      forall st: MatchState, actions: seq<ActionSubmission>, drawn: nat ::
        cfg.world.value(st, actions, drawn).Ok? ==> OrderlyEffect(st, cfg.world.value(st, actions, drawn).value)
  }

  ghost predicate SoundHooks(cfg: Config) { PermutingSort(cfg) && OrderlyWorld(cfg) }

  ghost predicate ValidState(st: MatchState) {
    TidyPlant(st.plant) && Coherent(st) && DistinctCustomers(st.customers)
  }

  // ---------------------------------------------------------------- customers keep their identity

  lemma DisappointSame(customers: seq<Customer>, id: CustomerID)
    ensures SameCustomers(customers, Disappoint(customers, id))
  {
  }

  lemma SyncSame(customers: seq<Customer>, backlog: seq<BacklogEntry>)
    ensures SameCustomers(customers, SyncCustomers(customers, backlog))
  {
  }

  lemma {:induction false} AcceptReturnsSame(env: Env, p: Phase, items: seq<CustomerReturn>)
    ensures SameCustomers(p.st.customers, AcceptReturns(env, p, items).st.customers)
    decreases |items|
  {
    hide AddHold, Disappoint;
    if |items| > 0 {
      DisappointSame(p.st.customers, items[0].customer);
      AcceptReturnsSame(env, AcceptReturn(env, p, items[0]), items[1..]);
    }
  }

  lemma {:induction false} AgeAllSame(env: Env, a: Aging, entries: seq<BacklogEntry>)
    ensures SameCustomers(a.p.st.customers, AgeAll(env, a, entries).p.st.customers)
    decreases |entries|
  {
    hide Disappoint;
    if |entries| > 0 {
      DisappointSame(a.p.st.customers, entries[0].customer);
      AgeAllSame(env, AgeEntry(env, a, entries[0]), entries[1..]);
    }
  }

  lemma ReturnsSame(env: Env, p: Phase)
    ensures SameCustomers(p.st.customers, ProcessCustomerReturns(env, p).st.customers)
  {
    hide AcceptReturns, Filter, SyncCustomers;
    var items := p.st.plant.pendingReturns;
    var q := p.WithPlant(p.st.plant.(pendingReturns := Filter(DueAfter(env.round), items)));
    AcceptReturnsSame(env, q, Filter(DueBy(env.round), items));
    var r := AcceptReturns(env, q, Filter(DueBy(env.round), items));
    SyncSame(r.st.customers, r.st.plant.backlog);
  }

  lemma AgingSame(env: Env, p: Phase)
    ensures SameCustomers(p.st.customers, AgeBacklog(env, p).st.customers)
  {
    hide AgeAll, SyncCustomers, EffectiveBacklog;
    AgeAllSame(env, Aging(p, []), EffectiveBacklog(p.st));
    var a := AgeAll(env, Aging(p, []), EffectiveBacklog(p.st));
    SyncSame(a.p.st.customers, a.aged);
  }

  lemma SalesSame(env: Env, p: Phase, action: Option<ActionSubmission>)
    ensures SameCustomers(p.st.customers, ResolveSales(env, p, action).st.customers)
  {
    hide ShipAll, SyncCustomers, EffectiveBacklog;
    var s := Selling(p, [], []);
    ShipAllFrame(env, s, SalesPrices(action), env.cfg.sort(EffectiveBacklog(p.st)));
    SyncSame(p.st.customers, []);
    SyncSame(p.st.customers, ShipAll(env, s, SalesPrices(action), env.cfg.sort(EffectiveBacklog(p.st))).remaining);
  }

  /** After customer returns the copies are coherent again: nothing was due, or everything was copied anew. */
  lemma ReturnsCoherent(env: Env, p: Phase)
    requires Coherent(p.st)
    ensures Coherent(ProcessCustomerReturns(env, p).st)
  {
    hide AcceptReturn;
    var items := p.st.plant.pendingReturns;
    var q := p.WithPlant(p.st.plant.(pendingReturns := Filter(DueAfter(env.round), items)));
    var due := Filter(DueBy(env.round), items);
    if |due| == 0 {
      assert AcceptReturns(env, q, due) == q;
    }
  }

  lemma CoherenceFrame(a: MatchState, b: MatchState)
    requires a.plant.backlog == b.plant.backlog && a.customers == b.customers && Coherent(a)
    ensures Coherent(b)
  {
  }

  // ---------------------------------------------------------------- the round, step by step

  /** What holds between the phases of a round. */
  ghost predicate MidRound(p: Phase, k: Account, balance: int) {
    && ValidState(p.st)
    && Balance(p, k) == balance
    && forall c | Closing(c) :: Balance(p, c) == 0
  }

  function Bought(env: Env, p: Phase, actions: seq<ActionSubmission>): Phase {
    ResolveProcurement(env, p, ActionFor(actions, ProcurementManager))
  }

  /** Between the first phases of a round nothing has been spent on production yet. */
  ghost predicate EarlyRound(p: Phase, k: Account, balance: int) { MidRound(p, k, balance) && p.stats.productionSpend == 0 }

  /** A phase that leaves the cost accounts alone, moves an account by a known amount and keeps the state valid. */
  lemma EarlyStep(p: Phase, q: Phase, k: Account, balance: int, gap: int)
    requires EarlyRound(p, k, balance) && ValidState(q.st) && Balance(q, k) == Balance(p, k) - gap
    requires forall c: Account | Closing(c) || c.ProductionCost? :: Balance(q, c) == Balance(p, c)
    ensures EarlyRound(q, k, balance - gap)
  {
    hide Balance, ValidState;
    CostsAreStats(p);
    CostsAreStats(q);
  }

  lemma BuyingStep(env: Env, p: Phase, action: Option<ActionSubmission>, k: Account, balance: int)
    requires EarlyRound(p, k, balance)
    ensures EarlyRound(ResolveProcurement(env, p, action), k, balance)
  {
    hide Balance, TidyPlant, Coherent, DistinctCustomers, ResolveProcurement;
    var q := ResolveProcurement(env, p, action);
    ProcurementBalances(env, p, action, k);
    forall c: Account | Closing(c) || c.ProductionCost? ensures Balance(q, c) == Balance(p, c) {
      ProcurementBalances(env, p, action, c);
    }
    ProcurementFrame(env, p, action);
    CoherenceFrame(p.st, q.st);
    EarlyStep(p, q, k, balance, 0);
  }

  lemma SupplyStep(env: Env, p: Phase, k: Account, balance: int)
    requires EarlyRound(p, k, balance)
    ensures EarlyRound(ReceiveSupply(env, p), k, balance - ArrivalGap(env, p, k))
  {
    hide Balance, TidyPlant, Coherent, DistinctCustomers, ReceiveSupply, Arrivals;
    var q := ReceiveSupply(env, p);
    SupplyBalances(env, p, k);
    forall c: Account | Closing(c) || c.ProductionCost? ensures Balance(q, c) == Balance(p, c) {
      SupplyBalances(env, p, c);
    }
    SupplyFrame(env, p);
    CoherenceFrame(p.st, q.st);
    EarlyStep(p, q, k, balance, ArrivalGap(env, p, k));
  }

  lemma HoldsStep(env: Env, p: Phase, k: Account, balance: int)
    requires EarlyRound(p, k, balance)
    ensures EarlyRound(ReleaseInspectionHolds(env, p), k, balance - HoldGap(env, p, k))
  {
    hide Balance, TidyPlant, Coherent, DistinctCustomers, ReleaseInspectionHolds, Filter;
    var q := ReleaseInspectionHolds(env, p);
    HoldsBalance(env, p, k);
    forall c: Account | Closing(c) || c.ProductionCost? ensures Balance(q, c) == Balance(p, c) {
      HoldsBalance(env, p, c);
    }
    HoldsFrame(env, p);
    CoherenceFrame(p.st, q.st);
    EarlyStep(p, q, k, balance, HoldGap(env, p, k));
  }

  lemma ReturnsStep(env: Env, p: Phase, k: Account, balance: int)
    requires EarlyRound(p, k, balance)
    ensures EarlyRound(ProcessCustomerReturns(env, p), k, balance - ReturnGap(env, p, k))
  {
    hide Balance, TidyPlant, Coherent, ProcessCustomerReturns, Filter;
    var q := ProcessCustomerReturns(env, p);
    ReturnsBalance(env, p, k);
    forall c: Account | Closing(c) || c.ProductionCost? ensures Balance(q, c) == Balance(p, c) {
      ReturnsBalance(env, p, c);
    }
    ReturnsSame(env, p);
    ReturnsCoherent(env, p);
    EarlyStep(p, q, k, balance, ReturnGap(env, p, k));
  }

  lemma BeforeProductionBalances(env: Env, p: Phase, actions: seq<ActionSubmission>, k: Account, balance: int)
    requires EarlyRound(p, k, balance)
    ensures EarlyRound(BeforeProduction(env, p, actions), k, balance - SupplyGap(env, Bought(env, p, actions), k))
  {
    hide EarlyRound, ResolveProcurement, ReceiveSupply, ReleaseInspectionHolds, ProcessCustomerReturns, Arrivals, Filter;
    var p1 := Bought(env, p, actions);
    BuyingStep(env, p, ActionFor(actions, ProcurementManager), k, balance);
    SupplyStep(env, p1, k, balance);
    var p2 := ReceiveSupply(env, p1);
    SupplyFrame(env, p1);
    HoldsStep(env, p2, k, balance - ArrivalGap(env, p1, k));
    var p3 := ReleaseInspectionHolds(env, p2);
    HoldsFrame(env, p2);
    ReturnsStep(env, p3, k, balance - ArrivalGap(env, p1, k) - HoldGap(env, p2, k));
  }

  lemma BeforeWorldBalances(env: Env, p: Phase, actions: seq<ActionSubmission>, k: Account, balance: int)
    requires EarlyRound(p, k, balance)
    requires SoundHooks(env.cfg) && (k.PartUnits? ==> SoundBills(env.cfg)) && !k.ProductionCost?
    ensures MidRound(BeforeWorld(env, p, actions), k, balance - SupplyGap(env, Bought(env, p, actions), k))
  {
    hide Balance, TidyPlant, Coherent, BeforeProduction, ResolveProduction, ResolveSales, SoundBills, OrderlyWorld, SupplyGap;
    BeforeProductionBalances(env, p, actions, k, balance);
    var p1 := BeforeProduction(env, p, actions);
    var action := ActionFor(actions, ProductionManager);
    var p2 := ResolveProduction(env, p1, action);
    ProductionBalances(env, p1, action, k);
    forall c | Closing(c) { ProductionBalances(env, p1, action, c); }
    ProductionFrame(env, p1, action);
    CoherenceFrame(p1.st, p2.st);
    var sales := ActionFor(actions, SalesManager);
    SalesBalance(env, p2, sales, k);
    forall c | Closing(c) { SalesBalance(env, p2, sales, c); }
    SalesSame(env, p2, sales);
  }

  lemma WorldBalances(env: Env, p: Phase, actions: seq<ActionSubmission>, k: Account, balance: int)
    requires MidRound(p, k, balance) && SoundHooks(env.cfg) && ApplyWorld(env, p, actions).Ok?
    ensures MidRound(ApplyWorld(env, p, actions).value, k, balance)
  {
    hide Coherent, PermutingSort;
    if env.cfg.world.Some? {
      var effect := env.cfg.world.value(p.st, actions, p.drawn).value;
      assert OrderlyEffect(p.st, effect);
      var q := ApplyWorld(env, p, actions).value;
      var added := NewEntries(p.st, effect);
      assert effect.st.plant.backlog == p.st.plant.backlog + added;
      WorldStep(p, q, added, effect.events, k);
      forall c | Closing(c) { WorldStep(p, q, added, effect.events, c); }
    }
  }

  lemma WorldStep(p: Phase, q: Phase, added: seq<BacklogEntry>, events: seq<Event>, k: Account)
    requires TidyPlant(p.st.plant) && forall e | e in added :: e.qty > 0
    requires q.st.plant == p.st.plant.(backlog := p.st.plant.backlog + added)
    requires q.stats == p.stats && q.events == p.events + events
    requires Sum(Moved(k), events) == OpenUnits(k, added)
    ensures TidyPlant(q.st.plant) && Balance(q, k) == Balance(p, k)
  {
    SumConcat(Moved(k), p.events, events);
    if k.BacklogUnits? {
      SumConcat(EntryOf(k.customer, k.ordered), p.st.plant.backlog, added);
    }
  }

  lemma TargetsMove(env: Env, p: Phase, action: Option<ActionSubmission>, k: Account)
    ensures Balance(AdoptTargets(env, p, action), k) == Balance(p, k)
    ensures TidyPlant(p.st.plant) ==> TidyPlant(AdoptTargets(env, p, action).st.plant)
    ensures AdoptTargets(env, p, action).st.plant.receivables == p.st.plant.receivables
    ensures AdoptTargets(env, p, action).st.plant.payables == p.st.plant.payables
  {
    hide Movement, StatHeld;
  }

  /** What the end of the round adds to an account beyond its logged movements. */
  function ClosingGap(env: Env, p: Phase, q: Phase, k: Account): int {
    match k
    case Accrual => Min(q.stats.holdingCost + q.stats.debtServiceCost, 0)
    case CollectedItem(item) => -Sum(Same(item), Filter(Matured(env.round), p.st.plant.receivables))
    case PaidItem(item) => -Sum(Same(item), Filter(Matured(env.round), p.st.plant.payables))
    case _ => 0
  }

  lemma FinalizeBalances(env: Env, p: Phase, action: Option<ActionSubmission>, k: Account, balance: int)
    requires MidRound(p, k, balance) && !Closing(k)
    requires p.stats.payrollExpense == 0 && p.stats.holdingCost == 0 && p.stats.debtServiceCost == 0
    ensures var q := Finalize(env, p, action);
            && ValidState(q.st)
            && Balance(q, k) == balance + ClosingGap(env, p, q, k)
  {
    hide Balance, TidyPlant, Coherent, AgeBacklog, CollectReceivablesDue, PayPayablesDue, ApplyLaborCosts, Filter, Sum;
    hide ApplyOperatingCosts, AdoptTargets;
    AgingBalances(env, p, k);
    AgingSame(env, p);
    AgingFrame(env, p);
    var p1 := AgeBacklog(env, p);
    var p2 := AdoptTargets(env, p1, action);
    TargetsMove(env, p1, action, k);
    CollectBalances(env, p2, k);
    CollectFrame(env, p2);
    var p3 := CollectReceivablesDue(env, p2);
    PayBalances(env, p3, k);
    var p4 := PayPayablesDue(env, p3);
    ClosingStats(env, p, action);
    LaborBalances(env, p4, k);
    OperatingGap(env, ApplyLaborCosts(env, p4), k);
    FinalizeFrame(env, p, action);
    CoherenceFrame(p1.st, Finalize(env, p, action).st);
  }

  lemma ClosingStats(env: Env, p: Phase, action: Option<ActionSubmission>)
    ensures var q := PayPayablesDue(env, CollectReceivablesDue(env, AdoptTargets(env, AgeBacklog(env, p), action)));
            && q.stats.payrollExpense == p.stats.payrollExpense
            && q.stats.holdingCost == p.stats.holdingCost
            && q.stats.debtServiceCost == p.stats.debtServiceCost
  {
    hide AgeAll, CollectEach, PayEach, Filter, SyncCustomers, EffectiveBacklog, Sum;
    var backlog := EffectiveBacklog(p.st);
    AgeAllStats(env, Aging(p, []), backlog);
    var p2 := AdoptTargets(env, AgeBacklog(env, p), action);
    var open := p2.WithPlant(p2.st.plant.(receivables := Filter(Open(env.round), p2.st.plant.receivables)));
    SettleStats(open, Filter(Matured(env.round), p2.st.plant.receivables));
    var p3 := CollectReceivablesDue(env, p2);
    var left := p3.WithPlant(p3.st.plant.(payables := Filter(Open(env.round), p3.st.plant.payables)));
    SettleStats(left, Filter(Matured(env.round), p3.st.plant.payables));
  }

  lemma {:induction false} AgeAllStats(env: Env, a: Aging, entries: seq<BacklogEntry>)
    ensures var s := AgeAll(env, a, entries).p.stats; s == a.p.stats.(lostSalesUnits := s.lostSalesUnits)
    decreases |entries|
  {
    hide Disappoint;
    if |entries| > 0 {
      AgeAllStats(env, AgeEntry(env, a, entries[0]), entries[1..]);
    }
  }

  lemma {:induction false} SettleStats(p: Phase, items: seq<CashCommitment>)
    ensures CollectEach(p, items).stats == p.stats && PayEach(p, items).stats == p.stats
    decreases |items|
  {
    hide ProjectCashDelta;
    if |items| > 0 {
      SettleStats(CollectOne(p, items[0]), items[1..]);
      SettleStats(PayOne(p, items[0]), items[1..]);
    }
  }

  // ---------------------------------------------------------------- the round as a whole

  /** The phase state at the end of an accepted round. */
  function FinalPhase(cfg: Config, random: Random, drawn: nat, st: MatchState, ordered: seq<ActionSubmission>): Result<Phase> {
    Played(EnvOf(cfg, random, st), Begin(st, drawn), ordered)
  }

  /** The phase state just before the end of the round. */
  function Settlers(cfg: Config, random: Random, drawn: nat, st: MatchState, ordered: seq<ActionSubmission>): Phase {
    var env := EnvOf(cfg, random, st);
    match ApplyWorld(env, BeforeWorld(env, Begin(st, drawn), ordered), ordered)
    case Err => Begin(st, drawn)
    case Ok(p) => p
  }

  lemma BeginIsBalanced(st: MatchState, drawn: nat, k: Account)
    requires ValidState(st)
    ensures MidRound(Begin(st, drawn), k, Balance(Begin(st, drawn), k))
    ensures Begin(st, drawn).stats.productionSpend == 0
  {
    hide Coherent;
    CostsAreStats(Begin(st, drawn));
    CoherenceFrame(st, Opened(st));
  }

  /** Every account, over the whole round: what it held at the start, moved by the log, is what it holds at the end. */
  lemma RoundBalances(cfg: Config, random: Random, drawn: nat, st: MatchState, ordered: seq<ActionSubmission>, k: Account)
    requires ValidState(st) && SoundHooks(cfg) && (k.PartUnits? ==> SoundBills(cfg))
    requires !k.ProductionCost? && !Closing(k)
    requires FinalPhase(cfg, random, drawn, st, ordered).Ok?
    ensures var q := FinalPhase(cfg, random, drawn, st, ordered).value;
            && ValidState(q.st)
            && Held(q, k) == Held(Begin(st, drawn), k) + Sum(Moved(k), q.events) +
                 ClosingGap(EnvOf(cfg, random, st), Settlers(cfg, random, drawn, st, ordered), q, k)
                 - SupplyGap(EnvOf(cfg, random, st), Bought(EnvOf(cfg, random, st), Begin(st, drawn), ordered), k)
  {
    hide MidRound, ApplyWorld, BeforeWorld, Finalize, ValidState, SoundBills, SoundHooks, Held, ClosingGap, Begin, SupplyGap, Bought;
    var env, p := EnvOf(cfg, random, st), Begin(st, drawn);
    BeginIsBalanced(st, drawn, k);
    BeforeWorldBalances(env, p, ordered, k, Balance(p, k));
    var p1 := BeforeWorld(env, p, ordered);
    var balance := Balance(p, k) - SupplyGap(env, Bought(env, p, ordered), k);
    WorldBalances(env, p1, ordered, k, balance);
    var p2 := ApplyWorld(env, p1, ordered).value;
    NothingClosedYet(p2, k, balance);
    FinalizeBalances(env, p2, ActionFor(ordered, FinanceController), k, balance);
    NoEventsYet(st, drawn);
  }

  lemma NoEventsYet(st: MatchState, drawn: nat)
    ensures Begin(st, drawn).events == []
  {
  }

  lemma NothingClosedYet(p: Phase, k: Account, balance: int)
    requires MidRound(p, k, balance)
    ensures p.stats.payrollExpense == 0 && p.stats.holdingCost == 0 && p.stats.debtServiceCost == 0
  {
    CostsAreStats(p);
    assert Closing(PayrollCost) && Closing(HoldingCosts) && Closing(DebtCost);
  }

  ghost predicate Resolved(cfg: Config, random: Random, drawn: nat, st: MatchState, actions: seq<ActionSubmission>, r: RoundResult) {
    Resolve(cfg, random, drawn, st, actions) == Ok(r)
  }

  /** The carrying cost the metrics report but the plant never paid: zero unless a hook reports it negative. */
  function UnpaidCarryingCost(m: Metrics): int { Min(m.holdingCost + m.debtServiceCost, 0) }

  lemma ValidFrame(a: MatchState, b: MatchState)
    requires ValidState(a) && a.plant == b.plant && a.customers == b.customers
    ensures ValidState(b)
  {
  }

  /** The result of a round, read off the final phase state. */
  lemma FinalState(cfg: Config, random: Random, drawn: nat, st: MatchState, actions: seq<ActionSubmission>, r: RoundResult)
    requires Resolved(cfg, random, drawn, st, actions, r)
    ensures NormalizeActions(st, actions).Ok?
    ensures FinalPhase(cfg, random, drawn, st, NormalizeActions(st, actions).value).Ok?
    ensures var q := FinalPhase(cfg, random, drawn, st, NormalizeActions(st, actions).value).value;
            && r.next.plant == q.st.plant && r.next.customers == q.st.customers && r.next.suppliers == q.st.suppliers
            && r.record.events == q.events
            && r.record.metrics == Some(ComputeMetrics(EnvOf(cfg, random, st), q))
            && r.next.metrics == r.record.metrics
            && r.record.round == st.currentRound
            && r.next.currentRound == q.st.currentRound + 1
            && r.next.matchID == q.st.matchID
  {
    hide Played, ComputeMetrics, NormalizeActions;
  }

  lemma RoundAccount(cfg: Config, random: Random, drawn: nat, st: MatchState, actions: seq<ActionSubmission>, r: RoundResult, k: Account)
    returns (q: Phase)
    requires ValidState(st) && SoundHooks(cfg) && (k.PartUnits? ==> SoundBills(cfg))
    requires !k.ProductionCost? && !Closing(k) && Resolved(cfg, random, drawn, st, actions, r)
    ensures NormalizeActions(st, actions).Ok?
    ensures r.next.plant == q.st.plant && ValidState(r.next)
    ensures r.record.metrics == Some(ComputeMetrics(EnvOf(cfg, random, st), q)) && r.next.metrics == r.record.metrics
    ensures Held(q, k) == Held(Begin(st, drawn), k) + Sum(Moved(k), r.record.events) +
              ClosingGap(EnvOf(cfg, random, st), Settlers(cfg, random, drawn, st, NormalizeActions(st, actions).value), q, k)
              - SupplyGap(EnvOf(cfg, random, st),
                          Bought(EnvOf(cfg, random, st), Begin(st, drawn), NormalizeActions(st, actions).value), k)
  {
    hide ValidState, SoundHooks, SoundBills, FinalPhase, Resolve, NormalizeActions, Held, Begin, ComputeMetrics, EnvOf;
    hide ClosingGap, Settlers, SupplyGap, Bought;
    FinalState(cfg, random, drawn, st, actions, r);
    var ordered := NormalizeActions(st, actions).value;
    RoundBalances(cfg, random, drawn, st, ordered, k);
    q := FinalPhase(cfg, random, drawn, st, ordered).value;
    ValidFrame(q.st, r.next);
  }

  lemma MetricsAre(env: Env, p: Phase)
    ensures var m, s := ComputeMetrics(env, p), p.stats;
            && m.roundProfit == s.revenue - Expense(s)
            && m.holdingCost == s.holdingCost && m.debtServiceCost == s.debtServiceCost
            && m.lostSalesUnits == s.lostSalesUnits && m.customerReturnUnits == s.customerReturnUnits
            && m.scrapUnits == s.scrapUnits && m.reworkUnits == s.reworkUnits
            && m.productionOutputUnits == s.producedUnits && m.overtimeUnits == s.overtimeUnits
            && m.throughputRevenue == s.revenue && m.procurementSpend == s.procurementSpend
  {
  }

  lemma {:induction false} ResetUses(stations: seq<Workstation>, id: WorkstationID)
    ensures Sum(UsedAt(id), ResetCapacity(stations)) == 0
  {
    if |stations| > 0 {
      assert ResetCapacity(stations)[1..] == ResetCapacity(stations[1..]);
      ResetUses(stations[1..], id);
    }
  }

  lemma NoWorkYet(plant: Plant, id: WorkstationID)
    ensures PlantHeld(plant, StationWork(id)) == Sum(UsedAt(id), plant.stations)
    ensures Sum(UsedAt(id), ResetCapacity(plant.stations)) == 0
  {
    ResetUses(plant.stations, id);
  }

  lemma NothingCounted(k: Account)
    ensures StatHeld(NO_STATS, k) == 0
  {
  }

  /** A round opens with the stocks of the state, with empty statistics and with idle workstations. */
  lemma OpeningBooks(st: MatchState, drawn: nat, k: Account)
    ensures Held(Begin(st, drawn), k) == if k.StationWork? then 0 else PlantHeld(st.plant, k)
  {
    hide PlantHeld, StatHeld, ResetCapacity;
    NothingCounted(k);
    StationsHeld(st.plant, ResetCapacity(st.plant.stations), k);
    if k.StationWork? {
      NoWorkYet(st.plant, k.worker);
    }
  }

  /**
   Accrual balance. Net worth, the cash position plus what is owed to the plant less what it owes, changes by
   exactly the reported profit, corrected by carrying costs that were reported but not charged. So profit and
   net worth agree if and only if the reported carrying cost is not negative.
   */
  lemma ProfitExplainsNetWorth(cfg: Config, random: Random, drawn: nat, st: MatchState, actions: seq<ActionSubmission>, r: RoundResult)
    requires ValidState(st) && SoundHooks(cfg) && Resolved(cfg, random, drawn, st, actions, r)
    ensures ValidState(r.next) && r.record.metrics.Some? && r.next.metrics == r.record.metrics
    ensures var m := r.record.metrics.value;
            && NetWorth(r.next.plant) - NetWorth(st.plant) == m.roundProfit + UnpaidCarryingCost(m)
            && (NetWorth(r.next.plant) - NetWorth(st.plant) == m.roundProfit <==> m.holdingCost + m.debtServiceCost >= 0)
  {
    hide ValidState, SoundHooks, Settlers, Arrivals, Bought, NormalizeActions, Resolve, ComputeMetrics, Begin, NetWorth, EnvOf, Expense;
    var q := RoundAccount(cfg, random, drawn, st, actions, r, Accrual);
    MetricsAre(EnvOf(cfg, random, st), q);
    OpeningBooks(st, drawn, Accrual);
    SumZero(Accrual, r.record.events);
  }

  /** Cash moves by receipts less disbursements, plus what was borrowed. */
  lemma CashFlowExplainsCash(cfg: Config, random: Random, drawn: nat, st: MatchState, actions: seq<ActionSubmission>, r: RoundResult)
    requires ValidState(st) && SoundHooks(cfg) && Resolved(cfg, random, drawn, st, actions, r)
    ensures r.record.metrics.Some?
    ensures var m := r.record.metrics.value;
            && m.endingCash == r.next.plant.cash
            && m.netCashChange == r.next.plant.cash - st.plant.cash
            && m.netCashChange == m.cashReceipts - m.cashDisbursements + (r.next.plant.debt - st.plant.debt)
  {
    hide ValidState, SoundHooks, Settlers, Arrivals, Bought, NormalizeActions, Resolve;
    var q := RoundAccount(cfg, random, drawn, st, actions, r, CashFlow);
    SumZero(CashFlow, r.record.events);
  }

  // ---------------------------------------------------------------- units, from the log

  function ReleasedOf(product: ProductID): Event -> int {
    (e: Event) => if e.ProductionReleased? && e.product == product then e.qty else 0
  }

  function ReturnedOf(product: ProductID): Event -> int {
    (e: Event) => if e.ReturnReceived? && e.item.product == product then e.item.qty else 0
  }

  function ShippedOf(product: ProductID): Event -> int {
    (e: Event) => if e.Shipped? && e.product == product then e.qty else 0
  }

  function ScrappedOf(product: ProductID): Event -> int {
    (e: Event) => if e.Scrapped? && e.product == product then e.qty else 0
  }

  lemma {:induction false} ProductMovements(events: seq<Event>, product: ProductID)
    ensures Sum(Moved(ProductUnits(product)), events) ==
            Sum(ReleasedOf(product), events) + Sum(ReturnedOf(product), events)
            - Sum(ShippedOf(product), events) - Sum(ScrappedOf(product), events)
  {
    if |events| > 0 {
      ProductMovements(events[1..], product);
    }
  }

  lemma ProductOpening(st: MatchState, product: ProductID)
    ensures ProductStock(Opened(st).plant, product) == ProductStock(st.plant, product)
  {
  }

  /** No unit of a product appears or vanishes outside the log: release, return, shipment, scrap. */
  lemma UnitsAreConserved(cfg: Config, random: Random, drawn: nat, st: MatchState, actions: seq<ActionSubmission>,
                          r: RoundResult, product: ProductID)
    requires ValidState(st) && SoundHooks(cfg) && Resolved(cfg, random, drawn, st, actions, r)
    ensures var events := r.record.events;
            ProductStock(r.next.plant, product) == ProductStock(st.plant, product)
              + Sum(ReleasedOf(product), events) + Sum(ReturnedOf(product), events)
              - Sum(ShippedOf(product), events) - Sum(ScrappedOf(product), events)
  {
    hide ValidState, SoundHooks, Settlers, Arrivals, Bought, NormalizeActions, Resolve, ProductStock, ComputeMetrics;
    var q := RoundAccount(cfg, random, drawn, st, actions, r, ProductUnits(product));
    ProductMovements(r.record.events, product);
    ProductOpening(st, product);
  }

  function OrderedOf(part: PartID): Event -> int {
    (e: Event) => if e.PurchaseOrderPlaced? && e.lot.part == part then e.lot.qty else 0
  }

  function ConsumedOf(part: PartID): Event -> int {
    (e: Event) => if e.ProductionReleased? then Required(e.bom, part) * e.qty else 0
  }

  lemma {:induction false} PartMovements(events: seq<Event>, part: PartID)
    ensures Sum(Moved(PartUnits(part)), events) == Sum(OrderedOf(part), events) - Sum(ConsumedOf(part), events)
  {
    if |events| > 0 {
      PartMovements(events[1..], part);
    }
  }

  /** Parts on hand and in transit change by what was ordered less what the released bills consumed. */
  lemma PartsAreConserved(cfg: Config, random: Random, drawn: nat, st: MatchState, actions: seq<ActionSubmission>,
                          r: RoundResult, part: PartID)
    requires ValidState(st) && SoundHooks(cfg) && SoundBills(cfg) && Resolved(cfg, random, drawn, st, actions, r)
    ensures PartStock(r.next.plant, part) == PartStock(st.plant, part)
              + Sum(OrderedOf(part), r.record.events) - Sum(ConsumedOf(part), r.record.events)
  {
    hide ValidState, SoundHooks, SoundBills, Settlers, Arrivals, Bought, NormalizeActions, Resolve, ComputeMetrics;
    var q := RoundAccount(cfg, random, drawn, st, actions, r, PartUnits(part));
    PartMovements(r.record.events, part);
  }

  function BookedFor(customer: CustomerID, product: ProductID): Event -> int {
    (e: Event) => if e.BacklogCreated? && e.customer == customer && e.product == product then e.qty else 0
  }

  function ShippedTo(customer: CustomerID, product: ProductID): Event -> int {
    (e: Event) => if e.Shipped? && e.customer == customer && e.product == product then e.qty else 0
  }

  function LostBy(customer: CustomerID, product: ProductID): Event -> int {
    (e: Event) => if e.BacklogExpired? && e.customer == customer && e.product == product then e.qty else 0
  }

  lemma {:induction false} BacklogMovements(events: seq<Event>, customer: CustomerID, product: ProductID)
    ensures Sum(Moved(BacklogUnits(customer, product)), events) ==
            Sum(BookedFor(customer, product), events) - Sum(ShippedTo(customer, product), events)
            - Sum(LostBy(customer, product), events)
  {
    if |events| > 0 {
      BacklogMovements(events[1..], customer, product);
    }
  }

  /** The backlog of a customer for a product: replacements and new demand in, shipments and lost sales out. */
  lemma BacklogIsConserved(cfg: Config, random: Random, drawn: nat, st: MatchState, actions: seq<ActionSubmission>,
                           r: RoundResult, customer: CustomerID, product: ProductID)
    requires ValidState(st) && SoundHooks(cfg) && Resolved(cfg, random, drawn, st, actions, r)
    ensures var measure, events := EntryOf(customer, product), r.record.events;
            Sum(measure, r.next.plant.backlog) == Sum(measure, st.plant.backlog)
              + Sum(BookedFor(customer, product), events) - Sum(ShippedTo(customer, product), events)
              - Sum(LostBy(customer, product), events)
  {
    hide ValidState, SoundHooks, Settlers, Arrivals, Bought, NormalizeActions, Resolve, ComputeMetrics, Resolved, Sum;
    var q := RoundAccount(cfg, random, drawn, st, actions, r, BacklogUnits(customer, product));
    BacklogMovements(r.record.events, customer, product);
  }

  // ---------------------------------------------------------------- metrics against the log

  function Counter(m: Metrics, k: Account): int {
    match k
    case LostTotal => m.lostSalesUnits
    case ReturnTotal => m.customerReturnUnits
    case ScrapTotal => m.scrapUnits
    case ReworkTotal => m.reworkUnits
    case ProducedTotal => m.productionOutputUnits
    case OvertimeTotal => m.overtimeUnits
    case RevenueTotal => m.throughputRevenue
    case PurchaseTotal => m.procurementSpend
    case _ => 0
  }

  ghost predicate Counted(k: Account) {
    k.LostTotal? || k.ReturnTotal? || k.ScrapTotal? || k.ReworkTotal? || k.ProducedTotal? || k.OvertimeTotal?
    || k.RevenueTotal? || k.PurchaseTotal?
  }

  lemma CountersHaveNoGap(env: Env, p: Phase, q: Phase, bought: Phase, k: Account)
    requires Counted(k)
    ensures ClosingGap(env, p, q, k) == 0 && SupplyGap(env, bought, k) == 0
  {
  }

  lemma CountedAccounts(k: Account)
    requires Counted(k)
    ensures !k.ProductionCost? && !Closing(k) && !k.PartUnits?
  {
  }

  lemma CounterIsStat(env: Env, p: Phase, k: Account)
    requires Counted(k)
    ensures Counter(ComputeMetrics(env, p), k) == StatHeld(p.stats, k)
  {
    MetricsAre(env, p);
  }

  lemma NothingHeld(plant: Plant, k: Account)
    requires Counted(k)
    ensures PlantHeld(plant, k) == 0
  {
  }

  /** Each unit counter, the revenue and the cost of orders in the metrics are the totals of the corresponding events. */
  lemma MetricsMatchLog(cfg: Config, random: Random, drawn: nat, st: MatchState, actions: seq<ActionSubmission>,
                        r: RoundResult, k: Account)
    requires ValidState(st) && SoundHooks(cfg) && Resolved(cfg, random, drawn, st, actions, r) && Counted(k)
    ensures r.record.metrics.Some? && Counter(r.record.metrics.value, k) == Sum(Moved(k), r.record.events)
  {
    hide ValidState, SoundHooks, Settlers, Arrivals, Bought, NormalizeActions, Resolve, Moved, ComputeMetrics, Begin, EnvOf;
    hide ClosingGap, SupplyGap, Counter, PlantHeld, StatHeld, Counted;
    CountedAccounts(k);
    OpeningBooks(st, drawn, k);
    var q := RoundAccount(cfg, random, drawn, st, actions, r, k);
    var env, ordered := EnvOf(cfg, random, st), NormalizeActions(st, actions).value;
    CountersHaveNoGap(env, Settlers(cfg, random, drawn, st, ordered), q, Bought(env, Begin(st, drawn), ordered), k);
    NothingHeld(st.plant, k);
    NothingHeld(q.st.plant, k);
    CounterIsStat(env, q, k);
  }

  // ---------------------------------------------------------------- whole runs

  function Profit(): RoundResult -> int {
    (r: RoundResult) =>
      if r.record.metrics.Some?
      then r.record.metrics.value.roundProfit + UnpaidCarryingCost(r.record.metrics.value) else 0
  }

  /** Over any run, however it ends, the change of net worth is the sum of the round profits. */
  lemma {:induction false} ProfitExplainsRun(cfg: Config, random: Random, drawn: nat, st: MatchState, inputs: seq<seq<ActionSubmission>>)
    requires ValidState(st) && SoundHooks(cfg)
    ensures var run := Play(cfg, random, drawn, st, inputs);
            && ValidState(run.st)
            && NetWorth(run.st.plant) - NetWorth(st.plant) == Sum(Profit(), run.results)
    decreases |inputs|
  {
    hide ValidState, SoundHooks, Settlers, Arrivals, Bought, NormalizeActions, Resolve, NetWorth;
    if |inputs| > 0 && Resolve(cfg, random, drawn, st, inputs[0]).Ok? {
      var r := Resolve(cfg, random, drawn, st, inputs[0]).value;
      ProfitExplainsNetWorth(cfg, random, drawn, st, inputs[0], r);
      ProfitExplainsRun(cfg, random, r.drawn, r.next, inputs[1..]);
      var rest := Play(cfg, random, r.drawn, r.next, inputs[1..]);
      assert ([r] + rest.results)[1..] == rest.results;
    }
  }

  function ReportedProfit(): RoundResult -> int {
    (r: RoundResult) => if r.record.metrics.Some? then r.record.metrics.value.roundProfit else 0
  }

  ghost predicate CarryingCostsNotNegative(cfg: Config) {
    cfg.inventoryCost.Some? ==>
      forall st: MatchState, round: int, c: InventoryClass, value: int :: cfg.inventoryCost.value(st, round, c, value) >= 0
  }

  lemma CarryingCostPaid(cfg: Config, random: Random, drawn: nat, st: MatchState, actions: seq<ActionSubmission>, r: RoundResult)
    requires CarryingCostsNotNegative(cfg) && Resolved(cfg, random, drawn, st, actions, r)
    ensures r.record.metrics.Some? && UnpaidCarryingCost(r.record.metrics.value) == 0
  {
    hide BeforeWorld, AgeBacklog, CollectReceivablesDue, PayPayablesDue, ApplyLaborCosts, NormalizeActions, Value;
    FinalState(cfg, random, drawn, st, actions, r);
  }

  /** With carrying-cost hooks that are not negative, the reported profits alone explain the run. */
  lemma {:induction false} ReportedProfitExplainsRun(cfg: Config, random: Random, drawn: nat, st: MatchState, inputs: seq<seq<ActionSubmission>>)
    requires ValidState(st) && SoundHooks(cfg) && CarryingCostsNotNegative(cfg)
    ensures var run := Play(cfg, random, drawn, st, inputs);
            NetWorth(run.st.plant) - NetWorth(st.plant) == Sum(ReportedProfit(), run.results)
    decreases |inputs|
  {
    hide ValidState, SoundHooks, Settlers, Arrivals, Bought, NormalizeActions, Resolve, NetWorth, CarryingCostsNotNegative;
    if |inputs| > 0 && Resolve(cfg, random, drawn, st, inputs[0]).Ok? {
      var r := Resolve(cfg, random, drawn, st, inputs[0]).value;
      ProfitExplainsNetWorth(cfg, random, drawn, st, inputs[0], r);
      CarryingCostPaid(cfg, random, drawn, st, inputs[0], r);
      ReportedProfitExplainsRun(cfg, random, r.drawn, r.next, inputs[1..]);
      var rest := Play(cfg, random, r.drawn, r.next, inputs[1..]);
      assert ([r] + rest.results)[1..] == rest.results;
    }
  }

  // ---------------------------------------------------------------- a carrying cost that pays

  /** A plant with nothing in it. */
  ghost predicate Quiet(st: MatchState) {
    && st.plant == Plant(0, 0, st.plant.debtCeiling, [], [], [], [], [], [], [], [], [], [])
    && st.customers == []
  }

  /** Holding stock is paid for: one money unit per class, whatever is held. */
  function Refund(): (MatchState, int, InventoryClass, int) -> int {
    (st: MatchState, round: int, class_: InventoryClass, value: int) => -1
  }

  lemma NothingHappens(env: Env, p: Phase)
    requires Quiet(p.st)
    ensures BeforeWorld(env, p, []) == p
  {
    assert p.WithPlant(p.st.plant) == p;
    QuietSupply(env, p);
    QuietSales(env, p);
    hide ResolveProcurement, ReceiveSupply, ReleaseInspectionHolds, ProcessCustomerReturns, ResolveProduction, ResolveSales;
    assert ActionFor([], ProcurementManager).None? && ActionFor([], ProductionManager).None? && ActionFor([], SalesManager).None?;
  }

  lemma QuietSupply(env: Env, p: Phase)
    requires Quiet(p.st)
    ensures ResolveProcurement(env, p, None) == p && ReceiveSupply(env, p) == p
    ensures ReleaseInspectionHolds(env, p) == p && ProcessCustomerReturns(env, p) == p
  {
  }

  lemma QuietSales(env: Env, p: Phase)
    requires Quiet(p.st)
    ensures ResolveProduction(env, p, None) == p && ResolveSales(env, p, None) == p
  {
    assert SyncCustomers([], []) == [];
  }

  lemma QuietClosing(env: Env, p: Phase)
    requires Quiet(p.st) && env.cfg.inventoryCost == Some(Refund())
    ensures var s := Finalize(env, p, None).stats; s.holdingCost == -3 && s.debtServiceCost == 0
  {
    assert SyncCustomers([], []) == [];
    var aged := AdoptTargets(env, AgeBacklog(env, p), None);
    assert Quiet(aged.st);
    var settled := PayPayablesDue(env, CollectReceivablesDue(env, aged));
    assert Quiet(settled.st);
    assert Quiet(ApplyLaborCosts(env, settled).st);
  }

  /**
   Profit and net worth part ways when holding stock pays: with such a hook in any configuration, a round in which
   nothing happens reports a profit that the plant never receives.
   */
  lemma RefundBreaksProfit(cfg: Config, random: Random, drawn: nat, st: MatchState)
    requires PermutingSort(cfg) && Quiet(st) && st.matchID != 0 && st.currentRound > 0
    ensures var refunding := cfg.(inventoryCost := Some(Refund()), world := None);
            && Resolve(refunding, random, drawn, st, []).Ok?
            && var r := Resolve(refunding, random, drawn, st, []).value;
               r.record.metrics.Some? && NetWorth(r.next.plant) - NetWorth(st.plant) != r.record.metrics.value.roundProfit
  {
    hide BeforeWorld, Finalize, ComputeMetrics, NetWorth, PermutingSort;
    var refunding := cfg.(inventoryCost := Some(Refund()), world := None);
    var env, begin := EnvOf(refunding, random, st), Begin(st, drawn);
    NoActions(st);
    assert begin.st.plant == st.plant;
    NothingHappens(env, begin);
    QuietClosing(env, begin);
    MetricsAre(env, Finalize(env, begin, None));
    var r := Resolve(refunding, random, drawn, st, []).value;
    assert PermutingSort(refunding) by { SameSort(cfg, refunding); }
    QuietIsValid(st);
    ProfitExplainsNetWorth(refunding, random, drawn, st, [], r);
  }

  lemma NoActions(st: MatchState)
    ensures NormalizeActions(st, []) == Ok([]) && ActionFor([], FinanceController).None?
  {
    NobodyActed(CANONICAL_ROLES);
  }

  lemma {:induction false} NobodyActed(roles: seq<RoleID>)
    ensures Actions.InOrder(map[], roles) == []
  {
    if |roles| > 0 {
      NobodyActed(roles[1..]);
    }
  }

  lemma SameSort(a: Config, b: Config)
    requires PermutingSort(a) && b.sort == a.sort
    ensures PermutingSort(b)
  {
  }

  lemma QuietIsValid(st: MatchState)
    requires Quiet(st)
    ensures ValidState(st)
  {
  }
}
