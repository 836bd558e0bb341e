/**
 The cash position over whole rounds and runs. It is never cash and debt at once, so it is determined by its
 net value, and the net value is what the metrics say was received and disbursed.
 */
module CashRuns {
  import opened Seqs
  import opened Domain
  import opened Cash
  import opened Inventory
  import opened Quality
  import opened Phases
  import opened Actions
  import opened Resolver
  import opened Ledger
  import opened LedgerPhases
  import opened LedgerClosing
  import opened Frames
  import opened Accounting

  function PositionOf(plant: Plant): Position { Position(plant.cash, plant.debt) }

  predicate Solid(p: Phase) { PositionOf(p.st.plant).Normal() }

  lemma ApplyKeepsSolid(p: Phase, delta: int)
    requires Solid(p)
    ensures Solid(p.ApplyCash(delta))
  {
    hide ProjectCashDelta, NormalForm;
    StepIsNormalForm(PositionOf(p.st.plant), delta);
    NormalFormIsNormal(PositionOf(p.st.plant).Net() + delta);
  }

  lemma NormalFormIsNormal(net: int)
    ensures NormalForm(net).Normal() && NormalForm(net).Net() == net
  {
  }

  lemma CashKeepsNormal(p: Phase, delta: int)
    requires Solid(p)
    ensures Solid(p.ApplyCash(delta)) && Solid(p.Receive(delta)) && Solid(p.Disburse(delta))
  {
    hide ProjectCashDelta, NormalForm;
    ApplyKeepsSolid(p, delta);
    ApplyKeepsSolid(p, -delta);
    assert p.Receive(delta).st == p.ApplyCash(delta).st;
    assert p.Disburse(delta).st == p.ApplyCash(-delta).st;
  }

  lemma ProcurementSolid(env: Env, p: Phase, action: Option<ActionSubmission>)
    requires Solid(p)
    ensures Solid(ResolveProcurement(env, p, action))
  {
    hide PlaceOrders;
    if action.Some? && action.value.action.procurement.Some? {
      var cap, orders := CappedBudget(p.st.targets.procurementBudget), action.value.action.procurement.value;
      PlaceOrdersFrame(env, Buying(p, 0), cap, action.value.id, 1, orders);
      var b := PlaceOrders(env, Buying(p, 0), cap, action.value.id, 1, orders);
      CashKeepsNormal(b.p, b.spent);
    }
  }

  lemma ProductionSolid(env: Env, p: Phase, action: Option<ActionSubmission>)
    requires Solid(p)
    ensures Solid(ResolveProduction(env, p, action))
  {
    hide ReleaseAll, AdvanceAll, RequestOvertime, ProjectCashDelta;
    if action.Some? && action.value.action.production.Some? && |p.st.plant.stations| > 0 {
      var todo := action.value.action.production.value;
      var first, overtime := p.st.plant.stations[0].id, RequestOvertime(map[], todo.overtime);
      ReleaseAllFrame(env, p, first, todo.releases);
      var released := ReleaseAll(env, p, first, todo.releases);
      var cap := CappedBudget(released.st.targets.productionSpendBudget);
      AdvanceAllFrame(env, Producing(released, overtime, 0), cap, todo.allocations);
      var s := AdvanceAll(env, Producing(released, overtime, 0), cap, todo.allocations);
      CashKeepsNormal(s.p, s.p.stats.productionSpend);
    }
  }

  lemma ShipEntrySolid(env: Env, s: Selling, prices: map<ProductID, int>, entry: BacklogEntry)
    requires Solid(s.p)
    ensures Solid(ShipEntry(env, s, prices, entry).p)
  {
    hide Take, QtyOf, CostOf, ReturnQuantity, Normalized, DrawnForReturns, ProjectCashDelta, PaymentDelay, Price;
    var finished := s.p.st.plant.finished;
    var qty := Min(entry.qty, QtyOf(finished, entry.product));
    if qty > 0 {
      var price := Price(prices, entry.product);
      var sold := Ship(s.p, entry, qty, price);
      CashKeepsNormal(sold, qty * price);
    }
  }

  lemma {:induction false} ShipAllSolid(env: Env, s: Selling, prices: map<ProductID, int>, entries: seq<BacklogEntry>)
    requires Solid(s.p)
    ensures Solid(ShipAll(env, s, prices, entries).p)
    decreases |entries|
  {
    hide ShipEntry;
    if |entries| > 0 {
      ShipEntrySolid(env, s, prices, entries[0]);
      ShipAllSolid(env, ShipEntry(env, s, prices, entries[0]), prices, entries[1..]);
    }
  }

  lemma BeforeWorldSolid(env: Env, p: Phase, actions: seq<ActionSubmission>)
    requires Solid(p)
    ensures Solid(BeforeWorld(env, p, actions))
  {
    hide ResolveProcurement, ReceiveSupply, ReleaseInspectionHolds, ProcessCustomerReturns, ResolveProduction, ShipAll;
    hide EffectiveBacklog, SyncCustomers, SalesPrices;
    ProcurementSolid(env, p, ActionFor(actions, ProcurementManager));
    var p1 := ResolveProcurement(env, p, ActionFor(actions, ProcurementManager));
    SupplyFrame(env, p1);
    var p2 := ReceiveSupply(env, p1);
    HoldsFrame(env, p2);
    var p3 := ReleaseInspectionHolds(env, p2);
    ReturnsFrame(env, p3);
    var p4 := ProcessCustomerReturns(env, p3);
    ProductionSolid(env, p4, ActionFor(actions, ProductionManager));
    var p5 := ResolveProduction(env, p4, ActionFor(actions, ProductionManager));
    ShipAllSolid(env, Selling(p5, [], []), SalesPrices(ActionFor(actions, SalesManager)), env.cfg.sort(EffectiveBacklog(p5.st)));
  }

  lemma {:induction false} SettleSolid(p: Phase, items: seq<CashCommitment>)
    requires Solid(p)
    ensures Solid(CollectEach(p, items)) && Solid(PayEach(p, items))
    decreases |items|
  {
    hide ProjectCashDelta;
    if |items| > 0 {
      CashKeepsNormal(p, items[0].amount);
      CashKeepsNormal(p, -items[0].amount);
      SettleSolid(CollectOne(p, items[0]), items[1..]);
      SettleSolid(PayOne(p, items[0]), items[1..]);
    }
  }

  lemma DueSettlementSolid(env: Env, p: Phase)
    requires Solid(p)
    ensures Solid(CollectReceivablesDue(env, p)) && Solid(PayPayablesDue(env, p))
  {
    hide CollectEach, PayEach, Filter, Sum;
    var plant := p.st.plant;
    SettleSolid(p.WithPlant(plant.(receivables := Filter(Open(env.round), plant.receivables))),
                Filter(Matured(env.round), plant.receivables));
    SettleSolid(p.WithPlant(plant.(payables := Filter(Open(env.round), plant.payables))),
                Filter(Matured(env.round), plant.payables));
  }

  lemma CostsSolid(env: Env, p: Phase)
    requires Solid(p)
    ensures Solid(ApplyLaborCosts(env, p)) && Solid(ApplyOperatingCosts(env, p))
  {
    hide Sum, HoldingCost, CarryingCost, ProjectCashDelta;
    var stations := p.st.plant.stations;
    CashKeepsNormal(p, Sum(StationLaborCost(), stations) + Sum(StationOvertimeCost(), stations));
    CashKeepsNormal(p, HoldingCost(env, p.st) + CarryingCost(p.st.plant.debt));
  }

  lemma FinalizeSolid(env: Env, p: Phase, action: Option<ActionSubmission>)
    requires Solid(p)
    ensures Solid(Finalize(env, p, action))
  {
    hide AgeBacklog, CollectReceivablesDue, PayPayablesDue, ApplyLaborCosts, ApplyOperatingCosts;
    AgingFrame(env, p);
    var p1 := AdoptTargets(env, AgeBacklog(env, p), action);
    DueSettlementSolid(env, p1);
    var p2 := CollectReceivablesDue(env, p1);
    DueSettlementSolid(env, p2);
    var p3 := PayPayablesDue(env, p2);
    CostsSolid(env, p3);
    CostsSolid(env, ApplyLaborCosts(env, p3));
  }

  /** Every round keeps the position normal: the plant never holds cash while it owes debt. */
  lemma RoundKeepsNormal(cfg: Config, random: Random, drawn: nat, st: MatchState, actions: seq<ActionSubmission>, r: RoundResult)
    requires OrderlyWorld(cfg) && PositionOf(st.plant).Normal() && Resolved(cfg, random, drawn, st, actions, r)
    ensures PositionOf(r.next.plant).Normal()
  {
    hide BeforeWorld, Finalize, NormalizeActions, ResetCapacity;
    FinalState(cfg, random, drawn, st, actions, r);
    var env, ordered := EnvOf(cfg, random, st), NormalizeActions(st, actions).value;
    var begin := Begin(st, drawn);
    BeforeWorldSolid(env, begin, ordered);
    var p1 := BeforeWorld(env, begin, ordered);
    if cfg.world.Some? {
      assert OrderlyEffect(p1.st, cfg.world.value(p1.st, ordered, p1.drawn).value);
    }
    FinalizeSolid(env, ApplyWorld(env, p1, ordered).value, ActionFor(ordered, FinanceController));
  }

  function NetReceived(): RoundResult -> int {
    (r: RoundResult) =>
      if r.record.metrics.Some?
      then r.record.metrics.value.cashReceipts - r.record.metrics.value.cashDisbursements else 0
  }

  lemma RoundPosition(cfg: Config, random: Random, drawn: nat, st: MatchState, actions: seq<ActionSubmission>, r: RoundResult)
    requires ValidState(st) && SoundHooks(cfg) && PositionOf(st.plant).Normal() && Resolved(cfg, random, drawn, st, actions, r)
    ensures ValidState(r.next) && PositionOf(r.next.plant).Normal()
    ensures PositionOf(r.next.plant).Net() == PositionOf(st.plant).Net() + NetReceived()(r)
  {
    hide ValidState, Resolve, OrderlyWorld, PermutingSort, NetWorth;
    CashFlowExplainsCash(cfg, random, drawn, st, actions, r);
    ProfitExplainsNetWorth(cfg, random, drawn, st, actions, r);
    RoundKeepsNormal(cfg, random, drawn, st, actions, r);
  }

  /** Over any run the net position moves by what the metrics say was received and disbursed, and stays normal. */
  lemma {:induction false} NetAfterRun(cfg: Config, random: Random, drawn: nat, st: MatchState, inputs: seq<seq<ActionSubmission>>)
    requires ValidState(st) && SoundHooks(cfg) && PositionOf(st.plant).Normal()
    ensures var run := Play(cfg, random, drawn, st, inputs);
            && PositionOf(run.st.plant).Normal()
            && PositionOf(run.st.plant).Net() == PositionOf(st.plant).Net() + Sum(NetReceived(), run.results)
    decreases |inputs|
  {
    hide ValidState, Resolve, SoundHooks, PositionOf, NetReceived, Position.Normal, Position.Net;
    if |inputs| > 0 && Resolve(cfg, random, drawn, st, inputs[0]).Ok? {
      var r := Resolve(cfg, random, drawn, st, inputs[0]).value;
      RoundPosition(cfg, random, drawn, st, inputs[0], r);
      NetAfterRun(cfg, random, r.drawn, r.next, inputs[1..]);
      var rest := Play(cfg, random, r.drawn, r.next, inputs[1..]);
      assert ([r] + rest.results)[1..] == rest.results;
    }
  }

  /**
   Cash and debt at the end of any run are determined: the normal form of what the plant started with plus
   everything received less everything disbursed. How receipts and payments interleave does not matter.
   */
  lemma PositionAfterRun(cfg: Config, random: Random, drawn: nat, st: MatchState, inputs: seq<seq<ActionSubmission>>)
    requires ValidState(st) && SoundHooks(cfg) && PositionOf(st.plant).Normal()
    ensures var run := Play(cfg, random, drawn, st, inputs);
            PositionOf(run.st.plant) == NormalForm(PositionOf(st.plant).Net() + Sum(NetReceived(), run.results))
  {
    hide ValidState, Play, SoundHooks, NetReceived, PositionOf, NormalForm, Position.Normal, Position.Net;
    NetAfterRun(cfg, random, drawn, st, inputs);
    OnlyNormalForm(PositionOf(Play(cfg, random, drawn, st, inputs).st.plant));
  }

  lemma OnlyNormalForm(p: Position)
    requires p.Normal()
    ensures p == NormalForm(p.Net())
  {
  }

  /** Settling what is due, receivables first, leaves the payables-first projection of the plant where it was. */
  lemma SettlementKeepsProjection(env: Env, p: Phase)
    requires TidyPlant(p.st.plant) && Solid(p)
    ensures var q := PayPayablesDue(env, CollectReceivablesDue(env, p));
            Solid(q) && ProjectedPosition(q.st.plant) == ProjectedPosition(p.st.plant)
  {
    hide CollectReceivablesDue, PayPayablesDue, ProjectedPosition, TidyPlant, Expense;
    var p1 := CollectReceivablesDue(env, p);
    var q := PayPayablesDue(env, p1);
    CollectBalances(env, p, Accrual);
    PayBalances(env, p1, Accrual);
    DueSettlementSolid(env, p);
    DueSettlementSolid(env, p1);
    SumZero(Accrual, p.events);
    SumZero(Accrual, q.events);
    SettlementStats(env, p);
    ProjectionEqualsSettlement(p.st.plant);
    ProjectionEqualsSettlement(q.st.plant);
  }

  lemma SettlementStats(env: Env, p: Phase)
    ensures var q := PayPayablesDue(env, CollectReceivablesDue(env, p));
            Expense(q.stats) == Expense(p.stats) && q.stats.revenue == p.stats.revenue
  {
    hide CollectEach, PayEach, Filter, Sum;
    var open := p.WithPlant(p.st.plant.(receivables := Filter(Phases.Open(env.round), p.st.plant.receivables)));
    SettleStats(open, Filter(Matured(env.round), p.st.plant.receivables));
    var p1 := CollectReceivablesDue(env, p);
    var left := p1.WithPlant(p1.st.plant.(payables := Filter(Phases.Open(env.round), p1.st.plant.payables)));
    SettleStats(left, Filter(Matured(env.round), p1.st.plant.payables));
  }

  /**
   The position the finance report projects in any state of a run: the normal form of the net worth the
   match began with plus all profits since, corrected by carrying costs that were reported but not charged.
   */
  lemma ProjectionAfterRun(cfg: Config, random: Random, drawn: nat, st: MatchState, inputs: seq<seq<ActionSubmission>>)
    requires ValidState(st) && SoundHooks(cfg) && PositionOf(st.plant).Normal()
    ensures var run := Play(cfg, random, drawn, st, inputs);
            ReportedPosition(run.st.plant) == NormalForm(NetWorth(st.plant) + Sum(Profit(), run.results))
  {
    hide ValidState, SoundHooks, Play, ProjectedPosition, ReportedPosition;
    PositionAfterRun(cfg, random, drawn, st, inputs);
    ProfitExplainsRun(cfg, random, drawn, st, inputs);
    ProjectionEqualsSettlement(Play(cfg, random, drawn, st, inputs).st.plant);
  }
}
