/** What each phase may write. Everything not named in a frame is left exactly as it was. */
module Frames {
  import opened Seqs
  import opened Domain
  import opened Cash
  import opened Inventory
  import opened Labor
  import opened Quality
  import opened Phases

  ghost predicate ProcurementWrites(a: MatchState, b: MatchState) {
    b == a.(suppliers := b.suppliers,
            plant := a.plant.(inTransit := b.plant.inTransit, payables := b.plant.payables,
                              cash := b.plant.cash, debt := b.plant.debt))
  }

  ghost predicate SupplyWrites(a: MatchState, b: MatchState) {
    b == a.(suppliers := b.suppliers, plant := a.plant.(inTransit := b.plant.inTransit, parts := b.plant.parts))
  }

  ghost predicate HoldsWrites(a: MatchState, b: MatchState) {
    b == a.(plant := a.plant.(holds := b.plant.holds, finished := b.plant.finished))
  }

  ghost predicate ReturnsWrites(a: MatchState, b: MatchState) {
    b == a.(customers := b.customers,
            plant := a.plant.(holds := b.plant.holds, backlog := b.plant.backlog,
                              pendingReturns := b.plant.pendingReturns))
  }

  ghost predicate ProductionWrites(a: MatchState, b: MatchState) {
    b == a.(plant := a.plant.(parts := b.plant.parts, wip := b.plant.wip, finished := b.plant.finished,
                              holds := b.plant.holds, stations := b.plant.stations,
                              cash := b.plant.cash, debt := b.plant.debt))
  }

  ghost predicate SalesWrites(a: MatchState, b: MatchState) {
    b == a.(customers := b.customers,
            plant := a.plant.(finished := b.plant.finished, receivables := b.plant.receivables,
                              pendingReturns := b.plant.pendingReturns, backlog := b.plant.backlog,
                              cash := b.plant.cash, debt := b.plant.debt))
  }

  ghost predicate FinalizeWrites(a: MatchState, b: MatchState) {
    b == a.(customers := b.customers, targets := b.targets,
            plant := a.plant.(receivables := b.plant.receivables, payables := b.plant.payables,
                              backlog := b.plant.backlog, debtCeiling := b.plant.debtCeiling,
                              cash := b.plant.cash, debt := b.plant.debt))
  }

  lemma {:induction false} PlaceOrdersFrame(env: Env, b: Buying, cap: int, action: ActionID, line: nat, orders: seq<PurchaseOrderIntent>)
    ensures ProcurementWrites(b.p.st, PlaceOrders(env, b, cap, action, line, orders).p.st)
    ensures PlaceOrders(env, b, cap, action, line, orders).p.st.plant.payables == b.p.st.plant.payables
    ensures PlaceOrders(env, b, cap, action, line, orders).p.st.plant.cash == b.p.st.plant.cash
    ensures PlaceOrders(env, b, cap, action, line, orders).p.st.plant.debt == b.p.st.plant.debt
    decreases |orders|
  {
    hide AllowedOrder, CountOrder, NewLot, ProjectedSpendCapacity;
    if |orders| > 0 {
      PlaceOrdersFrame(env, PlaceOrder(env, b, cap, action, line, orders[0]), cap, action, line + 1, orders[1..]);
    }
  }

  lemma ProcurementFrame(env: Env, p: Phase, action: Option<ActionSubmission>)
    ensures ProcurementWrites(p.st, ResolveProcurement(env, p, action).st)
  {
    hide PlaceOrders, ProjectCashDelta;
    if action.Some? && action.value.action.procurement.Some? {
      PlaceOrdersFrame(env, Buying(p, 0), CappedBudget(p.st.targets.procurementBudget), action.value.id, 1,
                       action.value.action.procurement.value);
    }
  }

  lemma {:induction false} SortLotsFrame(env: Env, r: Receiving, lots: seq<SupplyLot>)
    ensures var q := SortLots(env, r, lots).p; q.st == r.p.st.(suppliers := q.st.suppliers)
    decreases |lots|
  {
    hide CountDelay, Delays, MayDelay, LateRounds;
    if |lots| > 0 {
      SortLotsFrame(env, SortLot(env, r, lots[0]), lots[1..]);
    }
  }

  lemma {:induction false} StoreLotsFrame(p: Phase, lots: seq<SupplyLot>)
    ensures var q := StoreLots(p, lots);
            q.st == p.st.(suppliers := q.st.suppliers, plant := p.st.plant.(parts := q.st.plant.parts))
    decreases |lots|
  {
    hide CountReceipt, Add;
    if |lots| > 0 {
      StoreLotsFrame(StoreLot(p, lots[0]), lots[1..]);
    }
  }

  lemma SupplyFrame(env: Env, p: Phase)
    ensures SupplyWrites(p.st, ReceiveSupply(env, p).st)
  {
    hide SortLots, StoreLots;
    SortLotsFrame(env, Receiving(p, [], []), p.st.plant.inTransit);
    var r := SortLots(env, Receiving(p, [], []), p.st.plant.inTransit);
    StoreLotsFrame(r.p.WithPlant(r.p.st.plant.(inTransit := r.remaining)), r.arrivals);
  }

  lemma {:induction false} ReleaseHoldsFrame(p: Phase, holds: seq<InspectionHold>)
    ensures var q := ReleaseHolds(p, holds);
            q.st == p.st.(plant := p.st.plant.(finished := q.st.plant.finished))
    decreases |holds|
  {
    hide Add;
    if |holds| > 0 {
      ReleaseHoldsFrame(ReleaseHold(p, holds[0]), holds[1..]);
    }
  }

  lemma HoldsFrame(env: Env, p: Phase)
    ensures HoldsWrites(p.st, ReleaseInspectionHolds(env, p).st)
  {
    hide ReleaseHolds, Filter;
    ReleaseHoldsFrame(p, Filter(ReleasedBy(env.round), p.st.plant.holds));
  }

  lemma {:induction false} AcceptReturnsFrame(env: Env, p: Phase, items: seq<CustomerReturn>)
    ensures ReturnsWrites(p.st, AcceptReturns(env, p, items).st)
    ensures AcceptReturns(env, p, items).st.plant.pendingReturns == p.st.plant.pendingReturns
    decreases |items|
  {
    hide AddHold, Disappoint;
    if |items| > 0 {
      AcceptReturnsFrame(env, AcceptReturn(env, p, items[0]), items[1..]);
    }
  }

  lemma ReturnsFrame(env: Env, p: Phase)
    ensures ReturnsWrites(p.st, ProcessCustomerReturns(env, p).st)
  {
    hide AcceptReturns, Filter, SyncCustomers;
    var items := p.st.plant.pendingReturns;
    AcceptReturnsFrame(env, p.WithPlant(p.st.plant.(pendingReturns := Filter(DueAfter(env.round), items))),
                       Filter(DueBy(env.round), items));
  }

  lemma {:induction false} ReleaseAllFrame(env: Env, p: Phase, first: WorkstationID, releases: seq<ProductionRelease>)
    ensures var q := ReleaseAll(env, p, first, releases);
            q.st == p.st.(plant := p.st.plant.(parts := q.st.plant.parts, wip := q.st.plant.wip))
    decreases |releases|
  {
    hide Consume, Add, AcceptedRelease;
    if |releases| > 0 {
      ReleaseAllFrame(env, ReleaseOne(env, p, first, releases[0]), first, releases[1..]);
    }
  }

  ghost predicate AdvanceWrites(a: MatchState, b: MatchState) {
    b == a.(plant := a.plant.(wip := b.plant.wip, finished := b.plant.finished, holds := b.plant.holds,
                              stations := b.plant.stations))
  }

  lemma CompleteFrame(env: Env, p: Phase, key: WipKey, qty: int, cost: int, overtime: bool)
    ensures AdvanceWrites(p.st, CompleteUnits(env, p, key, qty, cost, overtime).st)
    ensures CompleteUnits(env, p, key, qty, cost, overtime).st.plant.stations == p.st.plant.stations
  {
    hide Add, AddHold, FinishedSplit, Normalized;
  }

  lemma MoveUnitsFrame(env: Env, p: Phase, key: WipKey, qty: int, cost: int, overtime: bool)
    ensures AdvanceWrites(p.st, MoveUnits(env, p, key, qty, cost, overtime).st)
    ensures MoveUnits(env, p, key, qty, cost, overtime).st.plant.stations == p.st.plant.stations
  {
    hide Add, CompleteUnits;
    CompleteFrame(env, p, key, qty, cost, overtime);
  }

  lemma BookFrame(s: Producing, i: nat, plan: Plan)
    requires i < |s.p.st.plant.stations|
    ensures AdvanceWrites(s.p.st, BookAdvance(s, i, plan).p.st)
    ensures |BookAdvance(s, i, plan).p.st.plant.stations| == |s.p.st.plant.stations|
  {
    hide ConsumeLabor, OvertimeUsed;
  }

  lemma AdvanceFrame(env: Env, s: Producing, cap: int, a: CapacityAllocation)
    ensures AdvanceWrites(s.p.st, Advance(env, s, cap, a).p.st)
  {
    hide PlanAdvance, BookAdvance, MoveUnits, Take, TakeCost, OvertimeUsed, StressedCapacity;
    var i := StationIndex(s.p.st.plant.stations, a.station);
    if a.capacity > 0 && i < |s.p.st.plant.stations| {
      var p := MeasureStress(s.p, i);
      var plan := PlanAdvance(env, p, i, At(s.overtime, a.station), cap, s.spent, a);
      if plan.advance > 0 {
        var key := WipKey(a.product, a.station);
        var cost := PerUnitCost(TakeCost(p.st.plant.wip, key, plan.advance, 0), plan.advance);
        var overtime := OvertimeUsed(p.st.plant.stations[i], plan.advance, At(s.overtime, a.station)) > 0;
        var taken := s.(p := TakeWip(p, key, plan.advance));
        BookFrame(taken, i, plan);
        MoveUnitsFrame(env, BookAdvance(taken, i, plan).p, key, plan.advance, cost, overtime);
      }
    }
  }

  lemma {:induction false} AdvanceAllFrame(env: Env, s: Producing, cap: int, allocations: seq<CapacityAllocation>)
    ensures AdvanceWrites(s.p.st, AdvanceAll(env, s, cap, allocations).p.st)
    decreases |allocations|
  {
    hide Advance;
    if |allocations| > 0 {
      AdvanceFrame(env, s, cap, allocations[0]);
      AdvanceAllFrame(env, Advance(env, s, cap, allocations[0]), cap, allocations[1..]);
    }
  }

  lemma ProductionFrame(env: Env, p: Phase, action: Option<ActionSubmission>)
    ensures ProductionWrites(p.st, ResolveProduction(env, p, action).st)
  {
    hide ReleaseAll, AdvanceAll, RequestOvertime, ProjectCashDelta;
    if action.Some? && action.value.action.production.Some? && |p.st.plant.stations| > 0 {
      var todo := action.value.action.production.value;
      var first, overtime := p.st.plant.stations[0].id, RequestOvertime(map[], todo.overtime);
      ReleaseAllFrame(env, p, first, todo.releases);
      var released := ReleaseAll(env, p, first, todo.releases);
      AdvanceAllFrame(env, Producing(released, overtime, 0), CappedBudget(released.st.targets.productionSpendBudget),
                      todo.allocations);
    }
  }

  lemma {:induction false} ShipAllFrame(env: Env, s: Selling, prices: map<ProductID, int>, entries: seq<BacklogEntry>)
    ensures var t := ShipAll(env, s, prices, entries);
            SalesWrites(s.p.st, t.p.st) && t.p.st.customers == s.p.st.customers &&
            t.p.st.plant.backlog == s.p.st.plant.backlog
    decreases |entries|
  {
    hide Take, QtyOf, CostOf, ReturnQuantity, Normalized, DrawnForReturns, ProjectCashDelta, PaymentDelay, Price;
    if |entries| > 0 {
      ShipAllFrame(env, ShipEntry(env, s, prices, entries[0]), prices, entries[1..]);
    }
  }

  lemma SalesFrame(env: Env, p: Phase, action: Option<ActionSubmission>)
    ensures SalesWrites(p.st, ResolveSales(env, p, action).st)
  {
    hide ShipAll, SyncCustomers, EffectiveBacklog;
    ShipAllFrame(env, Selling(p, [], []), SalesPrices(action), env.cfg.sort(EffectiveBacklog(p.st)));
  }

  lemma {:induction false} AgeAllFrame(env: Env, a: Aging, entries: seq<BacklogEntry>)
    ensures var q := AgeAll(env, a, entries).p; q.st == a.p.st.(customers := q.st.customers)
    decreases |entries|
  {
    hide Disappoint;
    if |entries| > 0 {
      AgeAllFrame(env, AgeEntry(env, a, entries[0]), entries[1..]);
    }
  }

  lemma AgingFrame(env: Env, p: Phase)
    ensures var q := AgeBacklog(env, p);
            q.st == p.st.(customers := q.st.customers, plant := p.st.plant.(backlog := q.st.plant.backlog))
  {
    hide AgeAll, SyncCustomers, EffectiveBacklog;
    AgeAllFrame(env, Aging(p, []), EffectiveBacklog(p.st));
  }

  lemma {:induction false} SettleFrame(p: Phase, items: seq<CashCommitment>)
    ensures var q := CollectEach(p, items);
            q.st == p.st.(plant := p.st.plant.(cash := q.st.plant.cash, debt := q.st.plant.debt))
    ensures var q := PayEach(p, items);
            q.st == p.st.(plant := p.st.plant.(cash := q.st.plant.cash, debt := q.st.plant.debt))
    decreases |items|
  {
    hide ProjectCashDelta;
    if |items| > 0 {
      SettleFrame(CollectOne(p, items[0]), items[1..]);
      SettleFrame(PayOne(p, items[0]), items[1..]);
    }
  }

  lemma CollectFrame(env: Env, p: Phase)
    ensures var q := CollectReceivablesDue(env, p);
            q.st == p.st.(plant := p.st.plant.(receivables := Filter(Open(env.round), p.st.plant.receivables),
                                               cash := q.st.plant.cash, debt := q.st.plant.debt))
  {
    hide CollectEach, Filter;
    var items := p.st.plant.receivables;
    SettleFrame(p.WithPlant(p.st.plant.(receivables := Filter(Open(env.round), items))), Filter(Matured(env.round), items));
  }

  lemma PayFrame(env: Env, p: Phase)
    ensures var q := PayPayablesDue(env, p);
            q.st == p.st.(plant := p.st.plant.(payables := Filter(Open(env.round), p.st.plant.payables),
                                               cash := q.st.plant.cash, debt := q.st.plant.debt))
  {
    hide PayEach, Filter;
    var items := p.st.plant.payables;
    SettleFrame(p.WithPlant(p.st.plant.(payables := Filter(Open(env.round), items))), Filter(Matured(env.round), items));
  }

  lemma FinalizeFrame(env: Env, p: Phase, action: Option<ActionSubmission>)
    ensures FinalizeWrites(p.st, Finalize(env, p, action).st)
    ensures Finalize(env, p, action).st.customers == AgeBacklog(env, p).st.customers
    ensures Finalize(env, p, action).st.plant.backlog == AgeBacklog(env, p).st.plant.backlog
  {
    hide AgeBacklog, CollectReceivablesDue, PayPayablesDue, Sum, HoldingCost, CarryingCost, ProjectCashDelta, Filter;
    AgingFrame(env, p);
    var aged := AdoptTargets(env, AgeBacklog(env, p), action);
    CollectFrame(env, aged);
    PayFrame(env, CollectReceivablesDue(env, aged));
  }
}
