/**
 The resolver's history limit decides how many records the next state keeps, and nothing else: no phase reads it.
 */
module Window {
  import opened Domain
  import opened Phases
  import opened Quality
  import opened Inventory
  import opened Labor
  import opened Actions
  import opened Resolver

  /** Two environments that differ in the history limit at most. */
  ghost predicate Alike(a: Env, b: Env) { b == a.(cfg := a.cfg.(historyLimit := b.cfg.historyLimit)) }

  lemma {:induction false} OrdersAlike(a: Env, e: Env, b: Buying, cap: int, action: ActionID, line: nat, orders: seq<PurchaseOrderIntent>)
    requires Alike(a, e)
    ensures PlaceOrders(e, b, cap, action, line, orders) == PlaceOrders(a, b, cap, action, line, orders)
    decreases |orders|
  {
    if |orders| > 0 {
      OrderAlike(a, e, b, cap, action, line, orders[0]);
      hide PlaceOrder;
      OrdersAlike(a, e, PlaceOrder(a, b, cap, action, line, orders[0]), cap, action, line + 1, orders[1..]);
    }
  }

  lemma OrderAlike(a: Env, e: Env, b: Buying, cap: int, action: ActionID, line: nat, order: PurchaseOrderIntent)
    requires Alike(a, e)
    ensures PlaceOrder(e, b, cap, action, line, order) == PlaceOrder(a, b, cap, action, line, order)
  {
    hide AllowedOrder, BookLot;
  }

  lemma ProcurementAlike(a: Env, e: Env, p: Phase, action: Option<ActionSubmission>)
    requires Alike(a, e)
    ensures ResolveProcurement(e, p, action) == ResolveProcurement(a, p, action)
  {
    hide PlaceOrders;
    if action.Some? && action.value.action.procurement.Some? {
      OrdersAlike(a, e, Buying(p, 0), CappedBudget(p.st.targets.procurementBudget), action.value.id, 1,
                  action.value.action.procurement.value);
    }
  }

  lemma {:induction false} LotsAlike(a: Env, e: Env, r: Receiving, lots: seq<SupplyLot>)
    requires Alike(a, e)
    ensures SortLots(e, r, lots) == SortLots(a, r, lots)
    decreases |lots|
  {
    if |lots| > 0 {
      LotAlike(a, e, r, lots[0]);
      hide SortLot;
      LotsAlike(a, e, SortLot(a, r, lots[0]), lots[1..]);
    }
  }

  lemma LotAlike(a: Env, e: Env, r: Receiving, lot: SupplyLot)
    requires Alike(a, e)
    ensures SortLot(e, r, lot) == SortLot(a, r, lot)
  {
    hide CountDelay, LateRounds;
  }

  lemma {:induction false} ReturnsAlike(a: Env, e: Env, p: Phase, items: seq<CustomerReturn>)
    requires Alike(a, e)
    ensures AcceptReturns(e, p, items) == AcceptReturns(a, p, items)
    decreases |items|
  {
    if |items| > 0 {
      assert AcceptReturn(e, p, items[0]) == AcceptReturn(a, p, items[0]);
      hide AcceptReturn;
      ReturnsAlike(a, e, AcceptReturn(a, p, items[0]), items[1..]);
    }
  }

  lemma BeforeProductionAlike(a: Env, e: Env, p: Phase, actions: seq<ActionSubmission>)
    requires Alike(a, e)
    ensures BeforeProduction(e, p, actions) == BeforeProduction(a, p, actions)
  {
    hide ResolveProcurement, SortLots, StoreLots, ReleaseHolds, AcceptReturns;
    ProcurementAlike(a, e, p, ActionFor(actions, ProcurementManager));
    var bought := ResolveProcurement(a, p, ActionFor(actions, ProcurementManager));
    LotsAlike(a, e, Receiving(bought, [], []), bought.st.plant.inTransit);
    var held := ReleaseInspectionHolds(a, ReceiveSupply(a, bought));
    var items := held.st.plant.pendingReturns;
    ReturnsAlike(a, e, held.WithPlant(held.st.plant.(pendingReturns := Seqs.Filter(DueAfter(a.round), items))),
                 Seqs.Filter(DueBy(a.round), items));
  }

  lemma {:induction false} ReleasesAlike(a: Env, e: Env, p: Phase, first: WorkstationID, releases: seq<ProductionRelease>)
    requires Alike(a, e)
    ensures ReleaseAll(e, p, first, releases) == ReleaseAll(a, p, first, releases)
    decreases |releases|
  {
    if |releases| > 0 {
      ReleaseAlike(a, e, p, first, releases[0]);
      hide ReleaseOne;
      ReleasesAlike(a, e, ReleaseOne(a, p, first, releases[0]), first, releases[1..]);
    }
  }

  lemma ReleaseAlike(a: Env, e: Env, p: Phase, first: WorkstationID, release: ProductionRelease)
    requires Alike(a, e)
    ensures ReleaseOne(e, p, first, release) == ReleaseOne(a, p, first, release)
  {
    hide Consume, Add, AcceptedRelease;
  }

  lemma PlanAlike(a: Env, e: Env, p: Phase, i: nat, overtime: int, cap: int, spent: int, x: CapacityAllocation)
    requires Alike(a, e) && i < |p.st.plant.stations|
    ensures PlanAdvance(e, p, i, overtime, cap, spent, x) == PlanAdvance(a, p, i, overtime, cap, spent, x)
  {
    hide AffordableAdvance, QtyOf, LaborLeft, BaseLaborLeft;
  }

  lemma MoveAlike(a: Env, e: Env, p: Phase, key: WipKey, qty: int, cost: int, overtime: bool)
    requires Alike(a, e)
    ensures MoveUnits(e, p, key, qty, cost, overtime) == MoveUnits(a, p, key, qty, cost, overtime)
  {
    hide Add, ScrapUnits, ReworkUnits, HoldUnits, StockUnits, FinishedSplit, Normalized, Drawn;
  }

  lemma AdvanceAlike(a: Env, e: Env, s: Producing, cap: int, x: CapacityAllocation)
    requires Alike(a, e)
    ensures Advance(e, s, cap, x) == Advance(a, s, cap, x)
  {
    hide PlanAdvance, BookAdvance, MoveUnits, MeasureStress, Take, TakeCost, OvertimeUsed;
    var i := StationIndex(s.p.st.plant.stations, x.station);
    if x.capacity > 0 && i < |s.p.st.plant.stations| {
      var p, left := MeasureStress(s.p, i), At(s.overtime, x.station);
      MeasuredCount(s.p, i);
      PlanAlike(a, e, p, i, left, cap, s.spent, x);
      var plan := PlanAdvance(a, p, i, left, cap, s.spent, x);
      if plan.advance > 0 {
        var key := WipKey(x.product, x.station);
        var cost := PerUnitCost(TakeCost(p.st.plant.wip, key, plan.advance, 0), plan.advance);
        var overtime := OvertimeUsed(p.st.plant.stations[i], plan.advance, left) > 0;
        MoveAlike(a, e, BookAdvance(s.(p := TakeWip(p, key, plan.advance)), i, plan).p, key, plan.advance, cost, overtime);
      }
    }
  }

  lemma MeasuredCount(p: Phase, i: nat)
    requires i < |p.st.plant.stations|
    ensures |MeasureStress(p, i).st.plant.stations| == |p.st.plant.stations|
  {
    hide StressedCapacity, Units;
  }

  lemma {:induction false} AdvancesAlike(a: Env, e: Env, s: Producing, cap: int, allocations: seq<CapacityAllocation>)
    requires Alike(a, e)
    ensures AdvanceAll(e, s, cap, allocations) == AdvanceAll(a, s, cap, allocations)
    decreases |allocations|
  {
    hide Advance;
    if |allocations| > 0 {
      AdvanceAlike(a, e, s, cap, allocations[0]);
      AdvancesAlike(a, e, Advance(a, s, cap, allocations[0]), cap, allocations[1..]);
    }
  }

  lemma ProductionAlike(a: Env, e: Env, p: Phase, action: Option<ActionSubmission>)
    requires Alike(a, e)
    ensures ResolveProduction(e, p, action) == ResolveProduction(a, p, action)
  {
    hide ReleaseAll, AdvanceAll, RequestOvertime;
    if action.Some? && action.value.action.production.Some? && |p.st.plant.stations| > 0 {
      var todo, first := action.value.action.production.value, p.st.plant.stations[0].id;
      ReleasesAlike(a, e, p, first, todo.releases);
      var released := ReleaseAll(a, p, first, todo.releases);
      AdvancesAlike(a, e, Producing(released, RequestOvertime(map[], todo.overtime), 0),
                    CappedBudget(released.st.targets.productionSpendBudget), todo.allocations);
    }
  }

  lemma {:induction false} ShipmentsAlike(a: Env, e: Env, s: Selling, prices: map<ProductID, int>, entries: seq<BacklogEntry>)
    requires Alike(a, e)
    ensures ShipAll(e, s, prices, entries) == ShipAll(a, s, prices, entries)
    decreases |entries|
  {
    if |entries| > 0 {
      ShipmentAlike(a, e, s, prices, entries[0]);
      hide ShipEntry;
      ShipmentsAlike(a, e, ShipEntry(a, s, prices, entries[0]), prices, entries[1..]);
    }
  }

  lemma ShipmentAlike(a: Env, e: Env, s: Selling, prices: map<ProductID, int>, entry: BacklogEntry)
    requires Alike(a, e)
    ensures ShipEntry(e, s, prices, entry) == ShipEntry(a, s, prices, entry)
  {
    hide Ship, QtyOf, CostOf, Price, ReturnQuantity, DrawnForReturns, Normalized;
  }

  lemma SalesAlike(a: Env, e: Env, p: Phase, action: Option<ActionSubmission>)
    requires Alike(a, e)
    ensures ResolveSales(e, p, action) == ResolveSales(a, p, action)
  {
    hide ShipAll, EffectiveBacklog, SyncCustomers;
    ShipmentsAlike(a, e, Selling(p, [], []), SalesPrices(action), a.cfg.sort(EffectiveBacklog(p.st)));
  }

  lemma {:induction false} AgesAlike(a: Env, e: Env, x: Aging, entries: seq<BacklogEntry>)
    requires Alike(a, e)
    ensures AgeAll(e, x, entries) == AgeAll(a, x, entries)
    decreases |entries|
  {
    if |entries| > 0 {
      assert AgeEntry(e, x, entries[0]) == AgeEntry(a, x, entries[0]);
      hide AgeEntry;
      AgesAlike(a, e, AgeEntry(a, x, entries[0]), entries[1..]);
    }
  }

  lemma AgingAlike(a: Env, e: Env, p: Phase)
    requires Alike(a, e)
    ensures AgeBacklog(e, p) == AgeBacklog(a, p)
  {
    hide AgeAll, EffectiveBacklog, SyncCustomers;
    AgesAlike(a, e, Aging(p, []), EffectiveBacklog(p.st));
  }

  lemma SettlementAlike(a: Env, e: Env, p: Phase, action: Option<ActionSubmission>)
    requires Alike(a, e)
    ensures AdoptTargets(e, p, action) == AdoptTargets(a, p, action)
    ensures CollectReceivablesDue(e, p) == CollectReceivablesDue(a, p)
    ensures PayPayablesDue(e, p) == PayPayablesDue(a, p)
  {
    hide CollectEach, PayEach, Seqs.Filter, Seqs.Sum;
  }

  lemma CostsAlike(a: Env, e: Env, p: Phase)
    requires Alike(a, e)
    ensures ApplyLaborCosts(e, p) == ApplyLaborCosts(a, p)
    ensures ApplyOperatingCosts(e, p) == ApplyOperatingCosts(a, p)
  {
    hide Seqs.Sum, Value, CarryingCost;
  }

  lemma FinalizeAlike(a: Env, e: Env, p: Phase, action: Option<ActionSubmission>)
    requires Alike(a, e)
    ensures Finalize(e, p, action) == Finalize(a, p, action)
  {
    hide Alike, AgeBacklog, AdoptTargets, CollectReceivablesDue, PayPayablesDue, ApplyLaborCosts, ApplyOperatingCosts;
    AgingAlike(a, e, p);
    var aged := AgeBacklog(a, p);
    SettlementAlike(a, e, aged, action);
    var adopted := AdoptTargets(a, aged, action);
    SettlementAlike(a, e, adopted, action);
    var collected := CollectReceivablesDue(a, adopted);
    SettlementAlike(a, e, collected, action);
    var settled := PayPayablesDue(a, collected);
    CostsAlike(a, e, settled);
    CostsAlike(a, e, ApplyLaborCosts(a, settled));
  }

  lemma MetricsAlike(a: Env, e: Env, p: Phase)
    requires Alike(a, e)
    ensures ComputeMetrics(e, p) == ComputeMetrics(a, p)
  {
    hide Seqs.Sum, Value, Units, Expense, OnTimeRate, AverageReliability;
  }

  /** The whole round, up to the metrics. */
  lemma PlayedAlike(a: Env, e: Env, p: Phase, actions: seq<ActionSubmission>)
    requires Alike(a, e)
    ensures Played(e, p, actions) == Played(a, p, actions)
  {
    hide BeforeProduction, ResolveProduction, ResolveSales, Finalize;
    BeforeProductionAlike(a, e, p, actions);
    var early := BeforeProduction(a, p, actions);
    ProductionAlike(a, e, early, ActionFor(actions, ProductionManager));
    SalesAlike(a, e, ResolveProduction(a, early, ActionFor(actions, ProductionManager)), ActionFor(actions, SalesManager));
    assert BeforeWorld(e, p, actions) == BeforeWorld(a, p, actions);
    var before := BeforeWorld(a, p, actions);
    assert ApplyWorld(e, before, actions) == ApplyWorld(a, before, actions);
    if ApplyWorld(a, before, actions).Ok? {
      FinalizeAlike(a, e, ApplyWorld(a, before, actions).value, ActionFor(actions, FinanceController));
    }
  }

  /** With another history limit a round is accepted or refused alike, and comes out the same but for the kept history. */
  lemma OnlyHistoryDiffers(cfg: Config, limit: int, random: Random, drawn: nat, st: MatchState, actions: seq<ActionSubmission>)
    ensures var one, other := Resolve(cfg, random, drawn, st, actions), Resolve(cfg.(historyLimit := limit), random, drawn, st, actions);
            && (one.Ok? <==> other.Ok?)
            && (one.Ok? ==> other.value == one.value.(next := one.value.next.(history := other.value.next.history)))
  {
    hide Played, NormalizeActions, ComputeMetrics, Finalize;
    if st.matchID != 0 && st.currentRound > 0 && NormalizeActions(st, actions).Ok? {
      var a, e := EnvOf(cfg, random, st), EnvOf(cfg.(historyLimit := limit), random, st);
      var ordered := NormalizeActions(st, actions).value;
      PlayedAlike(a, e, Begin(st, drawn), ordered);
      if Played(a, Begin(st, drawn), ordered).Ok? {
        MetricsAlike(a, e, Played(a, Begin(st, drawn), ordered).value);
      }
    }
  }
}
