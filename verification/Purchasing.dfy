/**
 What a purchase order is trimmed to, what a list of orders may spend, and when the debt ceiling holds: the
 spend capacity is checked line by line against a plant that is charged only after the last line.
 */
module Purchasing {
  import opened Seqs
  import opened Domain
  import opened Cash
  import opened Inventory
  import opened Labor
  import opened Quality
  import opened Phases
  import opened Actions
  import opened Resolver
  import opened Ledger
  import opened LedgerPhases
  import opened Frames
  import opened Accounting
  import opened CashRuns
  import opened Production

  // ---------------------------------------------------------------- one line

  lemma QuotientFits(q: int, unit: int, available: int)
    requires q >= 1 && unit >= 1
    ensures q <= AffordableQuantity(available, unit) <==> q * unit <= available
  {
    if available > 0 {
      QuotBound(available, unit, q);
    } else {
      ProductNonNegative(q - 1, unit);
    }
  }

  /** The money one line may use. */
  function Funds(hardCap: int, spent: int, affordable: int): int {
    if hardCap > 0 then Min(hardCap - spent, affordable) else affordable
  }

  lemma CostMonotone(a: int, b: int, unit: int)
    requires a <= b && unit >= 1
    ensures a * unit <= b * unit
  {
    ProductNonNegative(b - a, unit);
  }

  /** One trim: what is asked for, or the most the money buys. */
  lemma TrimAt(asked: int, unit: int, money: int, x: int)
    requires unit >= 1 && asked >= 0 && x >= 1
    ensures var r := if asked * unit > money then AffordableQuantity(money, unit) else asked;
            r >= 0 && (x <= r <==> x <= asked && x * unit <= money)
  {
    hide AffordableQuantity;
    QuotientFits(x, unit, money);
    QuotientFits(1, unit, money);
    if x <= asked {
      CostMonotone(x, asked, unit);
    } else {
      CostMonotone(asked, x, unit);
    }
    AffordableNotNegative(money, unit);
  }

  lemma AffordableNotNegative(money: int, unit: int)
    ensures AffordableQuantity(money, unit) >= 0
  {
  }

  /** What a line would get without the minimum order. */
  function Funded(asked: int, unit: int, hardCap: int, spent: int, affordable: int): int {
    var budgeted :=
      if hardCap <= 0 then asked
      else if hardCap - spent <= 0 then 0
      else if asked * unit > hardCap - spent then AffordableQuantity(hardCap - spent, unit)
      else asked;
    if budgeted * unit > affordable then AffordableQuantity(affordable, unit) else budgeted
  }

  lemma FundedAt(asked: int, unit: int, hardCap: int, spent: int, affordable: int, x: int)
    requires unit >= 1 && asked >= 1 && affordable >= 0 && x >= 1
    ensures var r := Funded(asked, unit, hardCap, spent, affordable);
            r >= 0 && (x <= r <==> x <= asked && x * unit <= Funds(hardCap, spent, affordable))
  {
    hide AffordableQuantity;
    ProductNonNegative(x, unit - 1);
    if hardCap > 0 && hardCap - spent > 0 {
      TrimAt(asked, unit, hardCap - spent, x);
      var budgeted := if asked * unit > hardCap - spent then AffordableQuantity(hardCap - spent, unit) else asked;
      TrimAt(budgeted, unit, affordable, x);
    } else {
      TrimAt(if hardCap > 0 then 0 else asked, unit, affordable, x);
    }
  }

  /**
   A line gets the largest legal quantity, or nothing: every quantity from the minimum order up to the request,
   raised to the minimum, is accepted exactly when the funds of the line cover it.
   */
  lemma AllowedIsLargest(t: ProcurementTerms, quantity: int, hardCap: int, spent: int, affordable: int, q: int)
    requires t.unitCost >= 1 && quantity >= 1 && affordable >= 0
    ensures var allowed := AllowedOrder(t, quantity, hardCap, spent, affordable);
            && allowed >= 0
            && (allowed > 0 ==> t.minimumOrder <= allowed <= Max(quantity, t.minimumOrder))
            && (q >= 1 && q >= t.minimumOrder ==>
                  (q <= allowed <==> q <= Max(quantity, t.minimumOrder) && q * t.unitCost <= Funds(hardCap, spent, affordable)))
            && (allowed > 0 ==> allowed * t.unitCost <= Funds(hardCap, spent, affordable))
  {
    hide Funded, Funds;
    var asked := if quantity < t.minimumOrder then t.minimumOrder else quantity;
    var funded := Funded(asked, t.unitCost, hardCap, spent, affordable);
    AllowedIsFunded(t, quantity, hardCap, spent, affordable);
    FundedAt(asked, t.unitCost, hardCap, spent, affordable, if q >= 1 then q else 1);
    FundedAt(asked, t.unitCost, hardCap, spent, affordable, if funded >= 1 then funded else 1);
  }

  lemma AllowedIsFunded(t: ProcurementTerms, quantity: int, hardCap: int, spent: int, affordable: int)
    ensures var funded := Funded(if quantity < t.minimumOrder then t.minimumOrder else quantity,
                                 t.unitCost, hardCap, spent, affordable);
            AllowedOrder(t, quantity, hardCap, spent, affordable) == if 0 < funded < t.minimumOrder then 0 else funded
  {
  }

  // ---------------------------------------------------------------- a list of lines

  function LotCost(): SupplyLot -> int { (l: SupplyLot) => l.qty * l.cost }

  lemma CapacityNotNegative(plant: Plant)
    ensures ProjectedSpendCapacity(plant) >= 0
  {
    hide ProjectedPosition;
  }

  /** One line: at most one new lot, paid from the cap and from the capacity of the plant. */
  lemma PlaceOrderSpends(env: Env, b: Buying, cap: int, action: ActionID, line: nat, order: PurchaseOrderIntent)
    ensures var c, room := PlaceOrder(env, b, cap, action, line, order), ProjectedSpendCapacity(b.p.st.plant);
            && c.p.st.plant == b.p.st.plant.(inTransit := c.p.st.plant.inTransit)
            && c.p.stats.procurementSpend - b.p.stats.procurementSpend == c.spent - b.spent
            && 0 <= c.spent - b.spent <= room
            && (cap > 0 && b.spent <= cap ==> c.spent <= cap)
            && b.p.st.plant.inTransit <= c.p.st.plant.inTransit
            && Sum(LotCost(), c.p.st.plant.inTransit) == Sum(LotCost(), b.p.st.plant.inTransit) + (c.spent - b.spent)
  {
    hide AllowedOrder, ProjectedSpendCapacity, CountOrder;
    CapacityNotNegative(b.p.st.plant);
    var room := ProjectedSpendCapacity(b.p.st.plant);
    var t := NormalizedTerms(env.cfg.terms(b.p.st, env.round, order));
    if order.quantity > 0 {
      AllowedIsLargest(t, order.quantity, cap, b.spent, room, 1);
      var allowed := AllowedOrder(t, order.quantity, cap, b.spent, room);
      ProductNonNegative(allowed, t.unitCost);
      SumPush(LotCost(), b.p.st.plant.inTransit, NewLot(env, action, line, order, t, allowed));
    }
  }

  lemma SameCapacity(a: Plant, b: Plant)
    requires b == a.(inTransit := b.inTransit)
    ensures ProjectedSpendCapacity(b) == ProjectedSpendCapacity(a)
  {
  }

  /** A list of lines: within the cap as a whole, within the capacity only line by line. */
  lemma {:induction false} PlaceOrdersSpend(env: Env, b: Buying, cap: int, action: ActionID, line: nat, orders: seq<PurchaseOrderIntent>)
    ensures var c, room := PlaceOrders(env, b, cap, action, line, orders), ProjectedSpendCapacity(b.p.st.plant);
            && c.p.st.plant == b.p.st.plant.(inTransit := c.p.st.plant.inTransit)
            && c.p.stats.procurementSpend - b.p.stats.procurementSpend == c.spent - b.spent
            && 0 <= c.spent - b.spent <= |orders| * room
            && (cap > 0 && b.spent <= cap ==> c.spent <= cap)
            && Sum(LotCost(), c.p.st.plant.inTransit) == Sum(LotCost(), b.p.st.plant.inTransit) + (c.spent - b.spent)
    decreases |orders|
  {
    hide PlaceOrder, ProjectedSpendCapacity, Sum;
    if |orders| > 0 {
      PlaceOrderSpends(env, b, cap, action, line, orders[0]);
      var c := PlaceOrder(env, b, cap, action, line, orders[0]);
      SameCapacity(b.p.st.plant, c.p.st.plant);
      PlaceOrdersSpend(env, c, cap, action, line + 1, orders[1..]);
      var room := ProjectedSpendCapacity(b.p.st.plant);
      assert |orders| * room == |orders[1..]| * room + room;
    }
  }

  // ---------------------------------------------------------------- the phase

  /** Debt the plant would owe once everything on its books is settled. */
  function ProjectedDebt(plant: Plant): int { ProjectedPosition(plant).debt }

  /** A ceiling that is not positive allows no debt at all. */
  predicate CeilingHolds(plant: Plant) { ProjectedDebt(plant) <= Max(plant.debtCeiling, 0) }

  function Spent(p: Phase, q: Phase): int { q.stats.procurementSpend - p.stats.procurementSpend }

  lemma ProcurementSpends(env: Env, p: Phase, action: Option<ActionSubmission>)
    ensures var q, cap := ResolveProcurement(env, p, action), CappedBudget(p.st.targets.procurementBudget);
            && Spent(p, q) >= 0
            && (cap > 0 ==> Spent(p, q) <= cap)
            && q.st.plant.debtCeiling == p.st.plant.debtCeiling
            && q.stats.revenue == p.stats.revenue
            && Expense(q.stats) == Expense(p.stats) + Spent(p, q)
  {
    hide PlaceOrders, ProjectCashDelta, ProjectedSpendCapacity, Sum;
    ProcurementFrame(env, p, action);
    ProcurementStats(env, p, action);
    if action.Some? && action.value.action.procurement.Some? {
      PlaceOrdersSpend(env, Buying(p, 0), CappedBudget(p.st.targets.procurementBudget), action.value.id, 1,
                       action.value.action.procurement.value);
    }
  }

  /** After procurement the ceiling holds if and only if it held before and the whole spend fits the capacity. */
  lemma CeilingAfterProcurement(env: Env, p: Phase, action: Option<ActionSubmission>)
    requires TidyPlant(p.st.plant) && Solid(p)
    ensures var q := ResolveProcurement(env, p, action);
            CeilingHolds(q.st.plant) <==> CeilingHolds(p.st.plant) && Spent(p, q) <= ProjectedSpendCapacity(p.st.plant)
  {
    hide ResolveProcurement, TidyPlant, ProjectedPosition, Expense;
    var q := ResolveProcurement(env, p, action);
    ProcurementSpends(env, p, action);
    ProcurementBalances(env, p, action, Accrual);
    SumZero(Accrual, p.events);
    SumZero(Accrual, q.events);
    ProcurementSolid(env, p, action);
    ProjectionEqualsSettlement(p.st.plant);
    ProjectionEqualsSettlement(q.st.plant);
  }

  /**
   What keeps the ceiling whatever the terms are: no capacity at all, a budget whose cap fits the capacity, or a
   single line.
   */
  lemma CeilingIsKept(env: Env, p: Phase, action: Option<ActionSubmission>)
    requires TidyPlant(p.st.plant) && Solid(p) && CeilingHolds(p.st.plant)
    requires var cap, room := CappedBudget(p.st.targets.procurementBudget), ProjectedSpendCapacity(p.st.plant);
             || room == 0 || 0 < cap <= room
             || action.None? || action.value.action.procurement.None? || |action.value.action.procurement.value| <= 1
    ensures CeilingHolds(ResolveProcurement(env, p, action).st.plant)
  {
    hide TidyPlant, ProjectedSpendCapacity, ProjectedPosition, PlaceOrders, CeilingHolds, ProjectCashDelta, Sum;
    CeilingAfterProcurement(env, p, action);
    ProcurementSpends(env, p, action);
    CapacityNotNegative(p.st.plant);
    if action.Some? && action.value.action.procurement.Some? {
      ProcurementStats(env, p, action);
      PlaceOrdersSpend(env, Buying(p, 0), CappedBudget(p.st.targets.procurementBudget), action.value.id, 1,
                       action.value.action.procurement.value);
    }
  }

  /** The supplier quotes one money unit for this order, whatever the state, and no minimum above one. */
  ghost predicate QuotesOne(env: Env, order: PurchaseOrderIntent) {
    forall st: MatchState ::
      var t := env.cfg.terms(st, env.round, order); t.known && t.unitCost == 1 && t.minimumOrder <= 1
  }

  lemma QuotedLine(env: Env, b: Buying, cap: int, action: ActionID, line: nat, order: PurchaseOrderIntent)
    requires QuotesOne(env, order) && order.quantity == ProjectedSpendCapacity(b.p.st.plant) >= 1
    ensures PlaceOrder(env, b, cap, action, line, order).spent ==
            b.spent + Max(0, Min(order.quantity, Funds(cap, b.spent, order.quantity)))
  {
    hide AllowedOrder, ProjectedSpendCapacity, CountOrder;
    var t := NormalizedTerms(env.cfg.terms(b.p.st, env.round, order));
    var room := order.quantity;
    var best := Max(0, Min(room, Funds(cap, b.spent, room)));
    AllowedIsLargest(t, room, cap, b.spent, room, best);
    AllowedIsLargest(t, room, cap, b.spent, room, AllowedOrder(t, room, cap, b.spent, room));
  }

  /**
   The ceiling is not kept in general. Two lines that each use the whole capacity break it, in every state where
   the capacity is positive and no cap, or a cap above the capacity, is set.
   */
  lemma TwoLinesBreakTheCeiling(env: Env, p: Phase, action: ActionSubmission, order: PurchaseOrderIntent)
    requires TidyPlant(p.st.plant) && Solid(p) && CeilingHolds(p.st.plant)
    requires action.action.procurement == Some([order, order]) && QuotesOne(env, order)
    requires order.quantity == ProjectedSpendCapacity(p.st.plant) >= 1
    requires var cap := CappedBudget(p.st.targets.procurementBudget); cap <= 0 || cap > order.quantity
    ensures !CeilingHolds(ResolveProcurement(env, p, Some(action)).st.plant)
  {
    hide TidyPlant, ProjectedSpendCapacity, ProjectedPosition, CeilingHolds, PlaceOrder, ProjectCashDelta, QuotesOne, Sum;
    var cap := CappedBudget(p.st.targets.procurementBudget);
    CeilingAfterProcurement(env, p, Some(action));
    ProcurementStats(env, p, Some(action));
    var b0 := Buying(p, 0);
    QuotedLine(env, b0, cap, action.id, 1, order);
    PlaceOrderSpends(env, b0, cap, action.id, 1, order);
    var b1 := PlaceOrder(env, b0, cap, action.id, 1, order);
    SameCapacity(p.st.plant, b1.p.st.plant);
    QuotedLine(env, b1, cap, action.id, 2, order);
    PlaceOrderSpends(env, b1, cap, action.id, 2, order);
    var b2 := PlaceOrder(env, b1, cap, action.id, 2, order);
    assert [order, order][1..] == [order];
    assert PlaceOrders(env, b2, cap, action.id, 3, [order][1..]) == b2;
    assert PlaceOrders(env, b1, cap, action.id, 2, [order]) == b2;
    assert PlaceOrders(env, b0, cap, action.id, 1, [order, order]) == b2;
  }

  /** The ceiling survives procurement whatever the suppliers quote and whatever is ordered. */
  ghost predicate KeepsCeiling(env: Env, p: Phase) {
    forall terms: (MatchState, int, PurchaseOrderIntent) -> ProcurementTerms, action: Option<ActionSubmission> ::
      CeilingHolds(ResolveProcurement(env.(cfg := env.cfg.(terms := terms)), p, action).st.plant)
  }

  /**
   When the debt ceiling holds, from what is known before the phase: a plant within its ceiling stays within it for
   every order list and all terms if and only if it has nothing to spend, or a budget is set whose cap fits what it
   has to spend.
   */
  lemma CeilingKeptExactlyWhen(env: Env, p: Phase)
    requires TidyPlant(p.st.plant) && Solid(p) && CeilingHolds(p.st.plant)
    ensures var cap, room := CappedBudget(p.st.targets.procurementBudget), ProjectedSpendCapacity(p.st.plant);
            KeepsCeiling(env, p) <==> room == 0 || 0 < cap <= room
  {
    hide TidyPlant, ProjectedSpendCapacity, ProjectedPosition, CeilingHolds, ResolveProcurement, CappedBudget;
    var cap, room := CappedBudget(p.st.targets.procurementBudget), ProjectedSpendCapacity(p.st.plant);
    CapacityNotNegative(p.st.plant);
    if room == 0 || 0 < cap <= room {
      forall terms: (MatchState, int, PurchaseOrderIntent) -> ProcurementTerms, action: Option<ActionSubmission>
        ensures CeilingHolds(ResolveProcurement(env.(cfg := env.cfg.(terms := terms)), p, action).st.plant)
      {
        CeilingIsKept(env.(cfg := env.cfg.(terms := terms)), p, action);
      }
    } else {
      var terms := (st: MatchState, round: int, order: PurchaseOrderIntent) => ProcurementTerms(1, 0, 1, true);
      var order := PurchaseOrderIntent(0, 0, room);
      var action := ActionSubmission(NoActionID, 0, 0, ProcurementManager, RoleAction(Some([order, order]), None, None, None));
      TwoLinesBreakTheCeiling(env.(cfg := env.cfg.(terms := terms)), p, action, order);
    }
  }

  // ---------------------------------------------------------------- the round

  lemma LaterPhasesBuyNothing(env: Env, p: Phase, actions: seq<ActionSubmission>)
    requires OrderlyWorld(env.cfg) && ApplyWorld(env, BeforeWorld(env, p, actions), actions).Ok?
    ensures var bought := ResolveProcurement(env, p, ActionFor(actions, ProcurementManager));
            var world := ApplyWorld(env, BeforeWorld(env, p, actions), actions).value;
            Finalize(env, world, ActionFor(actions, FinanceController)).stats.procurementSpend == bought.stats.procurementSpend
  {
    hide ResolveProcurement, SortLots, StoreLots, ReleaseHolds, AcceptReturns, Filter, SyncCustomers, ReleaseAll, AdvanceAll;
    hide RequestOvertime, ProjectCashDelta, ShipAll, EffectiveBacklog, Finalize;
    var p1 := ResolveProcurement(env, p, ActionFor(actions, ProcurementManager));
    var lots := p1.st.plant.inTransit;
    SortLotsStats(env, Receiving(p1, [], []), lots);
    var r := SortLots(env, Receiving(p1, [], []), lots);
    StoreLotsStats(r.p.WithPlant(r.p.st.plant.(inTransit := r.remaining)), r.arrivals);
    var p2 := ReceiveSupply(env, p1);
    ReleaseHoldsStats(p2, Filter(ReleasedBy(env.round), p2.st.plant.holds));
    var p3 := ReleaseInspectionHolds(env, p2);
    var items := p3.st.plant.pendingReturns;
    AcceptReturnsStats(env, p3.WithPlant(p3.st.plant.(pendingReturns := Filter(DueAfter(env.round), items))),
                       Filter(DueBy(env.round), items));
    var p4 := ProcessCustomerReturns(env, p3);
    ProducingBuysNothing(env, p4, ActionFor(actions, ProductionManager));
    var p5 := ResolveProduction(env, p4, ActionFor(actions, ProductionManager));
    var sales := ActionFor(actions, SalesManager);
    ShipAllStats(env, Selling(p5, [], []), SalesPrices(sales), env.cfg.sort(EffectiveBacklog(p5.st)));
    FinalizeBuysNothing(env, ApplyWorld(env, BeforeWorld(env, p, actions), actions).value, ActionFor(actions, FinanceController));
  }

  lemma {:induction false} AdvancesBuyNothing(env: Env, s: Producing, cap: int, allocations: seq<CapacityAllocation>)
    ensures AdvanceAll(env, s, cap, allocations).p.stats.procurementSpend == s.p.stats.procurementSpend
    decreases |allocations|
  {
    hide PlanAdvance, MoveUnits, Take, TakeCost, OvertimeUsed, StressedCapacity, ConsumeLabor, Units;
    if |allocations| > 0 {
      var a := allocations[0];
      var i := StationIndex(s.p.st.plant.stations, a.station);
      if a.capacity > 0 && i < |s.p.st.plant.stations| {
        var p := MeasureStress(s.p, i);
        var plan := PlanAdvance(env, p, i, At(s.overtime, a.station), cap, s.spent, a);
        if plan.advance > 0 {
          var key := WipKey(a.product, a.station);
          var cost := PerUnitCost(TakeCost(p.st.plant.wip, key, plan.advance, 0), plan.advance);
          var overtime := OvertimeUsed(p.st.plant.stations[i], plan.advance, At(s.overtime, a.station)) > 0;
          var booked := BookAdvance(s.(p := TakeWip(p, key, plan.advance)), i, plan);
          MovingKeepsSpend(env, booked.p, key, plan.advance, cost, overtime);
        }
      }
      AdvancesBuyNothing(env, Advance(env, s, cap, a), cap, allocations[1..]);
    }
  }

  lemma ProducingBuysNothing(env: Env, p: Phase, action: Option<ActionSubmission>)
    ensures ResolveProduction(env, p, action).stats.procurementSpend == p.stats.procurementSpend
  {
    hide ReleaseAll, AdvanceAll, RequestOvertime, ProjectCashDelta;
    if action.Some? && action.value.action.production.Some? && |p.st.plant.stations| > 0 {
      var todo, first := action.value.action.production.value, p.st.plant.stations[0].id;
      var released := ReleaseAll(env, p, first, todo.releases);
      ReleaseAllStats(env, p, first, todo.releases);
      AdvancesBuyNothing(env, Producing(released, RequestOvertime(map[], todo.overtime), 0),
                         CappedBudget(released.st.targets.productionSpendBudget), todo.allocations);
    }
  }

  lemma FinalizeBuysNothing(env: Env, p: Phase, action: Option<ActionSubmission>)
    ensures Finalize(env, p, action).stats.procurementSpend == p.stats.procurementSpend
  {
    hide AgeAll, CollectEach, PayEach, Filter, SyncCustomers, EffectiveBacklog, Sum, HoldingCost, CarryingCost, ProjectCashDelta;
    AgeAllStats(env, Aging(p, []), EffectiveBacklog(p.st));
    var p2 := AdoptTargets(env, AgeBacklog(env, p), action);
    var open := p2.WithPlant(p2.st.plant.(receivables := Filter(Phases.Open(env.round), p2.st.plant.receivables)));
    SettleStats(open, Filter(Matured(env.round), p2.st.plant.receivables));
    var p3 := CollectReceivablesDue(env, p2);
    var left := p3.WithPlant(p3.st.plant.(payables := Filter(Phases.Open(env.round), p3.st.plant.payables)));
    SettleStats(left, Filter(Matured(env.round), p3.st.plant.payables));
  }

  lemma MetricsOfProcurement(env: Env, p: Phase)
    ensures ComputeMetrics(env, p).procurementSpend == p.stats.procurementSpend
  {
  }

  lemma OpenedTargets(st: MatchState, drawn: nat)
    ensures Begin(st, drawn).st.targets == st.targets && Begin(st, drawn).stats.procurementSpend == 0
  {
  }

  /** Every round with a procurement budget spends at most the budget plus a tenth, over all its lines together. */
  lemma ProcurementWithinBudget(cfg: Config, random: Random, drawn: nat, st: MatchState, actions: seq<ActionSubmission>, r: RoundResult)
    requires OrderlyWorld(cfg) && Resolved(cfg, random, drawn, st, actions, r)
    ensures r.record.metrics.Some?
    ensures var cap := CappedBudget(st.targets.procurementBudget);
            cap > 0 ==> 0 <= r.record.metrics.value.procurementSpend <= cap
  {
    hide BeforeWorld, ApplyWorld, ResolveProcurement, Finalize, NormalizeActions, ComputeMetrics, CappedBudget, Begin, OrderlyWorld;
    FinalState(cfg, random, drawn, st, actions, r);
    var env, ordered := EnvOf(cfg, random, st), NormalizeActions(st, actions).value;
    var begin := Begin(st, drawn);
    OpenedTargets(st, drawn);
    ProcurementSpends(env, begin, ActionFor(ordered, ProcurementManager));
    LaterPhasesBuyNothing(env, begin, ordered);
    var world := ApplyWorld(env, BeforeWorld(env, begin, ordered), ordered).value;
    MetricsOfProcurement(env, Finalize(env, world, ActionFor(ordered, FinanceController)));
  }
}
