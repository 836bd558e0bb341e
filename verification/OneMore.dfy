/**
 What one more line does. An order line, a release and a capacity allocation, each at the end of a list of any length: the
 result with the line is compared with the result without it, so the laws say what the whole phase makes of the line.
 */
module OneMore {
  import opened Seqs
  import opened Domain
  import opened Cash
  import opened Inventory
  import opened Labor
  import opened Quality
  import opened Phases
  import opened Ledger
  import opened LedgerPhases
  import opened Frames
  import opened Production
  import opened Purchasing
  import opened Payroll
  import opened Reasons

  /** What a target allows to be spent: a tenth more than the target, and anything where there is none. */
  ghost predicate CapOf(target: int, cap: int) {
    if target <= 0 then cap == 0 else 10 * (cap - target) <= target < 10 * (cap - target + 1)
  }

  lemma CapIsTenthMore(target: int)
    ensures CapOf(target, CappedBudget(target))
  {
  }

  // ---------------------------------------------------------------- one more order

  function WithOrders(a: ActionSubmission, orders: seq<PurchaseOrderIntent>): ActionSubmission {
    a.(action := a.action.(procurement := Some(orders)))
  }

  lemma {:induction false} OrdersPush(env: Env, b: Buying, cap: int, action: ActionID, line: nat,
                                      orders: seq<PurchaseOrderIntent>, x: PurchaseOrderIntent)
    ensures PlaceOrders(env, b, cap, action, line, orders + [x]) ==
            PlaceOrder(env, PlaceOrders(env, b, cap, action, line, orders), cap, action, line + |orders|, x)
    decreases |orders|
  {
    hide PlaceOrder;
    if |orders| == 0 {
      assert orders + [x] == [x] && [x][1..] == [];
    } else {
      assert (orders + [x])[1..] == orders[1..] + [x];
      OrdersPush(env, PlaceOrder(env, b, cap, action, line, orders[0]), cap, action, line + 1, orders[1..], x);
    }
  }

  lemma PaymentLeaves(env: Env, p: Phase, amount: int)
    ensures var q := SchedulePayable(env, p, amount);
            && q.st == p.st.(plant := p.st.plant.(cash := q.st.plant.cash, debt := q.st.plant.debt, payables := q.st.plant.payables))
            && q.stats == p.stats.(cashDisbursements := q.stats.cashDisbursements)
  {
    hide ProjectCashDelta;
  }

  /** The state after some orders, as the next line sees it: nothing has been paid or scheduled yet. */
  function Unpaid(p: Phase, q: Phase): MatchState {
    q.st.(plant := q.st.plant.(cash := p.st.plant.cash, debt := p.st.plant.debt, payables := p.st.plant.payables))
  }

  /** How much the last line ordered. */
  function Ordered(before: seq<SupplyLot>, after: seq<SupplyLot>): int {
    if |after| > |before| then after[|before|].qty else 0
  }

  /** A quantity from the minimum order up to the request, raised to the minimum, that the money of the line buys. */
  ghost predicate Orderable(t: ProcurementTerms, x: PurchaseOrderIntent, funds: int, m: int) {
    m <= Max(x.quantity, t.minimumOrder) && m * Max(t.unitCost, 1) <= funds
  }

  /**
   One more order line leads to at most one more lot, of the largest quantity that the budget left by the earlier lines
   and the capacity of the plant buy; a line that asks for nothing, or for something unknown, leads to none.
   */
  lemma OneMoreOrder(env: Env, p: Phase, a: ActionSubmission, orders: seq<PurchaseOrderIntent>, x: PurchaseOrderIntent, m: int)
    ensures var q := ResolveProcurement(env, p, Some(WithOrders(a, orders)));
            var r := ResolveProcurement(env, p, Some(WithOrders(a, orders + [x])));
            var before, after := q.st.plant.inTransit, r.st.plant.inTransit;
            var n, t := Ordered(before, after), env.cfg.terms(Unpaid(p, q), env.round, x);
            var funds := Funds(CappedBudget(p.st.targets.procurementBudget),
                               q.stats.procurementSpend - p.stats.procurementSpend, ProjectedSpendCapacity(p.st.plant));
            && (after == before || (n > 0 && after == before + [after[|before|]]))
            && (x.quantity <= 0 || !t.known ==> after == before)
            && (x.quantity > 0 && t.known && m >= 1 && m >= t.minimumOrder ==> (m <= n <==> Orderable(t, x, funds, m)))
            && (n > 0 ==> n >= t.minimumOrder)
            && r.stats.procurementSpend == q.stats.procurementSpend + n * Max(t.unitCost, 1)
  {
    hide PlaceOrders, PlaceOrder, ProjectedSpendCapacity, Funds, SchedulePayable;
    var cap := CappedBudget(p.st.targets.procurementBudget);
    var b := PlaceOrders(env, Buying(p, 0), cap, a.id, 1, orders);
    OrdersPush(env, Buying(p, 0), cap, a.id, 1, orders, x);
    var c := PlaceOrder(env, b, cap, a.id, 1 + |orders|, x);
    PlaceOrdersFrame(env, Buying(p, 0), cap, a.id, 1, orders);
    PlaceOrdersStats(env, Buying(p, 0), cap, a.id, 1, orders);
    PaymentLeaves(env, b.p, b.spent);
    PaymentLeaves(env, c.p, c.spent);
    SpentIsStat(env, Buying(p, 0), cap, a.id, 1, orders);
    SameCapacity(p, b.p);
    OrderOutcome(env, b, cap, a.id, 1 + |orders|, x, m);
    assert Unpaid(p, ResolveProcurement(env, p, Some(WithOrders(a, orders)))) == b.p.st;
  }

  lemma {:induction false} SpentIsStat(env: Env, b: Buying, cap: int, action: ActionID, line: nat, orders: seq<PurchaseOrderIntent>)
    ensures var c := PlaceOrders(env, b, cap, action, line, orders);
            c.spent - b.spent == c.p.stats.procurementSpend - b.p.stats.procurementSpend
    decreases |orders|
  {
    hide AllowedOrder, CountOrder, ProjectedSpendCapacity;
    if |orders| > 0 {
      SpentIsStat(env, PlaceOrder(env, b, cap, action, line, orders[0]), cap, action, line + 1, orders[1..]);
    }
  }

  lemma SameCapacity(p: Phase, q: Phase)
    requires ProcurementWrites(p.st, q.st) && q.st.plant.payables == p.st.plant.payables
    requires q.st.plant.cash == p.st.plant.cash && q.st.plant.debt == p.st.plant.debt
    ensures ProjectedSpendCapacity(q.st.plant) == ProjectedSpendCapacity(p.st.plant)
  {
    hide Fold;
  }

  lemma OrderOutcome(env: Env, b: Buying, cap: int, action: ActionID, line: nat, x: PurchaseOrderIntent, m: int)
    ensures var c := PlaceOrder(env, b, cap, action, line, x);
            var before, after := b.p.st.plant.inTransit, c.p.st.plant.inTransit;
            var n, t := Ordered(before, after), env.cfg.terms(b.p.st, env.round, x);
            var funds := Funds(cap, b.spent, ProjectedSpendCapacity(b.p.st.plant));
            && (after == before || (n > 0 && after == before + [after[|before|]]))
            && (x.quantity <= 0 || !t.known ==> after == before)
            && (x.quantity > 0 && t.known && m >= 1 && m >= t.minimumOrder ==> (m <= n <==> Orderable(t, x, funds, m)))
            && (n > 0 ==> n >= t.minimumOrder)
            && c.p.stats.procurementSpend == b.p.stats.procurementSpend + n * Max(t.unitCost, 1)
            && c.spent == b.spent + n * Max(t.unitCost, 1)
  {
    hide AllowedOrder, CountOrder, ProjectedSpendCapacity, Funds;
    var offered := env.cfg.terms(b.p.st, env.round, x);
    if x.quantity > 0 && offered.known {
      var t, capacity := NormalizedTerms(offered), ProjectedSpendCapacity(b.p.st.plant);
      CapacityNotNegative(b.p.st.plant);
      AllowedIsLargest(t, x.quantity, cap, b.spent, capacity, m);
    }
  }

  /**
   What the lines of a round cost is charged once: paid from cash where payables have no delay, and otherwise owed as a single
   payable, due that delay later.
   */
  lemma ProcurementIsCharged(env: Env, p: Phase, action: Option<ActionSubmission>)
    ensures var q := ResolveProcurement(env, p, action);
            var spend, earlier, plant := q.stats.procurementSpend - p.stats.procurementSpend, p.st.plant, q.st.plant;
            && spend >= 0
            && (spend == 0 || env.cfg.payableDelay == 0 ==> plant.payables == earlier.payables)
            && Position(plant.cash, plant.debt) ==
               (if env.cfg.payableDelay == 0 then ProjectCashDelta(earlier.cash, earlier.debt, -spend) else Position(earlier.cash, earlier.debt))
            && (spend > 0 && env.cfg.payableDelay != 0 ==>
                  && |plant.payables| == |earlier.payables| + 1 && plant.payables[..|earlier.payables|] == earlier.payables
                  && var item := plant.payables[|earlier.payables|];
                     && item.kind.Payable? && item.amount == spend && item.due == env.round + env.cfg.payableDelay
                     && Scheduled(item) in q.events)
  {
    hide PlaceOrders, ProjectCashDelta;
    NothingCharged(p.st.plant.cash, p.st.plant.debt);
    if action.Some? && action.value.action.procurement.Some? {
      var cap, id, orders := CappedBudget(p.st.targets.procurementBudget), action.value.id, action.value.action.procurement.value;
      var b := PlaceOrders(env, Buying(p, 0), cap, id, 1, orders);
      PlaceOrdersFrame(env, Buying(p, 0), cap, id, 1, orders);
      SpentIsStat(env, Buying(p, 0), cap, id, 1, orders);
      SpendingGrows(env, Buying(p, 0), cap, id, 1, orders);
      var item := NewCommitment(Payable, env.round, |b.p.st.plant.payables|, b.spent, env.cfg.payableDelay);
      assert Scheduled(item) in (b.p.events + [Scheduled(item)]);
    }
  }

  // ---------------------------------------------------------------- one more release

  function WithProduction(a: ActionSubmission, todo: ProductionAction): ActionSubmission {
    a.(action := a.action.(production := Some(todo)))
  }

  lemma {:induction false} ReleasesPush(env: Env, p: Phase, first: WorkstationID, releases: seq<ProductionRelease>, x: ProductionRelease)
    ensures ReleaseAll(env, p, first, releases + [x]) == ReleaseOne(env, ReleaseAll(env, p, first, releases), first, x)
    decreases |releases|
  {
    hide ReleaseOne;
    if |releases| == 0 {
      assert releases + [x] == [x] && [x][1..] == [];
    } else {
      assert (releases + [x])[1..] == releases[1..] + [x];
      ReleasesPush(env, ReleaseOne(env, p, first, releases[0]), first, releases[1..], x);
    }
  }

  /** Work can be released as far as every line of the bill alone is covered; a bill that asks for nothing at all gives nothing. */
  ghost predicate Releasable(parts: seq<Stock<PartID>>, bom: seq<BOMLine>, m: int) {
    |bom| == 0 || ((exists line :: line in bom && line.qty > 0) && Buildable(parts, bom, m))
  }

  /** The largest quantity, up to the request, that can be released by a known bill. */
  ghost predicate LargestRelease(n: nat, x: ProductionRelease, bill: ProductionBOM, parts: seq<Stock<PartID>>) {
    forall m | m >= 1 :: m <= n <==> m <= x.quantity && bill.known && Releasable(parts, bill.parts, m)
  }

  /**
   One more release starts the largest quantity, up to the request, that the parts left by the earlier releases cover line
   by line: that much work comes to the first workstation, the bill leaves the parts, and one event says so. An unknown
   product starts nothing.
   */
  lemma OneMoreRelease(env: Env, p: Phase, a: ActionSubmission, todo: ProductionAction, x: ProductionRelease) returns (n: nat)
    requires |p.st.plant.stations| > 0 && TidyPlant(p.st.plant) && p.stats.productionSpend == 0 && todo.allocations == []
    ensures var q := ResolveProduction(env, p, Some(WithProduction(a, todo)));
            var r := ResolveProduction(env, p, Some(WithProduction(a, todo.(releases := todo.releases + [x]))));
            var first, bill, parts := p.st.plant.stations[0].id, env.cfg.bom(q.st, env.round, x.product), q.st.plant.parts;
            && LargestRelease(n, x, bill, parts)
            && r.events == q.events + (if n > 0 then [ProductionReleased(x.product, n, bill.parts, first)] else [])
            && (n == 0 ==> r == q)
            && (forall key :: QtyOf(r.st.plant.wip, key) == QtyOf(q.st.plant.wip, key) + (if key == WipKey(x.product, first) then n else 0))
            && ((forall line | line in bill.parts :: line.qty >= 0) ==>
                  forall part :: QtyOf(r.st.plant.parts, part) == Max(QtyOf(parts, part) - Required(bill.parts, part) * n, 0))
  {
    hide ReleaseAll, ReleaseOne, ResolveProduction, TidyPlant, LargestRelease, QtyOf, Required;
    var first := p.st.plant.stations[0].id;
    ReleasesPush(env, p, first, todo.releases, x);
    OnlyReleases(env, p, a, todo);
    OnlyReleases(env, p, a, todo.(releases := todo.releases + [x]));
    var q := ResolveProduction(env, p, Some(WithProduction(a, todo)));
    PlantStocks(q.st.plant);
    n := ReleaseOutcome(env, q, first, x);
    assert ReleaseOne(env, q, first, x) == ResolveProduction(env, p, Some(WithProduction(a, todo.(releases := todo.releases + [x]))));
  }

  /** Without allocations production releases work and does nothing else. */
  lemma OnlyReleases(env: Env, p: Phase, a: ActionSubmission, todo: ProductionAction)
    requires |p.st.plant.stations| > 0 && TidyPlant(p.st.plant) && p.stats.productionSpend == 0 && todo.allocations == []
    ensures ResolveProduction(env, p, Some(WithProduction(a, todo))) == ReleaseAll(env, p, p.st.plant.stations[0].id, todo.releases)
    ensures TidyPlant(ReleaseAll(env, p, p.st.plant.stations[0].id, todo.releases).st.plant)
  {
    hide ReleaseAll, TidyPlant, RequestOvertime;
    ReleaseKeepsSpend(env, p, p.st.plant.stations[0].id, todo.releases);
    ReleaseAllMoves(env, p, p.st.plant.stations[0].id, todo.releases, Accrual);
  }

  lemma ReleaseOutcome(env: Env, q: Phase, first: WorkstationID, x: ProductionRelease) returns (n: nat)
    requires Tidy(q.st.plant.parts) && Tidy(q.st.plant.wip)
    ensures var r, bill, parts := ReleaseOne(env, q, first, x), env.cfg.bom(q.st, env.round, x.product), q.st.plant.parts;
            && LargestRelease(n, x, bill, parts)
            && r.events == q.events + (if n > 0 then [ProductionReleased(x.product, n, bill.parts, first)] else [])
            && (n == 0 ==> r == q)
            && (forall key :: QtyOf(r.st.plant.wip, key) == QtyOf(q.st.plant.wip, key) + (if key == WipKey(x.product, first) then n else 0))
            && ((forall line | line in bill.parts :: line.qty >= 0) ==>
                  forall part :: QtyOf(r.st.plant.parts, part) == Max(QtyOf(parts, part) - Required(bill.parts, part) * n, 0))
  {
    hide Consume, Add, MaxBuildable, QtyOf, Tidy, Buildable, Required;
    var bill, parts := env.cfg.bom(q.st, env.round, x.product), q.st.plant.parts;
    var allowed := AcceptedRelease(parts, bill.parts, x.quantity);
    n := if x.quantity > 0 && bill.known then Max(allowed, 0) else 0;
    forall m | m >= 1 ensures m <= n <==> m <= x.quantity && bill.known && Releasable(parts, bill.parts, m) {
      AcceptedIsReleasable(parts, bill.parts, x.quantity, m);
    }
    if n > 0 {
      var used := Consume(parts, bill.parts, n, 0);
      WorkAdded(q.st.plant.wip, WipKey(x.product, first), n, PerUnitCost(used.cost, n));
    }
    if forall line | line in bill.parts :: line.qty >= 0 {
      forall part ensures n > 0 ==> QtyOf(Consume(parts, bill.parts, n, 0).parts, part) == Max(QtyOf(parts, part) - Required(bill.parts, part) * n, 0)
                  ensures QtyOf(parts, part) >= 0 {
        ConsumeLeaves(parts, bill.parts, n, 0, part);
        QtyIsUnits(parts, part);
      }
    }
  }

  lemma AcceptedIsReleasable(parts: seq<Stock<PartID>>, bom: seq<BOMLine>, requested: int, m: int)
    requires Tidy(parts) && m >= 1
    ensures m <= AcceptedRelease(parts, bom, requested) <==> m <= requested && Releasable(parts, bom, m)
  {
    hide Buildable, Tidy;
    if |bom| > 0 {
      if exists line :: line in bom && line.qty > 0 {
        MaxBuildableIsLargest(parts, bom, m);
      } else {
        BuildableFromIs(parts, bom, -1, m);
      }
    }
  }

  lemma WorkAdded(wip: seq<Stock<WipKey>>, key: WipKey, qty: int, cost: int)
    requires Tidy(wip) && qty > 0
    ensures forall k :: QtyOf(Add(wip, key, qty, cost), k) == QtyOf(wip, k) + (if k == key then qty else 0)
  {
    hide Add, QtyOf, Tidy;
    AddTidy(wip, key, qty, cost);
    forall k ensures QtyOf(Add(wip, key, qty, cost), k) == QtyOf(wip, k) + (if k == key then qty else 0) {
      AddUnits(IsKey(k), wip, key, qty, cost);
      QtyIsUnits(wip, k);
      QtyIsUnits(Add(wip, key, qty, cost), k);
    }
  }

  // ---------------------------------------------------------------- one more allocation

  lemma {:induction false} AllocationsPush(env: Env, s: Producing, cap: int, allocations: seq<CapacityAllocation>, x: CapacityAllocation)
    ensures AdvanceAll(env, s, cap, allocations + [x]) == Advance(env, AdvanceAll(env, s, cap, allocations), cap, x)
    decreases |allocations|
  {
    hide Advance;
    if |allocations| == 0 {
      assert allocations + [x] == [x] && [x][1..] == [];
    } else {
      assert (allocations + [x])[1..] == allocations[1..] + [x];
      AllocationsPush(env, Advance(env, s, cap, allocations[0]), cap, allocations[1..], x);
    }
  }

  /** Capacity lost to work in progress beyond capacity and buffer: the penalty for each such unit, at most everything. */
  function CongestionLoss(w: Workstation, work: int): nat {
    Max(0, Min(w.capacity, Max(work - w.capacity - w.stressBuffer, 0) * Max(w.stressPenalty, 0)))
  }

  lemma CongestionIs(w: Workstation, work: int)
    ensures StressedCapacity(w, work).loss == CongestionLoss(w, work)
    ensures StressedCapacity(w, work).effective == Max(w.capacity, 0) - CongestionLoss(w, work)
  {
    if w.capacity > 0 && w.stressPenalty > 0 && work > w.capacity + w.stressBuffer {
      ProductNonNegative(work - w.capacity - w.stressBuffer, w.stressPenalty);
    }
  }

  function HoursLeft(w: Workstation): nat { Max(Employed(w) - w.laborUsed, 0) }

  /** A workstation after congestion was measured and some units were worked on, first with its own labour. */
  function Worked(w: Workstation, loss: nat, n: nat): Workstation {
    w.(effective := Max(w.capacity, 0) - loss, stressLoss := loss, capacityUsed := w.capacityUsed + n,
       laborUsed := w.laborUsed + Min(n, HoursLeft(w)), overtimeUsed := w.overtimeUsed + Max(n - HoursLeft(w), 0))
  }

  /** What an allocation may do: within request, capacity, work at hand, labour and overtime, every unit of it paid for. */
  ghost predicate Workable(x: CapacityAllocation, w: Workstation, loss: nat, work: int, overtime: int, unit: int, funds: int, m: int) {
    && m <= x.capacity && m <= Max(w.capacity, 0) - loss - w.capacityUsed && m <= work && m <= HoursLeft(w) + Max(overtime, 0)
    && funds > 0 && PaidUpTo(m, HoursLeft(w), overtime, unit, w.overtimeCost, funds)
  }

  function UnitPrice(env: Env, x: CapacityAllocation, st: MatchState, limit: int): int {
    Max(env.cfg.productionCost(st, env.round, x.product, x.station, limit), 1)
  }

  /** The unit price the production hook quoted in some state, at least one. */
  ghost predicate Quoted(env: Env, x: CapacityAllocation, unit: int) {
    exists st: MatchState, limit: int :: unit == UnitPrice(env, x, st, limit)
  }

  /** The largest quantity an allocation may work on. */
  ghost predicate LargestWork(n: nat, x: CapacityAllocation, w: Workstation, loss: nat, work: int, overtime: int, unit: int, funds: int) {
    forall m | m >= 1 :: m <= n <==> Workable(x, w, loss, work, overtime, unit, funds, m)
  }

  /** The largest quantity the next allocation may work on, between two allocations. */
  ghost predicate LargestNext(n: nat, s: Producing, cap: int, x: CapacityAllocation, i: nat, unit: int)
    requires i < |s.p.st.plant.stations|
  {
    var plant := s.p.st.plant;
    var w, cash := plant.stations[i], SpendCapacity(Position(plant.cash, plant.debt), plant.debtCeiling);
    LargestWork(n, x, w, CongestionLoss(w, Units(AtStation(x.station), plant.wip)), QtyOf(plant.wip, WipKey(x.product, x.station)),
                At(s.overtime, x.station), unit, Funds(cap, s.spent, cash))
  }

  lemma AdvanceOutcome(env: Env, s: Producing, cap: int, x: CapacityAllocation, i: nat) returns (n: nat, unit: int)
    requires x.capacity > 0 && i == StationIndex(s.p.st.plant.stations, x.station) < |s.p.st.plant.stations|
    requires s.p.st.plant.stations[i].laborUsed >= 0
    ensures var t, plant := Advance(env, s, cap, x), s.p.st.plant;
            var w := plant.stations[i];
            && Quoted(env, x, unit)
            && LargestNext(n, s, cap, x, i, unit)
            && t.p.st.plant.stations == plant.stations[i := Worked(w, CongestionLoss(w, Units(AtStation(x.station), plant.wip)), n)]
            && t.p.stats.productionSpend == s.p.stats.productionSpend + n * unit
            && (n == 0 ==> t.p.events == s.p.events && t.p.st.plant == plant.(stations := t.p.st.plant.stations))
  {
    hide PlanAdvance, BookAdvance, MoveUnits, Take, TakeCost, OvertimeUsed, StressedCapacity, Units, QtyOf, SpendCapacity;
    hide LargestNext, Worked, CongestionLoss, Quoted;
    var p, left := MeasureStress(s.p, i), At(s.overtime, x.station);
    var plan := PlanAdvance(env, p, i, left, cap, s.spent, x);
    n, unit := Max(plan.advance, 0), plan.unit;
    PlanQuoted(env, p, i, left, cap, s.spent, x);
    PlanIsLargestNext(env, s, cap, x, i);
    MeasuredIs(s.p, i);
    if plan.advance > 0 {
      var key := WipKey(x.product, x.station);
      var cost := PerUnitCost(TakeCost(p.st.plant.wip, key, n, 0), n);
      var overtime := OvertimeUsed(p.st.plant.stations[i], n, left) > 0;
      var taken := s.(p := TakeWip(p, key, n));
      PlanWithinLimits(env, p, i, left, cap, s.spent, x);
      BookedIs(taken, i, plan, CongestionLoss(s.p.st.plant.stations[i], Units(AtStation(x.station), s.p.st.plant.wip)), s.p.st.plant.stations[i]);
      var booked := BookAdvance(taken, i, plan);
      MoveUnitsFrame(env, booked.p, key, n, cost, overtime);
      MovingKeepsSpend(env, booked.p, key, n, cost, overtime);
    }
  }

  lemma PlanQuoted(env: Env, p: Phase, i: nat, overtime: int, cap: int, spent: int, x: CapacityAllocation)
    requires i < |p.st.plant.stations|
    ensures Quoted(env, x, PlanAdvance(env, p, i, overtime, cap, spent, x).unit)
  {
    hide AffordableAdvance, QtyOf, SpendCapacity, LaborLeft;
    var w := p.st.plant.stations[i];
    var limit := Min(Min(Min(x.capacity, w.effective - w.capacityUsed),
                         QtyOf(p.st.plant.wip, WipKey(x.product, x.station))), LaborLeft(w, overtime));
    assert PlanAdvance(env, p, i, overtime, cap, spent, x).unit == UnitPrice(env, x, p.st, limit);
  }

  lemma MeasuredIs(p: Phase, i: nat)
    requires i < |p.st.plant.stations|
    ensures var q, w := MeasureStress(p, i), p.st.plant.stations[i];
            && q.st.plant == p.st.plant.(stations := p.st.plant.stations[i := Worked(w, CongestionLoss(w, Units(AtStation(w.id), p.st.plant.wip)), 0)])
            && q.events == p.events && q.stats == p.stats
  {
    hide Units, CongestionLoss;
    CongestionIs(p.st.plant.stations[i], Units(AtStation(p.st.plant.stations[i].id), p.st.plant.wip));
  }

  lemma PlanIsLargestNext(env: Env, s: Producing, cap: int, x: CapacityAllocation, i: nat)
    requires i < |s.p.st.plant.stations| && s.p.st.plant.stations[i].id == x.station && s.p.st.plant.stations[i].laborUsed >= 0
    ensures var plan := PlanAdvance(env, MeasureStress(s.p, i), i, At(s.overtime, x.station), cap, s.spent, x);
            LargestNext(Max(plan.advance, 0), s, cap, x, i, plan.unit)
  {
    hide PlanAdvance, MeasureStress, Units, QtyOf, SpendCapacity, PaidUpTo, CongestionLoss;
    MeasuredIs(s.p, i);
    HoursAreBase(s.p.st.plant.stations[i], MeasureStress(s.p, i).st.plant.stations[i], At(s.overtime, x.station));
    var p := MeasureStress(s.p, i);
    var plan := PlanAdvance(env, p, i, At(s.overtime, x.station), cap, s.spent, x);
    var plant, w := s.p.st.plant, s.p.st.plant.stations[i];
    var loss, work := CongestionLoss(w, Units(AtStation(x.station), plant.wip)), QtyOf(plant.wip, WipKey(x.product, x.station));
    var funds := Funds(cap, s.spent, SpendCapacity(Position(plant.cash, plant.debt), plant.debtCeiling));
    forall m | m >= 1
      ensures m <= Max(plan.advance, 0) <==> Workable(x, w, loss, work, At(s.overtime, x.station), plan.unit, funds, m)
    {
      PlanIsLargest(env, p, i, At(s.overtime, x.station), cap, s.spent, x, m);
    }
  }

  lemma HoursAreBase(w: Workstation, v: Workstation, overtime: int)
    requires w.laborUsed >= 0 && v.labor == w.labor && v.capacity == w.capacity && v.laborUsed == w.laborUsed
    ensures BaseLaborLeft(v) == HoursLeft(w) && LaborLeft(v, overtime) == HoursLeft(w) + Max(overtime, 0)
  {
  }

  lemma BookedIs(s: Producing, i: nat, plan: Plan, loss: nat, w: Workstation)
    requires i < |s.p.st.plant.stations| && s.p.st.plant.stations[i] == Worked(w, loss, 0) && w.laborUsed >= 0
    requires 0 < plan.advance <= LaborLeft(s.p.st.plant.stations[i], At(s.overtime, w.id))
    ensures var t := BookAdvance(s, i, plan);
            && t.p.st.plant.stations == s.p.st.plant.stations[i := Worked(w, loss, plan.advance)]
            && t.p.stats.productionSpend == s.p.stats.productionSpend + plan.advance * plan.unit
  {
    HoursAreBase(w, s.p.st.plant.stations[i], At(s.overtime, w.id));
  }

  /** The books a round's production starts with. */
  ghost predicate Fresh(p: Phase) {
    TidyPlant(p.st.plant) && Idle(p.st.plant.stations) && p.stats.productionSpend == 0 && p.stats.overtimeUnits == 0
  }

  function SpentOnProduction(q: Phase): int { q.stats.productionSpend + Sum(OvertimePay(), q.st.plant.stations) }

  /** What an allocation may cost after others: the rest of the budget, and what the plant could raise before all of them. */
  function FundsLeft(p: Phase, q: Phase): int {
    var cash := SpendCapacity(Position(p.st.plant.cash, p.st.plant.debt), p.st.plant.debtCeiling);
    var cap := CappedBudget(p.st.targets.productionSpendBudget);
    Funds(cap, SpentOnProduction(q), cash)
  }

  /**
   One more allocation works on the largest quantity for which everything is at hand and every unit of it is paid for: the
   workstation uses that much capacity, its own labour first and then overtime, congestion is measured on the work it
   found, and the plant pays the quoted price once for each unit. An allocation of nothing or to nowhere changes nothing.
   */
  lemma OneMoreAllocation(env: Env, p: Phase, a: ActionSubmission, todo: ProductionAction, x: CapacityAllocation)
    returns (n: nat, unit: int)
    requires |p.st.plant.stations| > 0 && Fresh(p)
    ensures var q := ResolveProduction(env, p, Some(WithProduction(a, todo)));
            var r := ResolveProduction(env, p, Some(WithProduction(a, todo.(allocations := todo.allocations + [x]))));
            var stations, wip := q.st.plant.stations, q.st.plant.wip;
            var i := StationIndex(stations, x.station);
            && |stations| == |p.st.plant.stations|
            && (x.capacity <= 0 || i == |stations| ==> r == q && n == 0)
            && (x.capacity > 0 && i < |stations| ==>
                  var w, overtime := stations[i], Sum(Requested(x.station), todo.overtime) - stations[i].overtimeUsed;
                  var loss := CongestionLoss(w, Units(AtStation(x.station), wip));
                  && Quoted(env, x, unit)
                  && LargestWork(n, x, w, loss, QtyOf(wip, WipKey(x.product, x.station)), overtime, unit, FundsLeft(p, q))
                  && r.st.plant.stations == stations[i := Worked(w, loss, n)]
                  && r.stats.productionSpend == q.stats.productionSpend + n * unit
                  && (n == 0 ==> r.events == q.events && r.st.plant.wip == wip))
            && Position(r.st.plant.cash, r.st.plant.debt) ==
               ProjectCashDelta(p.st.plant.cash, p.st.plant.debt, -Max(r.stats.productionSpend, 0))
  {
    hide ResolveProduction, AdvanceAll, Advance, ProjectCashDelta, LargestWork, Worked, CongestionLoss, Quoted, Units, QtyOf;
    hide SpendCapacity, CappedBudget, Fresh, Sum, Booked, AllocationsStart;
    var start, cap := AllocationsStart(env, p, todo), CappedBudget(p.st.targets.productionSpendBudget);
    var s := AdvanceAll(env, start, cap, todo.allocations);
    AfterAllocations(env, p, a, todo);
    AfterAllocations(env, p, a, todo.(allocations := todo.allocations + [x]));
    AllocationsPush(env, start, cap, todo.allocations, x);
    SameStart(env, p, todo, todo.(allocations := todo.allocations + [x]));
    var i := StationIndex(s.p.st.plant.stations, x.station);
    n, unit := 0, 0;
    if x.capacity > 0 && i < |s.p.st.plant.stations| {
      BooksOf(s, start.overtime, i, x.station);
      RequestsAddUp(map[], todo.overtime, x.station);
      n, unit := AdvanceOutcome(env, s, cap, x, i);
    } else {
      AdvanceSkipped(env, s, cap, x);
    }
  }

  /** Production between the last release and the first allocation. */
  function AllocationsStart(env: Env, p: Phase, todo: ProductionAction): Producing
    requires |p.st.plant.stations| > 0
  {
    Producing(ReleaseAll(env, p, p.st.plant.stations[0].id, todo.releases), RequestOvertime(map[], todo.overtime), 0)
  }

  lemma SameStart(env: Env, p: Phase, todo: ProductionAction, more: ProductionAction)
    requires |p.st.plant.stations| > 0 && more == todo.(allocations := more.allocations)
    ensures AllocationsStart(env, p, todo) == AllocationsStart(env, p, more)
    ensures AllocationsStart(env, p, todo).overtime == RequestOvertime(map[], todo.overtime)
  {
    hide ReleaseAll, RequestOvertime;
  }

  /** The result of production is the state after the last allocation, with the spend charged once. */
  lemma AfterAllocations(env: Env, p: Phase, a: ActionSubmission, todo: ProductionAction)
    requires |p.st.plant.stations| > 0 && Fresh(p)
    ensures var start, cap := AllocationsStart(env, p, todo), CappedBudget(p.st.targets.productionSpendBudget);
            var q, s := ResolveProduction(env, p, Some(WithProduction(a, todo))), AdvanceAll(env, start, cap, todo.allocations);
            && q.st == s.p.st.(plant := s.p.st.plant.(cash := q.st.plant.cash, debt := q.st.plant.debt))
            && q.stats == s.p.stats.(cashDisbursements := q.stats.cashDisbursements)
            && q == s.p.(st := q.st, stats := q.stats)
            && s.p.stats.cashDisbursements == p.stats.cashDisbursements
            && q.stats.cashDisbursements == p.stats.cashDisbursements + Max(q.stats.productionSpend, 0)
            && s.p.st.plant.cash == p.st.plant.cash && s.p.st.plant.debt == p.st.plant.debt
            && s.p.st.plant.debtCeiling == p.st.plant.debtCeiling
            && |s.p.st.plant.stations| == |p.st.plant.stations|
            && Booked(s, start.overtime)
            && Position(q.st.plant.cash, q.st.plant.debt) ==
               ProjectCashDelta(p.st.plant.cash, p.st.plant.debt, -Max(q.stats.productionSpend, 0))
  {
    hide ReleaseAll, AdvanceAll, RequestOvertime, ProjectCashDelta, CappedBudget, TidyPlant, Idle, Booked;
    var first, start := p.st.plant.stations[0].id, AllocationsStart(env, p, todo);
    var cap := CappedBudget(p.st.targets.productionSpendBudget);
    ReleaseAllFrame(env, p, first, todo.releases);
    ReleaseAllStats(env, p, first, todo.releases);
    AdvanceAllFrame(env, start, cap, todo.allocations);
    StartIsBooked(start, todo.overtime);
    AllocationsKeepBooks(env, start, cap, todo.allocations, start.overtime);
    AllAdvancesKeepStaff(env, start, cap, todo.allocations);
    AllAdvancesPayNothing(env, start, cap, todo.allocations);
    NothingCharged(p.st.plant.cash, p.st.plant.debt);
  }

  lemma {:induction false} AllAdvancesPayNothing(env: Env, s: Producing, cap: int, allocations: seq<CapacityAllocation>)
    ensures AdvanceAll(env, s, cap, allocations).p.stats.cashDisbursements == s.p.stats.cashDisbursements
    decreases |allocations|
  {
    hide Advance;
    if |allocations| > 0 {
      AdvancePaysNothing(env, s, cap, allocations[0]);
      AllAdvancesPayNothing(env, Advance(env, s, cap, allocations[0]), cap, allocations[1..]);
    }
  }

  lemma AdvancePaysNothing(env: Env, s: Producing, cap: int, a: CapacityAllocation)
    ensures Advance(env, s, cap, a).p.stats.cashDisbursements == s.p.stats.cashDisbursements
  {
    hide PlanAdvance, MoveUnits, Take, TakeCost, OvertimeUsed, StressedCapacity, ConsumeLabor;
    var i := StationIndex(s.p.st.plant.stations, a.station);
    if a.capacity > 0 && i < |s.p.st.plant.stations| {
      var p := MeasureStress(s.p, i);
      var plan := PlanAdvance(env, p, i, At(s.overtime, a.station), cap, s.spent, a);
      if plan.advance > 0 {
        var key := WipKey(a.product, a.station);
        var cost := PerUnitCost(TakeCost(p.st.plant.wip, key, plan.advance, 0), plan.advance);
        var overtime := OvertimeUsed(p.st.plant.stations[i], plan.advance, At(s.overtime, a.station)) > 0;
        MovingKeepsSpend(env, BookAdvance(s.(p := TakeWip(p, key, plan.advance)), i, plan).p, key, plan.advance, cost, overtime);
      }
    }
  }

  lemma NothingCharged(cash: int, debt: int)
    ensures ProjectCashDelta(cash, debt, 0) == Position(cash, debt)
  {
  }

  lemma AdvanceSkipped(env: Env, s: Producing, cap: int, x: CapacityAllocation)
    requires x.capacity <= 0 || StationIndex(s.p.st.plant.stations, x.station) == |s.p.st.plant.stations|
    ensures Advance(env, s, cap, x) == s
  {
  }

  lemma StartIsBooked(s: Producing, overtime: seq<OvertimeAllocation>)
    requires Idle(s.p.st.plant.stations) && s.spent == s.p.stats.productionSpend && s.p.stats.overtimeUnits == 0
    requires s.overtime == RequestOvertime(map[], overtime)
    ensures Booked(s, s.overtime)
  {
    hide RequestOvertime, Idle, Booked;
    forall id ensures At(s.overtime, id) >= 0 {
      RequestsAddUp(map[], overtime, id);
      NonNegativeRequests(overtime, id);
    }
    IdleIsBooked(s);
  }

  lemma BooksOf(s: Producing, requested: map<WorkstationID, int>, i: nat, id: WorkstationID)
    requires Booked(s, requested) && i == StationIndex(s.p.st.plant.stations, id) < |s.p.st.plant.stations|
    ensures var w := s.p.st.plant.stations[i];
            && w.id == id && w.laborUsed >= 0
            && At(s.overtime, id) == At(requested, id) - w.overtimeUsed
            && s.spent == s.p.stats.productionSpend + Sum(OvertimePay(), s.p.st.plant.stations)
  {
    hide Sum;
    assert BookedAt(s.p.st.plant.stations, i, s.overtime, requested);
  }

  // ---------------------------------------------------------------- what becomes of the units

  function Entry(e: Event, qty: int): seq<Event> { if qty > 0 then [e] else [] }

  /** A batch at the end of its route: one event for each part of its split that is not empty. */
  ghost predicate InspectionLog(env: Env, b: Batch, log: seq<Event>) {
    exists s: Split ::
      && SplitByRates(s, b.units, ProfileOf(env, b), env.random, b.from)
      && var good := b.units - s.scrap - s.rework - s.hold;
         log == Entry(Scrapped(b.product, s.scrap, b.station), s.scrap)
                + Entry(ReworkCreated(b.product, s.rework, b.station), s.rework)
                + Entry(HoldPlaced(b.product, s.hold, env.round + Max(ProfileOf(env, b).holdRounds, 1), Some(b.station)), s.hold)
                + Entry(FinishedProduced(b.product, good, b.station), good)
  }

  /** What the log says of units that leave a workstation: judged, sent on, or left for want of a route. */
  ghost predicate MoveLog(env: Env, b: Batch, log: seq<Event>) {
    var route := env.cfg.route(b.st, env.round, b.product, b.station);
    if route.finished then InspectionLog(env, b, log)
    else if route.next == NO_STATION then log == [AdvanceIgnored(b.product, b.units, b.station)]
    else log == [WorkAdvanced(b.product, b.units, b.station, route.next)]
  }

  lemma CompletionLog(env: Env, p: Phase, b: Batch, cost: int)
    requires b.units > 0 && b.st == p.st && b.stressed == (b.station in p.stressed) && b.from == p.drawn
    ensures var q := CompleteUnits(env, p, WipKey(b.product, b.station), b.units, cost, b.overtime);
            && |p.events| <= |q.events| && q.events[..|p.events|] == p.events
            && InspectionLog(env, b, q.events[|p.events|..])
            && q.drawn == (if env.random.Random? then p.drawn + b.units else p.drawn)
  {
    hide FinishedSplit, Normalized, SplitByRates, ScrapUnits, ReworkUnits, HoldUnits, StockUnits, Entry, InspectionLog;
    var raw := env.cfg.quality(p.st, env.round, FinalInspection(b.product, b.station, b.units, b.stressed, b.overtime));
    var split := FinishedSplit(b.units, Normalized(raw), env.random, p.drawn);
    SplitConserves(b.units, raw, env.random, p.drawn);
    RatesNotNegative(raw);
    SplitFollowsRates(b.units, Normalized(raw), env.random, p.drawn);
    var key, release := WipKey(b.product, b.station), env.round + Max(Normalized(raw).holdRounds, 1);
    var drawn := p.(drawn := Drawn(env.random, p.drawn, b.units));
    SplitLog(drawn, key, split, split.Good(b.units), cost, env.round, release);
    var log := Entry(Scrapped(b.product, split.scrap, b.station), split.scrap)
               + Entry(ReworkCreated(b.product, split.rework, b.station), split.rework)
               + Entry(HoldPlaced(b.product, split.hold, release, Some(b.station)), split.hold)
               + Entry(FinishedProduced(b.product, split.Good(b.units), b.station), split.Good(b.units));
    SplitIsLogged(env, b, split, log);
    assert (p.events + log)[|p.events|..] == log;
  }

  lemma SplitIsLogged(env: Env, b: Batch, s: Split, log: seq<Event>)
    requires SplitByRates(s, b.units, ProfileOf(env, b), env.random, b.from) && s.Good(b.units) == b.units - s.scrap - s.rework - s.hold
    requires log == Entry(Scrapped(b.product, s.scrap, b.station), s.scrap)
                    + Entry(ReworkCreated(b.product, s.rework, b.station), s.rework)
                    + Entry(HoldPlaced(b.product, s.hold, env.round + Max(ProfileOf(env, b).holdRounds, 1), Some(b.station)), s.hold)
                    + Entry(FinishedProduced(b.product, s.Good(b.units), b.station), s.Good(b.units))
    ensures InspectionLog(env, b, log)
  {
    hide SplitByRates, ProfileOf, Entry;
  }

  /** Two phase states with these events between them. */
  ghost predicate Logged(p: Phase, q: Phase, log: seq<Event>) { q.events == p.events + log && q.drawn == p.drawn }

  lemma SplitLog(p: Phase, key: WipKey, s: Split, good: int, cost: int, round: int, release: int)
    ensures var p2 := ReworkUnits(ScrapUnits(p, key, s.scrap), key, s.rework, cost);
            var q := StockUnits(HoldUnits(p2, key, s.hold, cost, round, release), key, good, cost);
            Logged(p, q, Entry(Scrapped(key.product, s.scrap, key.station), s.scrap)
                         + Entry(ReworkCreated(key.product, s.rework, key.station), s.rework)
                         + Entry(HoldPlaced(key.product, s.hold, release, Some(key.station)), s.hold)
                         + Entry(FinishedProduced(key.product, good, key.station), good))
  {
    hide ScrapUnits, ReworkUnits, HoldUnits, StockUnits, Entry;
    var p1 := ScrapUnits(p, key, s.scrap);
    ScrapLog(p, key, s.scrap);
    var p2 := ReworkUnits(p1, key, s.rework, cost);
    ReworkLog(p1, key, s.rework, cost);
    var p3 := HoldUnits(p2, key, s.hold, cost, round, release);
    HoldLog(p2, key, s.hold, cost, round, release);
    StockLog(p3, key, good, cost);
  }

  lemma ScrapLog(p: Phase, key: WipKey, qty: int)
    ensures Logged(p, ScrapUnits(p, key, qty), Entry(Scrapped(key.product, qty, key.station), qty))
  {
  }

  lemma ReworkLog(p: Phase, key: WipKey, qty: int, cost: int)
    ensures Logged(p, ReworkUnits(p, key, qty, cost), Entry(ReworkCreated(key.product, qty, key.station), qty))
  {
    hide Add;
  }

  lemma HoldLog(p: Phase, key: WipKey, qty: int, cost: int, round: int, release: int)
    ensures Logged(p, HoldUnits(p, key, qty, cost, round, release),
                   Entry(HoldPlaced(key.product, qty, release, Some(key.station)), qty))
  {
    hide AddHold;
  }

  lemma StockLog(p: Phase, key: WipKey, qty: int, cost: int)
    ensures Logged(p, StockUnits(p, key, qty, cost), Entry(FinishedProduced(key.product, qty, key.station), qty))
  {
    hide Add;
  }

  lemma MovingLog(env: Env, p: Phase, b: Batch, cost: int)
    requires b.units > 0 && b.st == p.st && b.stressed == (b.station in p.stressed) && b.from == p.drawn
    ensures var q := MoveUnits(env, p, WipKey(b.product, b.station), b.units, cost, b.overtime);
            && |p.events| <= |q.events| && q.events[..|p.events|] == p.events
            && MoveLog(env, b, q.events[|p.events|..])
            && q.stressed == p.stressed
  {
    hide CompleteUnits, Add, InspectionLog;
    CompletionLog(env, p, b, cost);
    CompletionKeepsStress(env, p, WipKey(b.product, b.station), b.units, cost, b.overtime);
  }

  lemma CompletionKeepsStress(env: Env, p: Phase, key: WipKey, qty: int, cost: int, overtime: bool)
    ensures CompleteUnits(env, p, key, qty, cost, overtime).stressed == p.stressed
  {
    hide FinishedSplit, Normalized, Add, AddHold;
  }

  /** The overtime a batch took, if any, and then what became of its units. */
  ghost predicate BatchLog(env: Env, b: Batch, hours: int, log: seq<Event>) {
    var overtime := Entry(OvertimeApplied(b.station, hours), hours);
    |overtime| <= |log| && log[..|overtime|] == overtime && MoveLog(env, b, log[|overtime|..])
  }

  /** The log of one more allocation. */
  ghost predicate AllocationLog(env: Env, x: CapacityAllocation, n: nat, hours: int, stressed: bool, from: nat, log: seq<Event>) {
    exists b: Batch ::
      && b == Batch(x.product, x.station, n, b.st, stressed, hours > 0, from)
      && BatchLog(env, b, hours, log)
  }

  lemma AdvanceLog(env: Env, s: Producing, cap: int, x: CapacityAllocation, i: nat)
    requires x.capacity > 0 && i == StationIndex(s.p.st.plant.stations, x.station) < |s.p.st.plant.stations|
    requires s.p.st.plant.stations[i].laborUsed >= 0
    ensures var t, before := Advance(env, s, cap, x), s.p.st.plant.stations[i];
            && |t.p.st.plant.stations| == |s.p.st.plant.stations|
            && var after := t.p.st.plant.stations[i];
               var n, hours := after.capacityUsed - before.capacityUsed, after.overtimeUsed - before.overtimeUsed;
               && n >= 0 && |s.p.events| <= |t.p.events| && t.p.events[..|s.p.events|] == s.p.events
               && t.p.stressed == s.p.stressed + (if after.stressLoss > 0 then {x.station} else {})
               && (n > 0 ==> AllocationLog(env, x, n, hours, x.station in t.p.stressed, s.p.drawn, t.p.events[|s.p.events|..]))
               && (n == 0 ==> t.p.events == s.p.events)
  {
    hide PlanAdvance, BookAdvance, MoveUnits, Take, TakeCost, OvertimeUsed, StressedCapacity, Units, QtyOf, SpendCapacity;
    hide CongestionLoss, Entry, MoveLog;
    var p, left := MeasureStress(s.p, i), At(s.overtime, x.station);
    var plan := PlanAdvance(env, p, i, left, cap, s.spent, x);
    MeasuredIs(s.p, i);
    MeasuredStress(s.p, i);
    if plan.advance > 0 {
      var n, key := plan.advance, WipKey(x.product, x.station);
      var cost := PerUnitCost(TakeCost(p.st.plant.wip, key, n, 0), n);
      var hours := OvertimeUsed(p.st.plant.stations[i], n, left);
      var taken := s.(p := TakeWip(p, key, n));
      PlanWithinLimits(env, p, i, left, cap, s.spent, x);
      var loss := CongestionLoss(s.p.st.plant.stations[i], Units(AtStation(x.station), s.p.st.plant.wip));
      BookedIs(taken, i, plan, loss, s.p.st.plant.stations[i]);
      BookedLog(taken, i, plan, loss, s.p.st.plant.stations[i]);
      var booked := BookAdvance(taken, i, plan).p;
      MoveUnitsFrame(env, booked, key, n, cost, hours > 0);
      var b := Batch(x.product, x.station, n, booked.st, x.station in booked.stressed, hours > 0, booked.drawn);
      MovingLog(env, booked, b, cost);
      var t := Advance(env, s, cap, x).p;
      Suffixes(s.p.events, Entry(OvertimeApplied(x.station, hours), hours), booked.events, t.events);
      assert BatchLog(env, b, hours, t.events[|s.p.events|..]);
    }
  }

  lemma Suffixes(a: seq<Event>, b: seq<Event>, c: seq<Event>, d: seq<Event>)
    requires c == a + b && |c| <= |d| && d[..|c|] == c
    ensures |a| <= |d| && d[..|a|] == a && d[|a|..] == b + d[|c|..]
  {
    assert d == c + d[|c|..];
  }

  lemma MeasuredStress(p: Phase, i: nat)
    requires i < |p.st.plant.stations|
    ensures var q := MeasureStress(p, i);
            && q.drawn == p.drawn
            && q.stressed == p.stressed + (if q.st.plant.stations[i].stressLoss > 0 then {p.st.plant.stations[i].id} else {})
  {
    hide StressedCapacity;
  }

  lemma BookedLog(s: Producing, i: nat, plan: Plan, loss: nat, w: Workstation)
    requires i < |s.p.st.plant.stations| && s.p.st.plant.stations[i] == Worked(w, loss, 0) && w.laborUsed >= 0
    requires 0 < plan.advance <= LaborLeft(s.p.st.plant.stations[i], At(s.overtime, w.id))
    ensures var t, hours := BookAdvance(s, i, plan), OvertimeUsed(s.p.st.plant.stations[i], plan.advance, At(s.overtime, w.id));
            && hours == Worked(w, loss, plan.advance).overtimeUsed - w.overtimeUsed
            && t.p.events == s.p.events + Entry(OvertimeApplied(w.id, hours), hours)
            && t.p.drawn == s.p.drawn && t.p.stressed == s.p.stressed
  {
    HoursAreBase(w, s.p.st.plant.stations[i], At(s.overtime, w.id));
  }

  /**
   What the log gains by one more allocation: the overtime of its units, if any, and then what became of them in one
   piece, on to the station the route names, back for want of one, or through final inspection. The batch is inspected as
   stressed exactly when the station lost capacity to congestion in this round, and as worked in overtime exactly when
   it was.
   */
  lemma OneMoreAllocationLog(env: Env, p: Phase, a: ActionSubmission, todo: ProductionAction, x: CapacityAllocation)
    requires |p.st.plant.stations| > 0 && Fresh(p)
    ensures var q := ResolveProduction(env, p, Some(WithProduction(a, todo)));
            var r := ResolveProduction(env, p, Some(WithProduction(a, todo.(allocations := todo.allocations + [x]))));
            var i := StationIndex(q.st.plant.stations, x.station);
            x.capacity > 0 && i < |q.st.plant.stations| ==>
              && |r.st.plant.stations| == |q.st.plant.stations|
              && var before, after := q.st.plant.stations[i], r.st.plant.stations[i];
                 var n, hours := after.capacityUsed - before.capacityUsed, after.overtimeUsed - before.overtimeUsed;
                 && n >= 0 && |q.events| <= |r.events| && r.events[..|q.events|] == q.events
                 && r.stressed == q.stressed + (if after.stressLoss > 0 then {x.station} else {})
                 && (n > 0 ==> AllocationLog(env, x, n, hours, x.station in r.stressed, q.drawn, r.events[|q.events|..]))
                 && (n == 0 ==> r.events == q.events)
  {
    hide ResolveProduction, AdvanceAll, Advance, ProjectCashDelta, CappedBudget, Fresh, Booked, AllocationsStart, AllocationLog;
    var start, cap := AllocationsStart(env, p, todo), CappedBudget(p.st.targets.productionSpendBudget);
    var s := AdvanceAll(env, start, cap, todo.allocations);
    AfterAllocations(env, p, a, todo);
    AfterAllocations(env, p, a, todo.(allocations := todo.allocations + [x]));
    AllocationsPush(env, start, cap, todo.allocations, x);
    SameStart(env, p, todo, todo.(allocations := todo.allocations + [x]));
    var i := StationIndex(s.p.st.plant.stations, x.station);
    if x.capacity > 0 && i < |s.p.st.plant.stations| {
      BooksOf(s, start.overtime, i, x.station);
      AdvanceLog(env, s, cap, x, i);
    }
  }
}
