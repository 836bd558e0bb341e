/**
 When production keeps the debt ceiling. Every allocation is checked against the whole spend capacity of a plant
 that pays only after the last allocation.
 */
module ProductionCeiling {
  import opened Seqs
  import opened Domain
  import opened Cash
  import opened Inventory
  import opened Labor
  import opened Quality
  import opened Phases
  import opened Ledger
  import opened LedgerPhases
  import opened Frames
  import opened CashRuns
  import opened Production

  /** A ceiling that is not positive allows no debt at all. */
  predicate WithinCeiling(plant: Plant) { plant.debt <= Max(plant.debtCeiling, 0) }

  /** What the plant can raise now. */
  function Capacity(plant: Plant): int { SpendCapacity(PositionOf(plant), plant.debtCeiling) }

  lemma CapacityOfSolid(plant: Plant)
    requires PositionOf(plant).Normal()
    ensures Capacity(plant) >= 0
  {
  }

  /** Up to the one payment at its end, production moves neither cash nor debt. */
  lemma ProductionPays(env: Env, p: Phase, action: Option<ActionSubmission>)
    requires TidyPlant(p.st.plant) && p.stats.productionSpend == 0
    ensures var q, plant := ResolveProduction(env, p, action), p.st.plant;
            && q.stats.productionSpend >= 0
            && q.st.plant.debtCeiling == plant.debtCeiling
            && q.st.plant.debt == ProjectCashDelta(plant.cash, plant.debt, -q.stats.productionSpend).debt
  {
    hide ReleaseAll, AdvanceAll, RequestOvertime, ProjectCashDelta, TidyPlant, Balance;
    UnchangedByNothing(p.st.plant);
    if action.Some? && action.value.action.production.Some? && |p.st.plant.stations| > 0 {
      var todo, first := action.value.action.production.value, p.st.plant.stations[0].id;
      var released := ReleaseAll(env, p, first, todo.releases);
      ReleaseAllFrame(env, p, first, todo.releases);
      ReleaseAllStats(env, p, first, todo.releases);
      ReleaseAllMoves(env, p, first, todo.releases, Accrual);
      var s := Producing(released, RequestOvertime(map[], todo.overtime), 0);
      var cap := CappedBudget(released.st.targets.productionSpendBudget);
      AdvanceAllFrame(env, s, cap, todo.allocations);
      AdvanceAllMove(env, s, cap, todo.allocations, Accrual);
      UnchangedByNothing(AdvanceAll(env, s, cap, todo.allocations).p.st.plant);
    }
  }

  lemma UnchangedByNothing(plant: Plant)
    ensures ProjectCashDelta(plant.cash, plant.debt, -0) == PositionOf(plant)
  {
  }

  /** After production the ceiling holds if and only if it held before and the whole spend fits the capacity. */
  lemma CeilingAfterProduction(env: Env, p: Phase, action: Option<ActionSubmission>)
    requires TidyPlant(p.st.plant) && Solid(p) && p.stats.productionSpend == 0
    ensures var q := ResolveProduction(env, p, action);
            WithinCeiling(q.st.plant) <==> WithinCeiling(p.st.plant) && q.stats.productionSpend <= Capacity(p.st.plant)
  {
    hide ResolveProduction, ProjectCashDelta, TidyPlant, SpendCapacity;
    ProductionPays(env, p, action);
    CapacityIsExact(PositionOf(p.st.plant), p.st.plant.debtCeiling, ResolveProduction(env, p, action).stats.productionSpend);
  }

  // ---------------------------------------------------------------- what keeps the ceiling

  /** An hour of overtime may be free, but it is never paid for by the worker. */
  ghost predicate OvertimeCosts(stations: seq<Workstation>) { forall w | w in stations :: w.overtimeCost >= 0 }

  lemma AdvanceKeepsRates(env: Env, s: Producing, cap: int, a: CapacityAllocation)
    requires OvertimeCosts(s.p.st.plant.stations)
    ensures OvertimeCosts(Advance(env, s, cap, a).p.st.plant.stations)
  {
    hide PlanAdvance, BookAdvance, MoveUnits, MeasureStress, Take, TakeCost, OvertimeUsed;
    var i := StationIndex(s.p.st.plant.stations, a.station);
    if a.capacity > 0 && i < |s.p.st.plant.stations| {
      var p := MeasureStress(s.p, i);
      MeasureKeepsRates(s.p, i);
      var plan := PlanAdvance(env, p, i, At(s.overtime, a.station), cap, s.spent, a);
      if plan.advance > 0 {
        var key := WipKey(a.product, a.station);
        var cost := PerUnitCost(TakeCost(p.st.plant.wip, key, plan.advance, 0), plan.advance);
        var overtime := OvertimeUsed(p.st.plant.stations[i], plan.advance, At(s.overtime, a.station)) > 0;
        var taken := s.(p := TakeWip(p, key, plan.advance));
        BookingKeepsRates(taken, i, plan);
        MoveUnitsFrame(env, BookAdvance(taken, i, plan).p, key, plan.advance, cost, overtime);
      }
    }
  }

  lemma MeasureKeepsRates(p: Phase, i: nat)
    requires i < |p.st.plant.stations| && OvertimeCosts(p.st.plant.stations)
    ensures |MeasureStress(p, i).st.plant.stations| == |p.st.plant.stations|
    ensures OvertimeCosts(MeasureStress(p, i).st.plant.stations)
  {
    hide StressedCapacity, Units;
    assert p.st.plant.stations[i] in p.st.plant.stations;
  }

  lemma BookingKeepsRates(s: Producing, i: nat, plan: Plan)
    requires i < |s.p.st.plant.stations| && OvertimeCosts(s.p.st.plant.stations)
    ensures OvertimeCosts(BookAdvance(s, i, plan).p.st.plant.stations)
  {
    hide OvertimeUsed;
    assert s.p.st.plant.stations[i] in s.p.st.plant.stations;
  }

  lemma {:induction false} AllocationsKeepRates(env: Env, s: Producing, cap: int, allocations: seq<CapacityAllocation>)
    requires OvertimeCosts(s.p.st.plant.stations)
    ensures OvertimeCosts(AdvanceAll(env, s, cap, allocations).p.st.plant.stations)
    decreases |allocations|
  {
    hide Advance, OvertimeCosts;
    if |allocations| > 0 {
      AdvanceKeepsRates(env, s, cap, allocations[0]);
      AllocationsKeepRates(env, Advance(env, s, cap, allocations[0]), cap, allocations[1..]);
    }
  }

  lemma ProductionKeepsRates(env: Env, p: Phase, action: Option<ActionSubmission>)
    requires OvertimeCosts(p.st.plant.stations)
    ensures OvertimeCosts(ResolveProduction(env, p, action).st.plant.stations)
  {
    hide ReleaseAll, AdvanceAll, RequestOvertime, ProjectCashDelta, OvertimeCosts;
    if action.Some? && action.value.action.production.Some? && |p.st.plant.stations| > 0 {
      var todo, first := action.value.action.production.value, p.st.plant.stations[0].id;
      var released := ReleaseAll(env, p, first, todo.releases);
      ReleaseAllFrame(env, p, first, todo.releases);
      AllocationsKeepRates(env, Producing(released, RequestOvertime(map[], todo.overtime), 0),
                           CappedBudget(released.st.targets.productionSpendBudget), todo.allocations);
    }
  }

  lemma OvertimePayNonNegative(stations: seq<Workstation>)
    requires OvertimeCosts(stations) && forall w | w in stations :: Labor.Ledger(w)
    ensures Sum(OvertimePay(), stations) >= 0
  {
    forall w | w in stations ensures OvertimePay()(w) >= 0 {
      ProductNonNegative(w.overtimeUsed, w.overtimeCost);
    }
    SumNonNegative(OvertimePay(), stations);
  }

  /** A plant that cannot raise anything works on nothing. */
  lemma NothingIsFree(env: Env, s: Producing, cap: int, a: CapacityAllocation)
    requires Capacity(s.p.st.plant) <= 0
    ensures Advance(env, s, cap, a).p.stats.productionSpend == s.p.stats.productionSpend
  {
    hide BookAdvance, MoveUnits, StressedCapacity, Take, TakeCost, OvertimeUsed, Units, QtyOf, LaborLeft, BaseLaborLeft, ScanFrom;
  }

  lemma {:induction false} NothingIsFreeAtAll(env: Env, s: Producing, cap: int, allocations: seq<CapacityAllocation>)
    requires Capacity(s.p.st.plant) <= 0
    ensures AdvanceAll(env, s, cap, allocations).p.stats.productionSpend == s.p.stats.productionSpend
    decreases |allocations|
  {
    hide Advance;
    if |allocations| > 0 {
      AdvanceFrame(env, s, cap, allocations[0]);
      NothingIsFree(env, s, cap, allocations[0]);
      NothingIsFreeAtAll(env, Advance(env, s, cap, allocations[0]), cap, allocations[1..]);
    }
  }

  lemma PoorPlantSpendsNothing(env: Env, p: Phase, action: Option<ActionSubmission>)
    requires Capacity(p.st.plant) <= 0 && p.stats.productionSpend == 0
    ensures ResolveProduction(env, p, action).stats.productionSpend == 0
  {
    hide ReleaseAll, AdvanceAll, RequestOvertime, ProjectCashDelta, SpendCapacity;
    if action.Some? && action.value.action.production.Some? && |p.st.plant.stations| > 0 {
      var todo, first := action.value.action.production.value, p.st.plant.stations[0].id;
      var released := ReleaseAll(env, p, first, todo.releases);
      ReleaseAllFrame(env, p, first, todo.releases);
      ReleaseAllStats(env, p, first, todo.releases);
      NothingIsFreeAtAll(env, Producing(released, RequestOvertime(map[], todo.overtime), 0),
                         CappedBudget(released.st.targets.productionSpendBudget), todo.allocations);
    }
  }

  /** The start of production in a round: nobody has worked and nothing has been spent. */
  ghost predicate AtStart(p: Phase) {
    && TidyPlant(p.st.plant) && Idle(p.st.plant.stations) && OvertimeCosts(p.st.plant.stations)
    && p.stats.productionSpend == 0 && p.stats.overtimeUnits == 0
  }

  /** Without capacity, or with a budget whose cap fits the capacity, production keeps the ceiling. */
  lemma CeilingKeptByBudget(env: Env, p: Phase, action: Option<ActionSubmission>)
    requires AtStart(p) && Solid(p) && WithinCeiling(p.st.plant)
    requires var cap := CappedBudget(p.st.targets.productionSpendBudget);
             Capacity(p.st.plant) == 0 || 0 < cap <= Capacity(p.st.plant)
    ensures WithinCeiling(ResolveProduction(env, p, action).st.plant)
  {
    hide ResolveProduction, TidyPlant, Idle, OvertimeCosts, Capacity, CappedBudget, Labor.Ledger, RequestedOf, Sum;
    CeilingAfterProduction(env, p, action);
    var q := ResolveProduction(env, p, action);
    if Capacity(p.st.plant) == 0 {
      PoorPlantSpendsNothing(env, p, action);
    } else {
      ProductionKeepsBooks(env, p, action);
      ProductionKeepsRates(env, p, action);
      OvertimePayNonNegative(q.st.plant.stations);
    }
  }

  // ---------------------------------------------------------------- what breaks it

  /** The first station can still work on `n` units of a product that is waiting there. */
  ghost predicate Ready(plant: Plant, product: ProductID, n: int) {
    && |plant.stations| > 0
    && var w := plant.stations[0];
       && QtyOf(plant.wip, WipKey(product, w.id)) >= 1
       && StressedCapacity(w, Units(AtStation(w.id), plant.wip)).effective - w.capacityUsed >= n
       && BaseLaborLeft(w) >= n
  }

  /** Finished work has nowhere to go, so it waits where it was. */
  ghost predicate SendsBack(env: Env) {
    forall st: MatchState, product: ProductID, station: WorkstationID ::
      env.cfg.route(st, env.round, product, station) == RouteStep(NO_STATION, false)
  }

  lemma OneUnitPlan(env: Env, s: Producing, cap: int, product: ProductID)
    requires Ready(s.p.st.plant, product, 1)
    requires var u := env.cfg.productionCost(MeasureStress(s.p, 0).st, env.round, product, s.p.st.plant.stations[0].id, 1);
             1 <= u <= Capacity(s.p.st.plant) && (cap <= 0 || s.spent + u <= cap)
    ensures var w, p := s.p.st.plant.stations[0], MeasureStress(s.p, 0);
            PlanAdvance(env, p, 0, At(s.overtime, w.id), cap, s.spent, CapacityAllocation(w.id, product, 1)) ==
            Plan(1, env.cfg.productionCost(p.st, env.round, product, w.id, 1))
  {
    hide AffordableAdvance, QtyOf, SpendCapacity, StressedCapacity, Units;
    var w, p := s.p.st.plant.stations[0], MeasureStress(s.p, 0);
    var a := CapacityAllocation(w.id, product, 1);
    PlanIsLargest(env, p, 0, At(s.overtime, w.id), cap, s.spent, a, 1);
    PlanWithinLimits(env, p, 0, At(s.overtime, w.id), cap, s.spent, a);
    var unit := env.cfg.productionCost(p.st, env.round, product, w.id, 1);
    assert LineCost(1, BaseLaborLeft(w), At(s.overtime, w.id), unit, w.overtimeCost) == unit;
  }

  /** What one unit of work at the first station leaves behind, when it is sent back. */
  lemma OneUnit(env: Env, s: Producing, cap: int, product: ProductID, n: int)
    requires n >= 1 && Ready(s.p.st.plant, product, n) && TidyPlant(s.p.st.plant) && SendsBack(env)
    requires var u := env.cfg.productionCost(MeasureStress(s.p, 0).st, env.round, product, s.p.st.plant.stations[0].id, 1);
             1 <= u <= Capacity(s.p.st.plant) && (cap <= 0 || s.spent + u <= cap)
    ensures var u := env.cfg.productionCost(MeasureStress(s.p, 0).st, env.round, product, s.p.st.plant.stations[0].id, 1);
            var w := s.p.st.plant.stations[0];
            var t := Advance(env, s, cap, CapacityAllocation(w.id, product, 1));
            && Ready(t.p.st.plant, product, n - 1) && TidyPlant(t.p.st.plant)
            && t.p.st.plant.stations[0].id == w.id
            && t.p.st.plant.stations[0].capacityUsed == w.capacityUsed + 1
            && Capacity(t.p.st.plant) == Capacity(s.p.st.plant)
            && t.spent == s.spent + u
            && t.p.stats.productionSpend == s.p.stats.productionSpend + u
  {
    hide PlanAdvance, BookAdvance, StressedCapacity, Take, Add, TakeCost, QtyOf, Units, TidyPlant, Advance, SendsBack;
    var w, p := s.p.st.plant.stations[0], MeasureStress(s.p, 0);
    var a, key := CapacityAllocation(w.id, product, 1), WipKey(product, w.id);
    OneUnitPlan(env, s, cap, product);
    AdvanceFrame(env, s, cap, a);
    AdvanceMoves(env, s, cap, a, Accrual);
    OneUnitBooked(env, s, cap, product, n);
    var t := Advance(env, s, cap, a);
    BackWhereItWas(s.p.st.plant, key, PerUnitCost(TakeCost(p.st.plant.wip, key, 1, 0), 1));
    SameCongestion(w, t.p.st.plant.stations[0], Units(AtStation(w.id), s.p.st.plant.wip));
  }

  lemma SameCongestion(w: Workstation, x: Workstation, units: int)
    requires x.capacity == w.capacity && x.stressBuffer == w.stressBuffer && x.stressPenalty == w.stressPenalty
    ensures StressedCapacity(x, units) == StressedCapacity(w, units)
  {
  }

  lemma BackWhereItWas(plant: Plant, key: WipKey, cost: int)
    requires TidyPlant(plant) && QtyOf(plant.wip, key) >= 1
    ensures var wip := Add(Take(plant.wip, key, 1), key, 1, cost);
            QtyOf(wip, key) == QtyOf(plant.wip, key)
            && Units(AtStation(key.station), wip) == Units(AtStation(key.station), plant.wip)
  {
    hide Take, Add, QtyOf, Units, Tidy;
    PlantStocks(plant);
    TakeTidy(plant.wip, key, 1);
    var taken := Take(plant.wip, key, 1);
    AddTidy(taken, key, 1, cost);
    TakeUnits(AtStation(key.station), plant.wip, key, 1);
    AddUnits(AtStation(key.station), taken, key, 1, cost);
    TakeUnits(IsKey(key), plant.wip, key, 1);
    AddUnits(IsKey(key), taken, key, 1, cost);
    QtyIsUnits(plant.wip, key);
    QtyIsUnits(Add(taken, key, 1, cost), key);
  }

  lemma OneUnitBooked(env: Env, s: Producing, cap: int, product: ProductID, n: int)
    requires n >= 1 && Ready(s.p.st.plant, product, n) && SendsBack(env)
    requires var u := env.cfg.productionCost(MeasureStress(s.p, 0).st, env.round, product, s.p.st.plant.stations[0].id, 1);
             1 <= u <= Capacity(s.p.st.plant) && (cap <= 0 || s.spent + u <= cap)
    ensures var u := env.cfg.productionCost(MeasureStress(s.p, 0).st, env.round, product, s.p.st.plant.stations[0].id, 1);
            var w, key := s.p.st.plant.stations[0], WipKey(product, s.p.st.plant.stations[0].id);
            var t := Advance(env, s, cap, CapacityAllocation(w.id, product, 1));
            && |t.p.st.plant.stations| > 0
            && var x := t.p.st.plant.stations[0];
               && t.spent == s.spent + u && t.p.stats.productionSpend == s.p.stats.productionSpend + u
               && x == w.(effective := x.effective, stressLoss := x.stressLoss,
                          laborUsed := w.laborUsed + 1, capacityUsed := w.capacityUsed + 1)
               && t.p.st.plant.wip == Add(Take(s.p.st.plant.wip, key, 1), key, 1,
                                          PerUnitCost(TakeCost(s.p.st.plant.wip, key, 1, 0), 1))
  {
    hide PlanAdvance, StressedCapacity, Take, Add, TakeCost, QtyOf, Units, CompleteUnits;
    OneUnitPlan(env, s, cap, product);
    var w, p := s.p.st.plant.stations[0], MeasureStress(s.p, 0);
    assert StationIndex(s.p.st.plant.stations, w.id) == 0;
  }

  /** Two units of a product can still be worked on, one after the other, if one more of it is released. */
  ghost predicate RunsTwo(plant: Plant) {
    && |plant.stations| > 0
    && var w := plant.stations[0];
       && StressedCapacity(w, Units(AtStation(w.id), plant.wip) + 1).effective >= w.capacityUsed + 2
       && BaseLaborLeft(w) >= 2
  }

  /** Hooks under which a first unit costs `first` and every later one costs one. */
  function FreeRelease(): (MatchState, int, ProductID) -> ProductionBOM {
    (st: MatchState, round: int, product: ProductID) => ProductionBOM(true, [])
  }

  function NoRoute(): (MatchState, int, ProductID, WorkstationID) -> RouteStep {
    (st: MatchState, round: int, product: ProductID, station: WorkstationID) => RouteStep(NO_STATION, false)
  }

  function CostlyFirst(used: int, first: int): (MatchState, int, ProductID, WorkstationID, int) -> int {
    (st: MatchState, round: int, product: ProductID, station: WorkstationID, qty: int) =>
      if |st.plant.stations| > 0 && st.plant.stations[0].capacityUsed == used then first else 1
  }

  function WithHooks(env: Env, bom: (MatchState, int, ProductID) -> ProductionBOM,
                     route: (MatchState, int, ProductID, WorkstationID) -> RouteStep,
                     cost: (MatchState, int, ProductID, WorkstationID, int) -> int): Env
  {
    env.(cfg := env.cfg.(bom := bom, route := route, productionCost := cost))
  }

  /** One unit released, then worked on twice. */
  function TwoAllocations(station: WorkstationID, product: ProductID): ActionSubmission {
    var a := CapacityAllocation(station, product, 1);
    ActionSubmission(NoActionID, 0, 0, ProductionManager,
                     RoleAction(None, Some(ProductionAction([ProductionRelease(product, 1)], [a, a], [])), None, None))
  }

  lemma OneRelease(env: Env, p: Phase, product: ProductID)
    requires TidyPlant(p.st.plant) && RunsTwo(p.st.plant) && env.cfg.bom == FreeRelease()
    ensures var w := p.st.plant.stations[0];
            var q := ReleaseAll(env, p, w.id, [ProductionRelease(product, 1)]);
            && TidyPlant(q.st.plant) && Ready(q.st.plant, product, 2)
            && q.st.plant.stations == p.st.plant.stations && Capacity(q.st.plant) == Capacity(p.st.plant)
            && q.st.targets == p.st.targets && q.stats == p.stats
  {
    hide QtyOf, Units, StressedCapacity, Tidy, TidyPlant, Add, BaseLaborLeft;
    var w, key := p.st.plant.stations[0], WipKey(product, p.st.plant.stations[0].id);
    var releases := [ProductionRelease(product, 1)];
    ReleaseAllFrame(env, p, w.id, releases);
    ReleaseAllStats(env, p, w.id, releases);
    ReleaseAllMoves(env, p, w.id, releases, Accrual);
    assert releases[1..] == [];
    var q := ReleaseOne(env, p, w.id, releases[0]);
    assert ReleaseAll(env, p, w.id, releases) == q;
    PlantStocks(p.st.plant);
    AddTidy(p.st.plant.wip, key, 1, 0);
    AddUnits(AtStation(w.id), p.st.plant.wip, key, 1, 0);
    AddUnits(IsKey(key), p.st.plant.wip, key, 1, 0);
    QtyIsUnits(p.st.plant.wip, key);
    QtyIsUnits(Add(p.st.plant.wip, key, 1, 0), key);
    UnitsNotNegative(p.st.plant.wip, key);
    assert q.st.plant.wip == Add(p.st.plant.wip, key, 1, 0);
  }

  lemma UnitsNotNegative(wip: seq<Stock<WipKey>>, key: WipKey)
    requires Tidy(wip)
    ensures Units(IsKey(key), wip) >= 0
  {
    SumNonNegative(QtyWhere(IsKey(key)), wip);
  }

  /**
   The ceiling is not kept in general. Two allocations of one unit each break it in every state where two units can be
   worked on, the capacity is positive, and no cap, or a cap above the capacity, is set: the first costs all the
   plant can raise, and the second is checked as if nothing had been spent.
   */
  lemma TwoAllocationsBreakTheCeiling(env: Env, p: Phase, product: ProductID)
    requires TidyPlant(p.st.plant) && Solid(p) && p.stats.productionSpend == 0 && RunsTwo(p.st.plant)
    requires Capacity(p.st.plant) >= 1
    requires var cap := CappedBudget(p.st.targets.productionSpendBudget); cap <= 0 || cap > Capacity(p.st.plant)
    ensures var w := p.st.plant.stations[0];
            var hooked := WithHooks(env, FreeRelease(), NoRoute(), CostlyFirst(w.capacityUsed, Capacity(p.st.plant)));
            !WithinCeiling(ResolveProduction(hooked, p, Some(TwoAllocations(w.id, product))).st.plant)
  {
    hide QtyOf, Units, StressedCapacity, TidyPlant, Advance, ReleaseAll, ProjectCashDelta, Capacity, CappedBudget, Ready, RunsTwo;
    assert |p.st.plant.stations| > 0 by { FirstStation(p.st.plant, 0); }
    var w, room := p.st.plant.stations[0], Capacity(p.st.plant);
    var hooked := WithHooks(env, FreeRelease(), NoRoute(), CostlyFirst(w.capacityUsed, room));
    var action := TwoAllocations(w.id, product);
    CeilingAfterProduction(hooked, p, Some(action));
    OneRelease(hooked, p, product);
    var released := ReleaseAll(hooked, p, w.id, [ProductionRelease(product, 1)]);
    var cap, a := CappedBudget(p.st.targets.productionSpendBudget), CapacityAllocation(w.id, product, 1);
    var s0 := Producing(released, map[], 0);
    MeasuredFirst(released);
    OneUnit(hooked, s0, cap, product, 2);
    var s1 := Advance(hooked, s0, cap, a);
    FirstStation(s1.p.st.plant, product);
    MeasuredFirst(s1.p);
    OneUnit(hooked, s1, cap, product, 1);
    var s2 := Advance(hooked, s1, cap, a);
    assert [a, a][1..] == [a] && [a][1..] == [];
    assert AdvanceAll(hooked, s2, cap, []) == s2;
    assert AdvanceAll(hooked, s1, cap, [a]) == s2;
    assert AdvanceAll(hooked, s0, cap, [a, a]) == s2;
    assert ResolveProduction(hooked, p, Some(action)).stats.productionSpend == room + 1;
  }

  lemma FirstStation(plant: Plant, product: ProductID)
    ensures RunsTwo(plant) || Ready(plant, product, 1) ==> |plant.stations| > 0
  {
  }

  lemma MeasuredFirst(p: Phase)
    requires |p.st.plant.stations| > 0
    ensures var q := MeasureStress(p, 0);
            |q.st.plant.stations| > 0 && q.st.plant.stations[0].capacityUsed == p.st.plant.stations[0].capacityUsed
  {
    hide StressedCapacity, Units;
  }

  // ---------------------------------------------------------------- broken at a constant cost

  /** The hook quotes one cost for a product at a station, whatever the state and the quantity. */
  ghost predicate ConstantCost(env: Env, product: ProductID, station: WorkstationID, cost: int) {
    forall st: MatchState, qty: int :: env.cfg.productionCost(st, env.round, product, station, qty) == cost
  }

  /** Station `i` is found by its identifier and can still work on `n` units that wait there, within its base labour. */
  ghost predicate CanWork(plant: Plant, i: nat, product: ProductID, n: int) {
    && i < |plant.stations| && Found(plant.stations, i)
    && var w := plant.stations[i];
       && QtyOf(plant.wip, WipKey(product, w.id)) >= n
       && StressedCapacity(w, Units(AtStation(w.id), plant.wip)).effective - w.capacityUsed >= n
       && BaseLaborLeft(w) >= n
  }

  lemma PaidAtConstantCost(q: int, base: int, overtime: int, cost: int, overtimeCost: int, funds: int)
    requires 0 < q <= base && cost >= 1 && q * cost <= funds
    ensures PaidUpTo(q, base, overtime, cost, overtimeCost, funds) && funds > 0
    ensures LineCost(q, base, overtime, cost, overtimeCost) == q * cost
  {
    assert q * cost >= q by { ProductNonNegative(q, cost - 1); }
    forall x | 1 <= x <= q ensures LineCost(x, base, overtime, cost, overtimeCost) <= funds {
      ProductNonNegative(q - x, cost);
      assert LineCost(x, base, overtime, cost, overtimeCost) == x * cost;
      assert q * cost == x * cost + (q - x) * cost;
    }
  }

  lemma PlanAtConstantCost(env: Env, s: Producing, cap: int, i: nat, product: ProductID, n: int, q: int, cost: int)
    requires CanWork(s.p.st.plant, i, product, n) && 0 < q <= n && cost >= 1
    requires ConstantCost(env, product, s.p.st.plant.stations[i].id, cost)
    requires q * cost <= Capacity(s.p.st.plant) && (cap <= 0 || s.spent + q * cost <= cap)
    ensures var w := s.p.st.plant.stations[i];
            PlanAdvance(env, MeasureStress(s.p, i), i, At(s.overtime, w.id), cap, s.spent, CapacityAllocation(w.id, product, q)) ==
            Plan(q, cost)
  {
    hide AffordableAdvance, QtyOf, SpendCapacity, StressedCapacity, Units, PaidUpTo, LineCost;
    var w, p := s.p.st.plant.stations[i], MeasureStress(s.p, i);
    var left, a := At(s.overtime, w.id), CapacityAllocation(w.id, product, q);
    var cash := SpendCapacity(Position(p.st.plant.cash, p.st.plant.debt), p.st.plant.debtCeiling);
    var funds := if cap > 0 then Min(cap - s.spent, cash) else cash;
    PlanIsLargest(env, p, i, left, cap, s.spent, a, q);
    PlanWithinLimits(env, p, i, left, cap, s.spent, a);
    PaidAtConstantCost(q, BaseLaborLeft(w), left, cost, w.overtimeCost, funds);
  }

  /** Wherever the units go, no more come back to the station than left it. */
  lemma MovingKeepsWork(env: Env, p: Phase, key: WipKey, qty: int, cost: int, overtime: bool)
    requires Tidy(p.st.plant.wip) && qty > 0
    ensures var wip := MoveUnits(env, p, key, qty, cost, overtime).st.plant.wip;
            && QtyOf(wip, key) >= QtyOf(p.st.plant.wip, key)
            && Units(AtStation(key.station), wip) <= Units(AtStation(key.station), p.st.plant.wip) + qty
  {
    hide Add, QtyOf, Units, Tidy, CompleteUnits;
    var route := env.cfg.route(p.st, env.round, key.product, key.station);
    if route.finished {
      CompletingKeepsWork(env, p, key, qty, cost, overtime);
    } else if route.next == NO_STATION {
      AddedWork(p.st.plant.wip, key, key, qty, cost);
    } else {
      AddedWork(p.st.plant.wip, key, WipKey(key.product, route.next), qty, cost);
    }
  }

  lemma AddedWork(wip: seq<Stock<WipKey>>, key: WipKey, to: WipKey, qty: int, cost: int)
    requires Tidy(wip) && qty >= 0
    ensures QtyOf(Add(wip, to, qty, cost), key) >= QtyOf(wip, key)
    ensures Units(AtStation(key.station), Add(wip, to, qty, cost)) <= Units(AtStation(key.station), wip) + qty
  {
    hide Add, QtyOf, Units, Tidy;
    AddTidy(wip, to, qty, cost);
    AddUnits(AtStation(key.station), wip, to, qty, cost);
    AddUnits(IsKey(key), wip, to, qty, cost);
    QtyIsUnits(wip, key);
    QtyIsUnits(Add(wip, to, qty, cost), key);
  }

  lemma CompletingKeepsWork(env: Env, p: Phase, key: WipKey, qty: int, cost: int, overtime: bool)
    requires Tidy(p.st.plant.wip) && qty > 0
    ensures var wip := CompleteUnits(env, p, key, qty, cost, overtime).st.plant.wip;
            && QtyOf(wip, key) >= QtyOf(p.st.plant.wip, key)
            && Units(AtStation(key.station), wip) <= Units(AtStation(key.station), p.st.plant.wip) + qty
  {
    hide Add, AddHold, QtyOf, Units, Tidy, FinishedSplit, Normalized, Drawn;
    var ctx := FinalInspection(key.product, key.station, qty, key.station in p.stressed, overtime);
    var raw := env.cfg.quality(p.st, env.round, ctx);
    SplitConserves(qty, raw, env.random, p.drawn);
    AddedWork(p.st.plant.wip, key, key, FinishedSplit(qty, Normalized(raw), env.random, p.drawn).rework, cost);
  }

  lemma LessWorkLessStress(w: Workstation, more: int, less: int)
    requires less <= more
    ensures StressedCapacity(w, less).effective >= StressedCapacity(w, more).effective
  {
    var threshold := w.capacity + w.stressBuffer;
    if w.capacity > 0 && w.stressPenalty > 0 && less > threshold {
      ProductNonNegative(more - less, w.stressPenalty);
      assert (more - threshold) * w.stressPenalty == (less - threshold) * w.stressPenalty + (more - less) * w.stressPenalty;
    }
  }

  /** What an allocation within base labour books, at a constant cost and wherever its units go. */
  lemma WorkedAt(env: Env, s: Producing, cap: int, i: nat, product: ProductID, n: int, q: int, cost: int)
    requires CanWork(s.p.st.plant, i, product, n) && 0 < q <= n && cost >= 1
    requires ConstantCost(env, product, s.p.st.plant.stations[i].id, cost)
    requires q * cost <= Capacity(s.p.st.plant) && (cap <= 0 || s.spent + q * cost <= cap)
    ensures var w, key := s.p.st.plant.stations[i], WipKey(product, s.p.st.plant.stations[i].id);
            var p := MeasureStress(s.p, i);
            var booked := BookAdvance(s.(p := TakeWip(p, key, q)), i, Plan(q, cost));
            var t := Advance(env, s, cap, CapacityAllocation(w.id, product, q));
            && t.spent == s.spent + q * cost && t.p.stats.productionSpend == s.p.stats.productionSpend + q * cost
            && |t.p.st.plant.stations| == |s.p.st.plant.stations| && t.p.st.plant.stations == booked.p.st.plant.stations
            && booked.p.st.plant.wip == Take(s.p.st.plant.wip, key, q)
            && exists c, overtime :: t.p.st.plant.wip == MoveUnits(env, booked.p, key, q, c, overtime).st.plant.wip
  {
    hide PlanAdvance, StressedCapacity, Take, TakeCost, QtyOf, Units, MoveUnits;
    PlanAtConstantCost(env, s, cap, i, product, n, q, cost);
    var w, p := s.p.st.plant.stations[i], MeasureStress(s.p, i);
    var key := WipKey(product, w.id);
    var c := PerUnitCost(TakeCost(p.st.plant.wip, key, q, 0), q);
    var overtime := OvertimeUsed(p.st.plant.stations[i], q, At(s.overtime, w.id)) > 0;
    var booked := BookAdvance(s.(p := TakeWip(p, key, q)), i, Plan(q, cost));
    MovingKeepsSpend(env, booked.p, key, q, c, overtime);
    MoveUnitsFrame(env, booked.p, key, q, c, overtime);
    assert OvertimeUsed(w, q, At(s.overtime, w.id)) == 0;
    assert Advance(env, s, cap, CapacityAllocation(w.id, product, q)).p == MoveUnits(env, booked.p, key, q, c, overtime);
  }

  lemma StationAfterWork(s: Producing, i: nat, key: WipKey, q: int, cost: int)
    requires i < |s.p.st.plant.stations| && 0 < q <= BaseLaborLeft(s.p.st.plant.stations[i])
    ensures var w := s.p.st.plant.stations[i];
            var after := BookAdvance(s.(p := TakeWip(MeasureStress(s.p, i), key, q)), i, Plan(q, cost)).p.st.plant.stations;
            && |after| == |s.p.st.plant.stations|
            && var x := after[i];
               && after == s.p.st.plant.stations[i := x]
               && x == w.(effective := x.effective, stressLoss := x.stressLoss,
                          laborUsed := w.laborUsed + q, capacityUsed := w.capacityUsed + q)
  {
    hide StressedCapacity, Units, Take;
  }

  /** After an allocation the station can still work on what is left of the `n` units. */
  lemma WorkLeft(env: Env, s: Producing, cap: int, i: nat, product: ProductID, n: int, q: int, cost: int)
    requires CanWork(s.p.st.plant, i, product, n) && 0 < q <= n && cost >= 1 && TidyPlant(s.p.st.plant)
    requires ConstantCost(env, product, s.p.st.plant.stations[i].id, cost)
    requires q * cost <= Capacity(s.p.st.plant) && (cap <= 0 || s.spent + q * cost <= cap)
    ensures var w := s.p.st.plant.stations[i];
            var t := Advance(env, s, cap, CapacityAllocation(w.id, product, q));
            && CanWork(t.p.st.plant, i, product, n - q) && t.p.st.plant.stations[i].id == w.id
            && TidyPlant(t.p.st.plant) && Capacity(t.p.st.plant) == Capacity(s.p.st.plant)
            && t.spent == s.spent + q * cost && t.p.stats.productionSpend == s.p.stats.productionSpend + q * cost
  {
    hide StressedCapacity, Take, QtyOf, Units, MoveUnits, MeasureStress, BookAdvance, Advance, TidyPlant, ConstantCost, Tidy;
    var plant := s.p.st.plant;
    var w, key := plant.stations[i], WipKey(product, plant.stations[i].id);
    var a := CapacityAllocation(w.id, product, q);
    WorkedAt(env, s, cap, i, product, n, q, cost);
    StationAfterWork(s, i, key, q, cost);
    AdvanceFrame(env, s, cap, a);
    AdvanceMoves(env, s, cap, a, Accrual);
    var t := Advance(env, s, cap, a);
    var x := t.p.st.plant.stations[i];
    SameIds(plant.stations, i, x);
    PlantStocks(plant);
    MeasuredStation(s.p, i);
    var booked := BookAdvance(s.(p := TakeWip(MeasureStress(s.p, i), key, q)), i, Plan(q, cost));
    var c, overtime :| t.p.st.plant.wip == MoveUnits(env, booked.p, key, q, c, overtime).st.plant.wip;
    TakeTidy(plant.wip, key, q);
    MovingKeepsWork(env, booked.p, key, q, c, overtime);
    TakeUnits(AtStation(w.id), plant.wip, key, q);
    TakeQty(plant.wip, key, q, key);
    LessWorkLessStress(w, Units(AtStation(w.id), plant.wip), Units(AtStation(w.id), t.p.st.plant.wip));
    SameCongestion(w, x, Units(AtStation(w.id), t.p.st.plant.wip));
  }

  function Allocations(station: WorkstationID, product: ProductID, first: int, second: int): ActionSubmission {
    var a, b := CapacityAllocation(station, product, first), CapacityAllocation(station, product, second);
    ActionSubmission(NoActionID, 0, 0, ProductionManager,
                     RoleAction(None, Some(ProductionAction([], [a, b], [])), None, None))
  }

  /**
   The ceiling also breaks where every unit costs the same. Two allocations, each within what the plant can raise and
   together beyond it, break it in every state where a station can work on both within its base labour and no cap, or a
   cap that fits both, is set, wherever the units go from there.
   */
  lemma ConstantCostBreaksTheCeiling(env: Env, p: Phase, i: nat, product: ProductID, first: int, second: int, cost: int)
    requires TidyPlant(p.st.plant) && Solid(p) && p.stats.productionSpend == 0
    requires first > 0 && second > 0 && cost >= 1 && CanWork(p.st.plant, i, product, first + second)
    requires ConstantCost(env, product, p.st.plant.stations[i].id, cost)
    requires first * cost <= Capacity(p.st.plant) && second * cost <= Capacity(p.st.plant) < (first + second) * cost
    requires var cap := CappedBudget(p.st.targets.productionSpendBudget); cap <= 0 || (first + second) * cost <= cap
    ensures !WithinCeiling(ResolveProduction(env, p, Some(Allocations(p.st.plant.stations[i].id, product, first, second))).st.plant)
  {
    hide QtyOf, Units, StressedCapacity, TidyPlant, Advance, ProjectCashDelta, Capacity, CappedBudget, ConstantCost, BaseLaborLeft;
    var station := p.st.plant.stations[i].id;
    var action := Allocations(station, product, first, second);
    assert (first + second) * cost == first * cost + second * cost;
    ProductNonNegative(second, cost);
    CeilingAfterProduction(env, p, Some(action));
    var cap, s0 := CappedBudget(p.st.targets.productionSpendBudget), Producing(p, map[], 0);
    WorkLeft(env, s0, cap, i, product, first + second, first, cost);
    var a, b := CapacityAllocation(station, product, first), CapacityAllocation(station, product, second);
    var s1 := Advance(env, s0, cap, a);
    AdvanceFrame(env, s0, cap, a);
    WorkLeft(env, s1, cap, i, product, second, second, cost);
    var s2 := Advance(env, s1, cap, b);
    assert [a, b][1..] == [b] && [b][1..] == [];
    assert AdvanceAll(env, s2, cap, []) == s2;
    assert AdvanceAll(env, s1, cap, [b]) == s2;
    assert AdvanceAll(env, s0, cap, [a, b]) == s2;
    assert ReleaseAll(env, p, p.st.plant.stations[0].id, []) == p;
    assert RequestOvertime(map[], []) == map[];
    assert ResolveProduction(env, p, Some(action)).stats.productionSpend == (first + second) * cost;
  }

  // ---------------------------------------------------------------- exactly when

  /** The ceiling survives production whatever it costs, wherever it goes, whatever it is made of, and whatever is asked for. */
  ghost predicate KeepsCeiling(env: Env, p: Phase) {
    forall bom: (MatchState, int, ProductID) -> ProductionBOM, route: (MatchState, int, ProductID, WorkstationID) -> RouteStep,
           cost: (MatchState, int, ProductID, WorkstationID, int) -> int, action: Option<ActionSubmission> ::
      WithinCeiling(ResolveProduction(WithHooks(env, bom, route, cost), p, action).st.plant)
  }

  /**
   When production keeps the debt ceiling, from what is known before it: a plant that can work on two units keeps its
   ceiling for every action and all costs if and only if it has nothing to spend, or a budget is set whose cap fits
   what it has to spend.
   */
  lemma CeilingKeptExactlyWhen(env: Env, p: Phase)
    requires AtStart(p) && Solid(p) && WithinCeiling(p.st.plant) && RunsTwo(p.st.plant)
    ensures var cap, room := CappedBudget(p.st.targets.productionSpendBudget), Capacity(p.st.plant);
            KeepsCeiling(env, p) <==> room == 0 || 0 < cap <= room
  {
    hide Capacity, CappedBudget, WithinCeiling, ResolveProduction, RunsTwo, TidyPlant, Idle, OvertimeCosts;
    var cap, room := CappedBudget(p.st.targets.productionSpendBudget), Capacity(p.st.plant);
    CapacityOfSolid(p.st.plant);
    if room == 0 || 0 < cap <= room {
      BudgetKeepsCeiling(env, p);
    } else {
      FirstStation(p.st.plant, 0);
      var w := p.st.plant.stations[0];
      TwoAllocationsBreakTheCeiling(env, p, 0);
      assert !WithinCeiling(ResolveProduction(WithHooks(env, FreeRelease(), NoRoute(), CostlyFirst(w.capacityUsed, room)), p,
                                              Some(TwoAllocations(w.id, 0))).st.plant);
    }
  }

  lemma BudgetKeepsCeiling(env: Env, p: Phase)
    requires AtStart(p) && Solid(p) && WithinCeiling(p.st.plant)
    requires var cap := CappedBudget(p.st.targets.productionSpendBudget);
             Capacity(p.st.plant) == 0 || 0 < cap <= Capacity(p.st.plant)
    ensures KeepsCeiling(env, p)
  {
    hide AtStart, Solid, Capacity, CappedBudget, WithinCeiling, ResolveProduction;
    forall bom: (MatchState, int, ProductID) -> ProductionBOM, route: (MatchState, int, ProductID, WorkstationID) -> RouteStep,
           cost: (MatchState, int, ProductID, WorkstationID, int) -> int, action: Option<ActionSubmission>
      ensures WithinCeiling(ResolveProduction(WithHooks(env, bom, route, cost), p, action).st.plant)
    {
      CeilingKeptByBudget(WithHooks(env, bom, route, cost), p, action);
    }
  }

  /** Every plant with this cash, debt, ceiling and production budget keeps its ceiling. */
  ghost predicate SafeMoney(env: Env, money: Position, ceiling: int, budget: int) {
    forall p: Phase | AtStart(p) && PositionOf(p.st.plant) == money && p.st.plant.debtCeiling == ceiling &&
                      p.st.targets.productionSpendBudget == budget :: KeepsCeiling(env, p)
  }

  /** The same condition, over all plants at once: what is in the plant adds nothing to it. */
  lemma MoneyIsSafeExactlyWhen(env: Env, money: Position, ceiling: int, budget: int)
    requires money.Normal() && money.debt <= Max(ceiling, 0)
    ensures SafeMoney(env, money, ceiling, budget) <==>
            SpendCapacity(money, ceiling) == 0 || 0 < CappedBudget(budget) <= SpendCapacity(money, ceiling)
  {
    hide KeepsCeiling, CappedBudget;
    if SpendCapacity(money, ceiling) == 0 || 0 < CappedBudget(budget) <= SpendCapacity(money, ceiling) {
      forall p: Phase | AtStart(p) && PositionOf(p.st.plant) == money && p.st.plant.debtCeiling == ceiling &&
                        p.st.targets.productionSpendBudget == budget
        ensures KeepsCeiling(env, p)
      {
        BudgetKeepsCeiling(env, p);
      }
    } else {
      var p := Workshop(money, ceiling, budget);
      WorkshopStarts(money, ceiling, budget);
      CeilingKeptExactlyWhen(env, p);
    }
  }

  /** A plant with one station and nothing on it. */
  function Workshop(money: Position, ceiling: int, budget: int): Phase {
    var station := Workstation(1, 2, 2, 0, 0, 0, 2, 0, 0, 0, 0, 0);
    var plant := Plant(money.cash, money.debt, ceiling, [], [], [], [], [], [], [], [], [station], []);
    Phase(MatchState(0, 1, [], plant, [], [], BudgetTargets(0, 0, budget, 0, 0, 0), None, []), NO_STATS, 0, {}, [])
  }

  lemma WorkshopStarts(money: Position, ceiling: int, budget: int)
    ensures AtStart(Workshop(money, ceiling, budget)) && RunsTwo(Workshop(money, ceiling, budget).st.plant)
  {
  }
}
