/**
 Production over whole lists of allocations: the books of every workstation, the overtime requests, the
 spending cap, and what one allocation is trimmed to.
 */
module Production {
  import opened Seqs
  import opened Domain
  import opened Cash
  import opened Inventory
  import opened Labor
  import opened Quality
  import opened Phases
  import opened Actions
  import opened Resolver
  import opened LedgerPhases
  import opened Frames
  import opened Accounting

  function OvertimePay(): Workstation -> int { (w: Workstation) => w.overtimeUsed * w.overtimeCost }

  function OvertimeOf(): Workstation -> int { (w: Workstation) => w.overtimeUsed }

  /** Allocations find the first station with an identifier; a later one with the same identifier never works. */
  predicate Found(stations: seq<Workstation>, i: nat)
    requires i < |stations|
  {
    StationIndex(stations, stations[i].id) == i
  }

  predicate Unused(w: Workstation) { w.laborUsed == 0 && w.overtimeUsed == 0 && w.capacityUsed == 0 }

  lemma SameIds(stations: seq<Workstation>, i: nat, w: Workstation)
    requires i < |stations| && w.id == stations[i].id
    ensures forall id :: StationIndex(stations[i := w], id) == StationIndex(stations, id)
  {
    var after := stations[i := w];
    assert forall k | 0 <= k < |stations| :: after[k].id == stations[k].id;
    forall id ensures StationIndex(after, id) == StationIndex(stations, id) {
      var j, k := StationIndex(after, id), StationIndex(stations, id);
      assert j < |after| ==> stations[j].id == id;
      assert k < |stations| ==> after[k].id == id;
    }
  }

  /** What a station had requested is what it has used plus what is left of the request. */
  ghost predicate StationBooked(w: Workstation, overtime: map<WorkstationID, int>, requested: map<WorkstationID, int>) {
    Labor.Ledger(w) && At(overtime, w.id) >= 0 && w.overtimeUsed + At(overtime, w.id) == At(requested, w.id)
  }

  ghost predicate BookedAt(stations: seq<Workstation>, i: nat, overtime: map<WorkstationID, int>, requested: map<WorkstationID, int>)
    requires i < |stations|
  {
    if Found(stations, i) then StationBooked(stations[i], overtime, requested) else Unused(stations[i])
  }

  /** The books between two allocations. */
  ghost predicate Booked(s: Producing, requested: map<WorkstationID, int>) {
    && (forall i | 0 <= i < |s.p.st.plant.stations| :: BookedAt(s.p.st.plant.stations, i, s.overtime, requested))
    && s.spent == s.p.stats.productionSpend + Sum(OvertimePay(), s.p.st.plant.stations)
    && s.p.stats.overtimeUnits == Sum(OvertimeOf(), s.p.st.plant.stations)
  }

  lemma MeasureKeepsBooks(s: Producing, i: nat, requested: map<WorkstationID, int>)
    requires i < |s.p.st.plant.stations| && Booked(s, requested)
    ensures Booked(s.(p := MeasureStress(s.p, i)), requested)
    ensures MeasureStress(s.p, i).st.plant.stations[i].effective <= Max(s.p.st.plant.stations[i].capacity, 0)
  {
    hide Units;
    var stations, plant := s.p.st.plant.stations, s.p.st.plant;
    var w := stations[i];
    var c := StressedCapacity(w, Units(AtStation(w.id), plant.wip));
    var measured := w.(effective := c.effective, stressLoss := c.loss);
    SumUpdate(OvertimePay(), stations, i, measured);
    SumUpdate(OvertimeOf(), stations, i, measured);
    SameIds(stations, i, measured);
    var after := stations[i := measured];
    forall j | 0 <= j < |after| ensures BookedAt(after, j, s.overtime, requested) {
      assert BookedAt(stations, j, s.overtime, requested);
    }
  }

  lemma BookingKeepsBooks(s: Producing, i: nat, plan: Plan, requested: map<WorkstationID, int>)
    requires i < |s.p.st.plant.stations| && Found(s.p.st.plant.stations, i) && Booked(s, requested)
    requires var w := s.p.st.plant.stations[i];
             && w.effective <= Max(w.capacity, 0)
             && 0 < plan.advance <= Min(w.effective - w.capacityUsed, LaborLeft(w, At(s.overtime, w.id)))
    ensures Booked(BookAdvance(s, i, plan), requested)
  {
    hide BookAdvance, StationBooked, Unused, LaborLeft, Sum;
    var w := s.p.st.plant.stations[i];
    OvertimeBounds(w, plan.advance, At(s.overtime, w.id));
    BookedHere(s, i, plan, requested);
    BookedElsewhere(s, i, plan, requested);
    BookedTotals(s, i, plan);
    SameIds(s.p.st.plant.stations, i, BookAdvance(s, i, plan).p.st.plant.stations[i]);
    assert BookAdvance(s, i, plan).p.st.plant.stations ==
           s.p.st.plant.stations[i := BookAdvance(s, i, plan).p.st.plant.stations[i]];
  }

  lemma BookedHere(s: Producing, i: nat, plan: Plan, requested: map<WorkstationID, int>)
    requires i < |s.p.st.plant.stations| && Found(s.p.st.plant.stations, i) && Booked(s, requested)
    requires var w := s.p.st.plant.stations[i];
             && w.effective <= Max(w.capacity, 0)
             && 0 < plan.advance <= Min(w.effective - w.capacityUsed, LaborLeft(w, At(s.overtime, w.id)))
    ensures var t := BookAdvance(s, i, plan);
            && |t.p.st.plant.stations| == |s.p.st.plant.stations|
            && t.p.st.plant.stations[i].id == s.p.st.plant.stations[i].id
            && StationBooked(t.p.st.plant.stations[i], t.overtime, requested)
  {
    hide Labor.Ledger, ConsumeLabor, OvertimeUsed, LaborLeft;
    var w := s.p.st.plant.stations[i];
    assert BookedAt(s.p.st.plant.stations, i, s.overtime, requested);
    BookingKeepsLedger(w, w.effective, plan.advance, At(s.overtime, w.id));
    ConsumedStation(w, plan.advance, At(s.overtime, w.id));
  }

  lemma BookedTotals(s: Producing, i: nat, plan: Plan)
    requires i < |s.p.st.plant.stations|
    requires OvertimeUsed(s.p.st.plant.stations[i], plan.advance, At(s.overtime, s.p.st.plant.stations[i].id)) >= 0
    ensures var t := BookAdvance(s, i, plan);
            && t.spent - s.spent - (t.p.stats.productionSpend - s.p.stats.productionSpend) ==
               Sum(OvertimePay(), t.p.st.plant.stations) - Sum(OvertimePay(), s.p.st.plant.stations)
            && t.p.stats.overtimeUnits - s.p.stats.overtimeUnits ==
               Sum(OvertimeOf(), t.p.st.plant.stations) - Sum(OvertimeOf(), s.p.st.plant.stations)
  {
    hide ConsumeLabor, OvertimeUsed, Sum;
    var w := s.p.st.plant.stations[i];
    var left := At(s.overtime, w.id);
    var used, booked := OvertimeUsed(w, plan.advance, left), ConsumeLabor(w, plan.advance, left);
    var station := booked.(capacityUsed := booked.capacityUsed + plan.advance);
    ConsumedStation(w, plan.advance, left);
    SumUpdate(OvertimePay(), s.p.st.plant.stations, i, station);
    SumUpdate(OvertimeOf(), s.p.st.plant.stations, i, station);
    assert (w.overtimeUsed + used) * w.overtimeCost == w.overtimeUsed * w.overtimeCost + used * w.overtimeCost;
  }

  lemma OvertimeBounds(w: Workstation, quantity: int, overtime: int)
    requires quantity >= 0
    ensures OvertimeUsed(w, quantity, overtime) >= 0
  {
  }

  lemma ConsumedStation(w: Workstation, quantity: int, overtime: int)
    ensures var b := ConsumeLabor(w, quantity, overtime);
            && b.overtimeUsed == w.overtimeUsed + OvertimeUsed(w, quantity, overtime)
            && b.id == w.id && b.overtimeCost == w.overtimeCost && b.capacityUsed == w.capacityUsed
  {
  }

  lemma BookedElsewhere(s: Producing, i: nat, plan: Plan, requested: map<WorkstationID, int>)
    requires i < |s.p.st.plant.stations| && Found(s.p.st.plant.stations, i) && Booked(s, requested)
    ensures var stations, t := s.p.st.plant.stations, BookAdvance(s, i, plan);
            && |t.p.st.plant.stations| == |stations|
            && forall j | 0 <= j < |stations| && j != i ::
                 && t.p.st.plant.stations[j] == stations[j]
                 && BookedAt(stations, j, t.overtime, requested)
  {
    hide Labor.Ledger, OvertimeUsed, ConsumeLabor, Sum;
    var stations, t := s.p.st.plant.stations, BookAdvance(s, i, plan);
    ConsumedStation(stations[i], plan.advance, At(s.overtime, stations[i].id));
    forall j | 0 <= j < |stations| && j != i
      ensures t.p.st.plant.stations[j] == stations[j] && BookedAt(stations, j, t.overtime, requested)
    {
      assert BookedAt(stations, j, s.overtime, requested);
    }
  }

  ghost predicate SpendKept(a: Stats, b: Stats) {
    b == a.(scrapUnits := b.scrapUnits, reworkUnits := b.reworkUnits, producedUnits := b.producedUnits)
  }

  lemma SplitKeepsSpend(p: Phase, key: WipKey, qty: int, cost: int, round: int, release: int)
    ensures SpendKept(p.stats, ScrapUnits(p, key, qty).stats)
    ensures SpendKept(p.stats, ReworkUnits(p, key, qty, cost).stats)
    ensures SpendKept(p.stats, HoldUnits(p, key, qty, cost, round, release).stats)
    ensures SpendKept(p.stats, StockUnits(p, key, qty, cost).stats)
  {
    hide Add, AddHold;
  }

  lemma CompletingKeepsSpend(env: Env, p: Phase, key: WipKey, qty: int, cost: int, overtime: bool)
    ensures SpendKept(p.stats, CompleteUnits(env, p, key, qty, cost, overtime).stats)
  {
    hide ScrapUnits, ReworkUnits, HoldUnits, StockUnits, FinishedSplit, Normalized, Drawn;
    if qty > 0 {
      var ctx := FinalInspection(key.product, key.station, qty, key.station in p.stressed, overtime);
      var profile := Normalized(env.cfg.quality(p.st, env.round, ctx));
      var split := FinishedSplit(qty, profile, env.random, p.drawn);
      var p0 := p.(drawn := Drawn(env.random, p.drawn, qty));
      var release := env.round + Max(profile.holdRounds, 1);
      SplitKeepsSpend(p0, key, split.scrap, cost, env.round, release);
      var p1 := ScrapUnits(p0, key, split.scrap);
      SplitKeepsSpend(p1, key, split.rework, cost, env.round, release);
      var p2 := ReworkUnits(p1, key, split.rework, cost);
      SplitKeepsSpend(p2, key, split.hold, cost, env.round, release);
      SplitKeepsSpend(HoldUnits(p2, key, split.hold, cost, env.round, release), key, split.Good(qty), cost, env.round, release);
    }
  }

  /** Moving the units on changes neither the stations nor what was spent. */
  lemma MovingKeepsSpend(env: Env, p: Phase, key: WipKey, qty: int, cost: int, overtime: bool)
    ensures SpendKept(p.stats, MoveUnits(env, p, key, qty, cost, overtime).stats)
  {
    hide Add, CompleteUnits;
    CompletingKeepsSpend(env, p, key, qty, cost, overtime);
  }

  lemma MovingKeepsBooks(env: Env, s: Producing, key: WipKey, qty: int, cost: int, overtime: bool, requested: map<WorkstationID, int>)
    requires Booked(s, requested)
    ensures Booked(s.(p := MoveUnits(env, s.p, key, qty, cost, overtime)), requested)
  {
    hide MoveUnits, BookedAt, Sum;
    MovingKeepsSpend(env, s.p, key, qty, cost, overtime);
    MoveUnitsFrame(env, s.p, key, qty, cost, overtime);
  }

  lemma AdvanceKeepsBooks(env: Env, s: Producing, cap: int, a: CapacityAllocation, requested: map<WorkstationID, int>)
    requires Booked(s, requested)
    ensures Booked(Advance(env, s, cap, a), requested)
  {
    hide Booked, PlanAdvance, BookAdvance, MoveUnits, MeasureStress, Take, TakeCost, OvertimeUsed, LaborLeft;
    var i := StationIndex(s.p.st.plant.stations, a.station);
    if a.capacity > 0 && i < |s.p.st.plant.stations| {
      MeasureKeepsBooks(s, i, requested);
      var p := MeasureStress(s.p, i);
      MeasuredStation(s.p, i);
      var left := At(s.overtime, a.station);
      PlanWithinLimits(env, p, i, left, cap, s.spent, a);
      var plan := PlanAdvance(env, p, i, left, cap, s.spent, a);
      if plan.advance > 0 {
        var key := WipKey(a.product, a.station);
        var cost := PerUnitCost(TakeCost(p.st.plant.wip, key, plan.advance, 0), plan.advance);
        var overtime := OvertimeUsed(p.st.plant.stations[i], plan.advance, left) > 0;
        var taken := s.(p := TakeWip(p, key, plan.advance));
        TakingKeepsBooks(s.(p := p), key, plan.advance, requested);
        MeasuredKeepsIds(s.p, i, a.station);
        BookingKeepsBooks(taken, i, plan, requested);
        MovingKeepsBooks(env, BookAdvance(taken, i, plan), key, plan.advance, cost, overtime, requested);
      }
    }
  }

  lemma MeasuredStation(p: Phase, i: nat)
    requires i < |p.st.plant.stations|
    ensures var q := MeasureStress(p, i);
            && |q.st.plant.stations| == |p.st.plant.stations|
            && q.st.plant.stations[i].id == p.st.plant.stations[i].id
            && q.st.plant.stations[i].capacity == p.st.plant.stations[i].capacity
  {
    hide StressedCapacity;
  }

  lemma MeasuredKeepsIds(p: Phase, i: nat, id: WorkstationID)
    requires i < |p.st.plant.stations|
    ensures StationIndex(MeasureStress(p, i).st.plant.stations, id) == StationIndex(p.st.plant.stations, id)
  {
    hide StressedCapacity, Units;
    var w := p.st.plant.stations[i];
    var c := StressedCapacity(w, Units(AtStation(w.id), p.st.plant.wip));
    SameIds(p.st.plant.stations, i, w.(effective := c.effective, stressLoss := c.loss));
  }

  lemma TakingKeepsBooks(s: Producing, key: WipKey, qty: int, requested: map<WorkstationID, int>)
    requires Booked(s, requested)
    ensures Booked(s.(p := TakeWip(s.p, key, qty)), requested)
  {
    hide Take, BookedAt;
  }

  /**
   Through any list of allocations: a station's capacity used is its labour plus its overtime, never more
   than its nominal capacity or base labour, and overtime is accounted for hour by hour. Where stations share an
   identifier, the first does all the work.
   */
  lemma {:induction false} AllocationsKeepBooks(env: Env, s: Producing, cap: int, allocations: seq<CapacityAllocation>,
                                                requested: map<WorkstationID, int>)
    requires Booked(s, requested)
    ensures Booked(AdvanceAll(env, s, cap, allocations), requested)
    decreases |allocations|
  {
    hide Advance, Booked;
    if |allocations| > 0 {
      AdvanceKeepsBooks(env, s, cap, allocations[0], requested);
      AllocationsKeepBooks(env, Advance(env, s, cap, allocations[0]), cap, allocations[1..], requested);
    }
  }

  // ---------------------------------------------------------------- overtime requests

  /** What one overtime line adds to the request for a station. */
  function Requested(id: WorkstationID): OvertimeAllocation -> int {
    (o: OvertimeAllocation) => if o.station == id then Max(o.capacity, 0) else 0
  }

  lemma {:induction false} RequestsAddUp(requests: map<WorkstationID, int>, overtime: seq<OvertimeAllocation>, id: WorkstationID)
    ensures At(RequestOvertime(requests, overtime), id) == At(requests, id) + Sum(Requested(id), overtime)
    decreases |overtime|
  {
    if |overtime| > 0 {
      var o := overtime[0];
      RequestsAddUp(if o.capacity <= 0 then requests else requests[o.station := At(requests, o.station) + o.capacity],
                    overtime[1..], id);
    }
  }

  // ---------------------------------------------------------------- the spending cap

  lemma OvertimeCostsWhatItUsed(w: Workstation, plan: Plan, overtime: int)
    requires plan.advance >= 0
    ensures LineCost(plan.advance, BaseLaborLeft(w), overtime, plan.unit, w.overtimeCost) ==
            plan.advance * plan.unit + OvertimeUsed(w, plan.advance, overtime) * w.overtimeCost
  {
    ProjectionMatchesConsumption(w, plan.advance, overtime);
  }

  /** An accepted advance fits what is left of the budget and what the plant can raise. */
  lemma PlanIsPaidFor(env: Env, p: Phase, i: nat, overtime: int, cap: int, spent: int, a: CapacityAllocation)
    requires i < |p.st.plant.stations|
    ensures var plan, w := PlanAdvance(env, p, i, overtime, cap, spent, a), p.st.plant.stations[i];
            var cost := LineCost(plan.advance, BaseLaborLeft(w), overtime, plan.unit, w.overtimeCost);
            plan.advance > 0 ==>
              && (cap > 0 ==> spent + cost <= cap)
              && cost <= SpendCapacity(Position(p.st.plant.cash, p.st.plant.debt), p.st.plant.debtCeiling)
  {
    hide AffordableAdvance, QtyOf, SpendCapacity, LaborLeft, BaseLaborLeft, LineCost;
    var plant, w := p.st.plant, p.st.plant.stations[i];
    var base, plan := BaseLaborLeft(w), PlanAdvance(env, p, i, overtime, cap, spent, a);
    var cash := SpendCapacity(Position(plant.cash, plant.debt), plant.debtCeiling);
    var limit := Min(Min(Min(a.capacity, w.effective - w.capacityUsed),
                         QtyOf(plant.wip, WipKey(a.product, a.station))), LaborLeft(w, overtime));
    if cap > 0 && cap - spent > 0 {
      AcceptedIsPaidFor(limit, base, overtime, plan.unit, w.overtimeCost, cap - spent);
      var budgeted := AffordableAdvance(limit, base, overtime, plan.unit, w.overtimeCost, cap - spent);
      AdvanceStaysBelow(budgeted, base, overtime, plan.unit, w.overtimeCost, cash);
      AcceptedIsPaidFor(budgeted, base, overtime, plan.unit, w.overtimeCost, cash);
    } else if cap > 0 {
      AdvanceStaysBelow(0, base, overtime, plan.unit, w.overtimeCost, cash);
    } else {
      AcceptedIsPaidFor(limit, base, overtime, plan.unit, w.overtimeCost, cash);
    }
  }

  /**
   An allocation gets exactly the quantities it may get: a quantity is at most the accepted one if and only if
   it fits the request, the capacity, the work at hand and the labour, and it and every smaller one fit both the
   budget that is left and the spend capacity.
   */
  lemma PlanIsLargest(env: Env, p: Phase, i: nat, overtime: int, cap: int, spent: int, a: CapacityAllocation, q: int)
    requires i < |p.st.plant.stations| && q > 0
    ensures var plan, w := PlanAdvance(env, p, i, overtime, cap, spent, a), p.st.plant.stations[i];
            var cash := SpendCapacity(Position(p.st.plant.cash, p.st.plant.debt), p.st.plant.debtCeiling);
            var funds := if cap > 0 then Min(cap - spent, cash) else cash;
            q <= plan.advance <==>
              && q <= a.capacity && q <= w.effective - w.capacityUsed && q <= LaborLeft(w, overtime)
              && q <= QtyOf(p.st.plant.wip, WipKey(a.product, a.station))
              && funds > 0
              && PaidUpTo(q, BaseLaborLeft(w), overtime, plan.unit, w.overtimeCost, funds)
  {
    hide AffordableAdvance, QtyOf, SpendCapacity, LaborLeft, BaseLaborLeft, PaidUpTo;
    var plant, w := p.st.plant, p.st.plant.stations[i];
    var base, plan := BaseLaborLeft(w), PlanAdvance(env, p, i, overtime, cap, spent, a);
    var cash := SpendCapacity(Position(plant.cash, plant.debt), plant.debtCeiling);
    var funds := if cap > 0 then Min(cap - spent, cash) else cash;
    var limit := Min(Min(Min(a.capacity, w.effective - w.capacityUsed),
                         QtyOf(plant.wip, WipKey(a.product, a.station))), LaborLeft(w, overtime));
    if cap > 0 {
      ScansCompose(limit, base, overtime, plan.unit, w.overtimeCost, cap - spent, cash);
      NothingWithoutFunds(limit, base, overtime, plan.unit, w.overtimeCost, cap - spent);
    }
    assert plan.advance == AffordableAdvance(limit, base, overtime, plan.unit, w.overtimeCost, funds);
    AdvanceStaysBelow(limit, base, overtime, plan.unit, w.overtimeCost, funds);
    NothingWithoutFunds(limit, base, overtime, plan.unit, w.overtimeCost, funds);
    if limit > 0 && funds > 0 && q <= limit {
      ScanIsExact(limit, base, overtime, plan.unit, w.overtimeCost, funds, q);
    }
  }

  lemma NothingWithoutFunds(limit: int, base: int, overtime: int, unit: int, overtimeUnit: int, available: int)
    ensures available <= 0 ==> AffordableAdvance(limit, base, overtime, unit, overtimeUnit, available) == 0
  {
  }

  lemma BookingSpends(s: Producing, i: nat, plan: Plan)
    requires i < |s.p.st.plant.stations| && plan.advance >= 0
    ensures var w := s.p.st.plant.stations[i];
            BookAdvance(s, i, plan).spent ==
            s.spent + LineCost(plan.advance, BaseLaborLeft(w), At(s.overtime, w.id), plan.unit, w.overtimeCost)
  {
    hide OvertimeUsed, LineCost, ConsumeLabor, BaseLaborLeft;
    var w := s.p.st.plant.stations[i];
    OvertimeCostsWhatItUsed(w, plan, At(s.overtime, w.id));
  }

  lemma AdvanceWithinCap(env: Env, s: Producing, cap: int, a: CapacityAllocation)
    requires cap > 0 && s.spent <= cap
    ensures Advance(env, s, cap, a).spent <= cap
  {
    hide PlanAdvance, BookAdvance, MoveUnits, MeasureStress, Take, TakeCost, OvertimeUsed, LineCost, BaseLaborLeft;
    var i := StationIndex(s.p.st.plant.stations, a.station);
    if a.capacity > 0 && i < |s.p.st.plant.stations| {
      var p := MeasureStress(s.p, i);
      MeasuredStation(s.p, i);
      var left := At(s.overtime, a.station);
      PlanIsPaidFor(env, p, i, left, cap, s.spent, a);
      var plan := PlanAdvance(env, p, i, left, cap, s.spent, a);
      if plan.advance > 0 {
        BookingSpends(s.(p := TakeWip(p, WipKey(a.product, a.station), plan.advance)), i, plan);
      }
    }
  }

  lemma {:induction false} AllocationsWithinCap(env: Env, s: Producing, cap: int, allocations: seq<CapacityAllocation>)
    requires cap > 0 && s.spent <= cap
    ensures AdvanceAll(env, s, cap, allocations).spent <= cap
    decreases |allocations|
  {
    hide Advance;
    if |allocations| > 0 {
      AdvanceWithinCap(env, s, cap, allocations[0]);
      AllocationsWithinCap(env, Advance(env, s, cap, allocations[0]), cap, allocations[1..]);
    }
  }

  // ---------------------------------------------------------------- the round

  ghost predicate Idle(stations: seq<Workstation>) { forall w | w in stations :: Unused(w) }

  lemma {:induction false} IdleCostsNothing(stations: seq<Workstation>)
    requires Idle(stations)
    ensures Sum(OvertimePay(), stations) == 0 && Sum(OvertimeOf(), stations) == 0
  {
    if |stations| > 0 {
      assert Unused(stations[0]);
      assert forall w | w in stations[1..] :: w in stations;
      IdleCostsNothing(stations[1..]);
    }
  }

  /** Nobody has worked: the whole request is left. */
  lemma IdleIsBooked(s: Producing)
    requires Idle(s.p.st.plant.stations) && s.spent == s.p.stats.productionSpend && s.p.stats.overtimeUnits == 0
    requires forall id :: At(s.overtime, id) >= 0
    ensures Booked(s, s.overtime)
  {
    var stations := s.p.st.plant.stations;
    IdleCostsNothing(stations);
    forall i | 0 <= i < |stations| ensures BookedAt(stations, i, s.overtime, s.overtime) {
      assert stations[i] in stations && Unused(stations[i]);
    }
  }

  function RequestedOf(action: Option<ActionSubmission>, id: WorkstationID): int {
    if action.None? || action.value.action.production.None? then 0
    else Sum(Requested(id), action.value.action.production.value.overtime)
  }

  /** The books of the stations after production. */
  ghost predicate Produced(p: Phase, action: Option<ActionSubmission>, cap: int) {
    && (forall w | w in p.st.plant.stations :: Labor.Ledger(w) && w.overtimeUsed <= RequestedOf(action, w.id))
    && p.stats.overtimeUnits == Sum(OvertimeOf(), p.st.plant.stations)
    && (cap > 0 ==> p.stats.productionSpend + Sum(OvertimePay(), p.st.plant.stations) <= cap)
  }

  lemma {:induction false} ReleaseAllStats(env: Env, p: Phase, first: WorkstationID, releases: seq<ProductionRelease>)
    ensures ReleaseAll(env, p, first, releases).stats == p.stats
    decreases |releases|
  {
    hide Consume, Add, AcceptedRelease;
    if |releases| > 0 {
      ReleaseAllStats(env, ReleaseOne(env, p, first, releases[0]), first, releases[1..]);
    }
  }

  lemma NonNegativeRequests(overtime: seq<OvertimeAllocation>, id: WorkstationID)
    ensures Sum(Requested(id), overtime) >= 0
  {
    SumNonNegative(Requested(id), overtime);
  }

  lemma IdleIsClosed(stations: seq<Workstation>)
    requires Idle(stations)
    ensures forall w | w in stations :: Labor.Ledger(w) && w.overtimeUsed == 0
  {
  }

  lemma BooksClose(s: Producing, requested: map<WorkstationID, int>)
    requires Booked(s, requested) && forall id :: At(requested, id) >= 0
    ensures forall w | w in s.p.st.plant.stations :: Labor.Ledger(w) && w.overtimeUsed <= At(requested, w.id)
    ensures s.p.stats.overtimeUnits == Sum(OvertimeOf(), s.p.st.plant.stations)
    ensures s.spent == s.p.stats.productionSpend + Sum(OvertimePay(), s.p.st.plant.stations)
  {
    var stations := s.p.st.plant.stations;
    forall w | w in stations ensures Labor.Ledger(w) && w.overtimeUsed <= At(requested, w.id) {
      var i :| 0 <= i < |stations| && stations[i] == w;
      assert BookedAt(stations, i, s.overtime, requested);
    }
  }

  lemma ProductionKeepsBooks(env: Env, p: Phase, action: Option<ActionSubmission>)
    requires Idle(p.st.plant.stations)
    requires p.stats.productionSpend == 0 && p.stats.overtimeUnits == 0
    ensures Produced(ResolveProduction(env, p, action), action, CappedBudget(p.st.targets.productionSpendBudget))
  {
    hide ReleaseAll, AdvanceAll, RequestOvertime, ProjectCashDelta, Sum, Booked, Idle, Labor.Ledger;
    IdleCostsNothing(p.st.plant.stations);
    IdleIsClosed(p.st.plant.stations);
    if action.Some? && action.value.action.production.Some? && |p.st.plant.stations| > 0 {
      var todo, stations := action.value.action.production.value, p.st.plant.stations;
      var overtime := RequestOvertime(map[], todo.overtime);
      var released := ReleaseAll(env, p, stations[0].id, todo.releases);
      ReleaseAllFrame(env, p, stations[0].id, todo.releases);
      ReleaseAllStats(env, p, stations[0].id, todo.releases);
      var cap := CappedBudget(released.st.targets.productionSpendBudget);
      forall id ensures At(overtime, id) == Sum(Requested(id), todo.overtime) >= 0 {
        RequestsAddUp(map[], todo.overtime, id);
        NonNegativeRequests(todo.overtime, id);
      }
      IdleIsBooked(Producing(released, overtime, 0));
      AllocationsKeepBooks(env, Producing(released, overtime, 0), cap, todo.allocations, overtime);
      BooksClose(AdvanceAll(env, Producing(released, overtime, 0), cap, todo.allocations), overtime);
      if cap > 0 {
        AllocationsWithinCap(env, Producing(released, overtime, 0), cap, todo.allocations);
      }
    } else if action.Some? && action.value.action.production.Some? {
      assert |p.st.plant.stations| == 0;
    }
  }

  // What the phases around production leave alone.

  lemma {:induction false} PlaceOrdersStats(env: Env, b: Buying, cap: int, action: ActionID, line: nat, orders: seq<PurchaseOrderIntent>)
    ensures var s := PlaceOrders(env, b, cap, action, line, orders).p.stats;
            s == b.p.stats.(procurementSpend := s.procurementSpend)
    decreases |orders|
  {
    hide AllowedOrder, CountOrder, ProjectedSpendCapacity;
    if |orders| > 0 {
      PlaceOrdersStats(env, PlaceOrder(env, b, cap, action, line, orders[0]), cap, action, line + 1, orders[1..]);
    }
  }

  lemma ProcurementStats(env: Env, p: Phase, action: Option<ActionSubmission>)
    ensures var s := ResolveProcurement(env, p, action).stats;
            s == p.stats.(procurementSpend := s.procurementSpend, cashDisbursements := s.cashDisbursements)
  {
    hide PlaceOrders, ProjectCashDelta;
    if action.Some? && action.value.action.procurement.Some? {
      PlaceOrdersStats(env, Buying(p, 0), CappedBudget(p.st.targets.procurementBudget), action.value.id, 1,
                       action.value.action.procurement.value);
    }
  }

  lemma {:induction false} SortLotsStats(env: Env, r: Receiving, lots: seq<SupplyLot>)
    ensures SortLots(env, r, lots).p.stats == r.p.stats
    decreases |lots|
  {
    hide CountDelay, Delays, MayDelay, LateRounds;
    if |lots| > 0 {
      SortLotsStats(env, SortLot(env, r, lots[0]), lots[1..]);
    }
  }

  lemma {:induction false} StoreLotsStats(p: Phase, lots: seq<SupplyLot>)
    ensures StoreLots(p, lots).stats == p.stats
    decreases |lots|
  {
    hide CountReceipt, Add;
    if |lots| > 0 {
      StoreLotsStats(StoreLot(p, lots[0]), lots[1..]);
    }
  }

  lemma {:induction false} ReleaseHoldsStats(p: Phase, holds: seq<InspectionHold>)
    ensures ReleaseHolds(p, holds).stats == p.stats
    decreases |holds|
  {
    hide Add;
    if |holds| > 0 {
      ReleaseHoldsStats(ReleaseHold(p, holds[0]), holds[1..]);
    }
  }

  lemma {:induction false} AcceptReturnsStats(env: Env, p: Phase, items: seq<CustomerReturn>)
    ensures var s := AcceptReturns(env, p, items).stats; s == p.stats.(customerReturnUnits := s.customerReturnUnits)
    decreases |items|
  {
    hide AddHold, Disappoint;
    if |items| > 0 {
      AcceptReturnsStats(env, AcceptReturn(env, p, items[0]), items[1..]);
    }
  }

  lemma BeforeProductionLeavesStations(env: Env, p: Phase, actions: seq<ActionSubmission>)
    ensures var q := BeforeProduction(env, p, actions);
            && q.st.plant.stations == p.st.plant.stations && q.st.targets == p.st.targets
            && q.stats.productionSpend == p.stats.productionSpend && q.stats.overtimeUnits == p.stats.overtimeUnits
  {
    hide ResolveProcurement, SortLots, StoreLots, ReleaseHolds, AcceptReturns, Filter, SyncCustomers;
    var action := ActionFor(actions, ProcurementManager);
    var p1 := ResolveProcurement(env, p, action);
    ProcurementFrame(env, p, action);
    ProcurementStats(env, p, action);
    SupplyFrame(env, p1);
    var lots := p1.st.plant.inTransit;
    SortLotsStats(env, Receiving(p1, [], []), lots);
    var r := SortLots(env, Receiving(p1, [], []), lots);
    StoreLotsStats(r.p.WithPlant(r.p.st.plant.(inTransit := r.remaining)), r.arrivals);
    var p2 := ReceiveSupply(env, p1);
    HoldsFrame(env, p2);
    ReleaseHoldsStats(p2, Filter(ReleasedBy(env.round), p2.st.plant.holds));
    var p3 := ReleaseInspectionHolds(env, p2);
    ReturnsFrame(env, p3);
    var items := p3.st.plant.pendingReturns;
    AcceptReturnsStats(env, p3.WithPlant(p3.st.plant.(pendingReturns := Filter(DueAfter(env.round), items))),
                       Filter(DueBy(env.round), items));
  }

  lemma {:induction false} ShipAllStats(env: Env, s: Selling, prices: map<ProductID, int>, entries: seq<BacklogEntry>)
    ensures var t := ShipAll(env, s, prices, entries).p.stats;
            t == s.p.stats.(revenue := t.revenue, shippedUnits := t.shippedUnits, cashReceipts := t.cashReceipts)
    decreases |entries|
  {
    hide Take, QtyOf, CostOf, ReturnQuantity, Normalized, DrawnForReturns, ProjectCashDelta, PaymentDelay, Price;
    if |entries| > 0 {
      ShipAllStats(env, ShipEntry(env, s, prices, entries[0]), prices, entries[1..]);
    }
  }

  lemma SalesLeaveStations(env: Env, p: Phase, action: Option<ActionSubmission>)
    ensures var q := ResolveSales(env, p, action);
            && q.st.plant.stations == p.st.plant.stations
            && q.stats.productionSpend == p.stats.productionSpend && q.stats.overtimeUnits == p.stats.overtimeUnits
  {
    hide ShipAll, SyncCustomers, EffectiveBacklog;
    SalesFrame(env, p, action);
    ShipAllStats(env, Selling(p, [], []), SalesPrices(action), env.cfg.sort(EffectiveBacklog(p.st)));
  }

  lemma {:induction false} PaidOvertime(stations: seq<Workstation>)
    requires forall w | w in stations :: w.overtimeUsed >= 0 && w.overtimeCost >= 0
    ensures Sum(StationOvertimeCost(), stations) == Sum(OvertimePay(), stations)
  {
    if |stations| > 0 {
      PaidOvertime(stations[1..]);
    }
  }

  lemma FinalizeLeavesStations(env: Env, p: Phase, action: Option<ActionSubmission>)
    ensures var q := Finalize(env, p, action);
            && q.st.plant.stations == p.st.plant.stations
            && q.stats.productionSpend == p.stats.productionSpend && q.stats.overtimeUnits == p.stats.overtimeUnits
            && q.stats.overtimeCost == Sum(StationOvertimeCost(), p.st.plant.stations)
  {
    hide AgeAll, CollectEach, PayEach, Filter, SyncCustomers, EffectiveBacklog, Sum, HoldingCost, CarryingCost, ProjectCashDelta;
    FinalizeFrame(env, p, action);
    AgingFrame(env, p);
    AgeAllStats(env, Aging(p, []), EffectiveBacklog(p.st));
    var p2 := AdoptTargets(env, AgeBacklog(env, p), action);
    var open := p2.WithPlant(p2.st.plant.(receivables := Filter(Open(env.round), p2.st.plant.receivables)));
    SettleStats(open, Filter(Matured(env.round), p2.st.plant.receivables));
    CollectFrame(env, p2);
    var p3 := CollectReceivablesDue(env, p2);
    var left := p3.WithPlant(p3.st.plant.(payables := Filter(Open(env.round), p3.st.plant.payables)));
    SettleStats(left, Filter(Matured(env.round), p3.st.plant.payables));
    PayFrame(env, p3);
  }

  lemma MetricsOfProduction(env: Env, p: Phase)
    ensures var m := ComputeMetrics(env, p);
            && m.productionSpend == p.stats.productionSpend && m.overtimeCost == p.stats.overtimeCost
            && m.overtimeUnits == p.stats.overtimeUnits
  {
  }

  lemma OpenedStations(st: MatchState)
    ensures Idle(Opened(st).plant.stations)
  {
  }

  /**
   Every round: the books of every station close, nobody works more overtime than was asked for, and with a
   production budget set, production spend and overtime pay together stay within the budget plus a tenth.
   */
  lemma ProductionWithinBudget(cfg: Config, random: Random, drawn: nat, st: MatchState, actions: seq<ActionSubmission>, r: RoundResult)
    requires OrderlyWorld(cfg) && Resolved(cfg, random, drawn, st, actions, r)
    ensures r.record.metrics.Some? && NormalizeActions(st, actions).Ok?
    ensures var m, cap := r.record.metrics.value, CappedBudget(st.targets.productionSpendBudget);
            var action := ActionFor(NormalizeActions(st, actions).value, ProductionManager);
            && (forall w | w in r.next.plant.stations :: Labor.Ledger(w) && w.overtimeUsed <= RequestedOf(action, w.id))
            && m.overtimeUnits == Sum(OvertimeOf(), r.next.plant.stations)
            && (cap > 0 && (forall w | w in r.next.plant.stations :: w.overtimeCost >= 0) ==>
                  m.productionSpend + m.overtimeCost <= cap)
  {
    hide BeforeProduction, ResolveProduction, ResolveSales, Finalize, NormalizeActions, ResetCapacity, Sum, ComputeMetrics;
    hide Idle, Labor.Ledger, CappedBudget, RequestedOf;
    FinalState(cfg, random, drawn, st, actions, r);
    var env, ordered := EnvOf(cfg, random, st), NormalizeActions(st, actions).value;
    var begin := Begin(st, drawn);
    OpenedStations(st);
    BeforeProductionLeavesStations(env, begin, ordered);
    var p1 := BeforeProduction(env, begin, ordered);
    var action := ActionFor(ordered, ProductionManager);
    ProductionKeepsBooks(env, p1, action);
    var p2 := ResolveProduction(env, p1, action);
    SalesLeaveStations(env, p2, ActionFor(ordered, SalesManager));
    var p3 := BeforeWorld(env, begin, ordered);
    if cfg.world.Some? {
      assert OrderlyEffect(p3.st, cfg.world.value(p3.st, ordered, p3.drawn).value);
    }
    var p4 := ApplyWorld(env, p3, ordered).value;
    FinalizeLeavesStations(env, p4, ActionFor(ordered, FinanceController));
    var q := Finalize(env, p4, ActionFor(ordered, FinanceController));
    MetricsOfProduction(env, q);
    OvertimeNotNegative(r.next.plant.stations);
    if forall w | w in r.next.plant.stations :: w.overtimeCost >= 0 {
      PaidOvertime(r.next.plant.stations);
    }
  }

  lemma OvertimeNotNegative(stations: seq<Workstation>)
    ensures forall w | w in stations && Labor.Ledger(w) :: w.overtimeUsed >= 0
  {
  }
}
