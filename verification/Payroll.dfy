/**
 Labour and payroll. The plant pays for the labour it employs, used or not, and for the overtime it worked, and every
 hour it employs is either used or idle.
 */
module Payroll {
  import opened Seqs
  import opened Domain
  import opened Cash
  import opened Inventory
  import opened Labor
  import opened Quality
  import opened Phases
  import opened Actions
  import opened Resolver
  import opened Frames
  import opened Accounting
  import opened Production

  /** The labour a workstation employs: its own, or as much as its capacity where none is given. */
  function Employed(w: Workstation): nat { Max(if w.labor > 0 then w.labor else w.capacity, 0) }

  function Hours(): Workstation -> int { (w: Workstation) => Employed(w) }

  function HoursUsed(): Workstation -> int { (w: Workstation) => w.laborUsed }

  function Wages(): Workstation -> int { (w: Workstation) => Employed(w) * Max(w.laborCost, 0) }

  function OvertimeWages(): Workstation -> int { (w: Workstation) => Max(w.overtimeUsed, 0) * Max(w.overtimeCost, 0) }

  /** Workstations differ in what they did this round, and in nothing else. */
  ghost predicate SameStaff(a: seq<Workstation>, b: seq<Workstation>) {
    && |a| == |b|
    && forall i | 0 <= i < |a| ::
         b[i] == a[i].(effective := b[i].effective, stressLoss := b[i].stressLoss, laborUsed := b[i].laborUsed,
                       overtimeUsed := b[i].overtimeUsed, capacityUsed := b[i].capacityUsed)
  }

  lemma StaffFollows(a: seq<Workstation>, b: seq<Workstation>, c: seq<Workstation>)
    requires SameStaff(a, b) && SameStaff(b, c)
    ensures SameStaff(a, c)
  {
  }

  lemma SameStations(a: seq<Workstation>)
    ensures SameStaff(a, a)
  {
  }

  lemma MeasuringKeepsStaff(p: Phase, i: nat)
    requires i < |p.st.plant.stations|
    ensures SameStaff(p.st.plant.stations, MeasureStress(p, i).st.plant.stations)
  {
    hide StressedCapacity;
  }

  lemma BookingKeepsStaff(s: Producing, i: nat, plan: Plan)
    requires i < |s.p.st.plant.stations|
    ensures SameStaff(s.p.st.plant.stations, BookAdvance(s, i, plan).p.st.plant.stations)
  {
    hide OvertimeUsed, BaseUsed;
  }

  lemma AdvancingKeepsStaff(env: Env, s: Producing, cap: int, a: CapacityAllocation)
    ensures SameStaff(s.p.st.plant.stations, Advance(env, s, cap, a).p.st.plant.stations)
  {
    hide PlanAdvance, BookAdvance, MoveUnits, MeasureStress, Take, TakeCost, OvertimeUsed, SameStaff;
    var i, stations := StationIndex(s.p.st.plant.stations, a.station), s.p.st.plant.stations;
    SameStations(stations);
    if a.capacity > 0 && i < |stations| {
      MeasuringKeepsStaff(s.p, i);
      MeasuredStation(s.p, i);
      var p := MeasureStress(s.p, i);
      var plan := PlanAdvance(env, p, i, At(s.overtime, a.station), cap, s.spent, a);
      if plan.advance > 0 {
        var key := WipKey(a.product, a.station);
        var cost := PerUnitCost(TakeCost(p.st.plant.wip, key, plan.advance, 0), plan.advance);
        var overtime := OvertimeUsed(p.st.plant.stations[i], plan.advance, At(s.overtime, a.station)) > 0;
        var taken := s.(p := TakeWip(p, key, plan.advance));
        BookingKeepsStaff(taken, i, plan);
        var booked := BookAdvance(taken, i, plan);
        MoveUnitsFrame(env, booked.p, key, plan.advance, cost, overtime);
        StaffFollows(stations, p.st.plant.stations, booked.p.st.plant.stations);
      }
    }
  }

  lemma {:induction false} AllAdvancesKeepStaff(env: Env, s: Producing, cap: int, allocations: seq<CapacityAllocation>)
    ensures SameStaff(s.p.st.plant.stations, AdvanceAll(env, s, cap, allocations).p.st.plant.stations)
    decreases |allocations|
  {
    hide Advance, SameStaff;
    if |allocations| > 0 {
      var t := Advance(env, s, cap, allocations[0]);
      AdvancingKeepsStaff(env, s, cap, allocations[0]);
      AllAdvancesKeepStaff(env, t, cap, allocations[1..]);
      StaffFollows(s.p.st.plant.stations, t.p.st.plant.stations, AdvanceAll(env, t, cap, allocations[1..]).p.st.plant.stations);
    } else {
      SameStations(s.p.st.plant.stations);
    }
  }

  lemma ProductionKeepsStaff(env: Env, p: Phase, action: Option<ActionSubmission>)
    ensures SameStaff(p.st.plant.stations, ResolveProduction(env, p, action).st.plant.stations)
  {
    hide ReleaseAll, AdvanceAll, RequestOvertime, ProjectCashDelta, SameStaff;
    SameStations(p.st.plant.stations);
    if action.Some? && action.value.action.production.Some? && |p.st.plant.stations| > 0 {
      var todo, first := action.value.action.production.value, p.st.plant.stations[0].id;
      ReleaseAllFrame(env, p, first, todo.releases);
      var released := ReleaseAll(env, p, first, todo.releases);
      AllAdvancesKeepStaff(env, Producing(released, RequestOvertime(map[], todo.overtime), 0),
                           CappedBudget(released.st.targets.productionSpendBudget), todo.allocations);
    }
  }

  // ---------------------------------------------------------------- workstations without work

  ghost predicate Allocates(allocations: seq<CapacityAllocation>, id: WorkstationID) {
    exists a :: a in allocations && a.station == id && a.capacity > 0
  }

  /** A workstation nobody allocates capacity to, or one hidden behind another with its identifier. */
  ghost predicate Rests(stations: seq<Workstation>, allocations: seq<CapacityAllocation>, i: nat)
    requires i < |stations|
  {
    StationIndex(stations, stations[i].id) == i ==> !Allocates(allocations, stations[i].id)
  }

  lemma OtherStationsRest(env: Env, s: Producing, cap: int, a: CapacityAllocation, i: nat)
    requires i < |s.p.st.plant.stations|
    requires a.capacity <= 0 || StationIndex(s.p.st.plant.stations, a.station) != i
    ensures var after := Advance(env, s, cap, a).p.st.plant.stations;
            |after| == |s.p.st.plant.stations| && after[i] == s.p.st.plant.stations[i]
  {
    hide PlanAdvance, MoveUnits, Take, TakeCost, OvertimeUsed, StressedCapacity, ConsumeLabor;
    var k, stations := StationIndex(s.p.st.plant.stations, a.station), s.p.st.plant.stations;
    if a.capacity > 0 && k < |stations| {
      var p := MeasureStress(s.p, k);
      var plan := PlanAdvance(env, p, k, At(s.overtime, a.station), cap, s.spent, a);
      if plan.advance > 0 {
        var key := WipKey(a.product, a.station);
        var cost := PerUnitCost(TakeCost(p.st.plant.wip, key, plan.advance, 0), plan.advance);
        var overtime := OvertimeUsed(p.st.plant.stations[k], plan.advance, At(s.overtime, a.station)) > 0;
        MoveUnitsFrame(env, BookAdvance(s.(p := TakeWip(p, key, plan.advance)), k, plan).p, key, plan.advance, cost, overtime);
      }
    }
  }

  lemma StaffIndex(a: seq<Workstation>, b: seq<Workstation>, id: WorkstationID)
    requires SameStaff(a, b)
    ensures StationIndex(a, id) == StationIndex(b, id)
  {
    assert forall i | 0 <= i < |a| :: a[i].id == b[i].id;
  }

  lemma {:induction false} RestingStations(env: Env, s: Producing, cap: int, allocations: seq<CapacityAllocation>, i: nat)
    requires i < |s.p.st.plant.stations| && Rests(s.p.st.plant.stations, allocations, i)
    ensures var after := AdvanceAll(env, s, cap, allocations).p.st.plant.stations;
            |after| == |s.p.st.plant.stations| && after[i] == s.p.st.plant.stations[i]
    decreases |allocations|
  {
    hide Advance, SameStaff;
    if |allocations| > 0 {
      var a, stations := allocations[0], s.p.st.plant.stations;
      assert a in allocations && forall x | x in allocations[1..] :: x in allocations;
      OtherStationsRest(env, s, cap, a, i);
      AdvancingKeepsStaff(env, s, cap, a);
      StaffIndex(stations, Advance(env, s, cap, a).p.st.plant.stations, stations[i].id);
      RestingStations(env, Advance(env, s, cap, a), cap, allocations[1..], i);
    }
  }

  function AllocationsOf(action: Option<ActionSubmission>): seq<CapacityAllocation> {
    if action.Some? && action.value.action.production.Some? then action.value.action.production.value.allocations else []
  }

  lemma ProductionLetsRest(env: Env, p: Phase, action: Option<ActionSubmission>, i: nat)
    requires i < |p.st.plant.stations| && Rests(p.st.plant.stations, AllocationsOf(action), i)
    ensures var after := ResolveProduction(env, p, action).st.plant.stations;
            |after| == |p.st.plant.stations| && after[i] == p.st.plant.stations[i]
  {
    hide ReleaseAll, AdvanceAll, RequestOvertime, ProjectCashDelta, Rests;
    if action.Some? && action.value.action.production.Some? {
      var todo, first := action.value.action.production.value, p.st.plant.stations[0].id;
      ReleaseAllFrame(env, p, first, todo.releases);
      var released := ReleaseAll(env, p, first, todo.releases);
      RestingStations(env, Producing(released, RequestOvertime(map[], todo.overtime), 0),
                      CappedBudget(released.st.targets.productionSpendBudget), todo.allocations, i);
    }
  }

  // ---------------------------------------------------------------- sums over the workstations

  lemma CutOffProduct(a: int, b: int)
    ensures Max(a, 0) * Max(b, 0) == if a > 0 && b > 0 then a * b else 0
  {
  }

  lemma {:induction false} WagesAre(stations: seq<Workstation>)
    ensures Sum(StationLaborCost(), stations) == Sum(Wages(), stations)
    ensures Sum(StationOvertimeCost(), stations) == Sum(OvertimeWages(), stations)
  {
    if |stations| > 0 {
      var w := stations[0];
      CutOffProduct(if w.labor > 0 then w.labor else w.capacity, w.laborCost);
      CutOffProduct(w.overtimeUsed, w.overtimeCost);
      WagesAre(stations[1..]);
    }
  }

  lemma {:induction false} IdleOrUsed(stations: seq<Workstation>)
    requires forall w | w in stations :: Labor.Ledger(w)
    ensures Sum(StationIdle(), stations) + Sum(HoursUsed(), stations) == Sum(Hours(), stations)
  {
    if |stations| > 0 {
      assert Labor.Ledger(stations[0]) && forall w | w in stations[1..] :: w in stations;
      IdleOrUsed(stations[1..]);
    }
  }

  lemma {:induction false} SameWages(a: seq<Workstation>, b: seq<Workstation>)
    requires SameStaff(a, b)
    ensures Sum(Wages(), a) == Sum(Wages(), b) && Sum(Hours(), a) == Sum(Hours(), b)
  {
    if |a| > 0 {
      SameWages(a[1..], b[1..]);
    }
  }

  // ---------------------------------------------------------------- the round

  /** The commitment that stands for an unpaid expense. */
  ghost predicate Owed(record: RoundRecord, plant: Plant, kind: CommitmentKind, amount: int, due: int) {
    exists item :: && Scheduled(item) in record.events && item in plant.payables
                   && item.kind == kind && item.amount == amount && item.due == due
  }

  lemma LaborIsBooked(env: Env, p: Phase, action: Option<ActionSubmission>)
    ensures var q, stations := Finalize(env, p, action), p.st.plant.stations;
            && q.st.plant.stations == stations
            && q.stats.laborCost == Sum(Wages(), stations)
            && q.stats.overtimeCost == Sum(OvertimeWages(), stations)
            && q.stats.payrollExpense == q.stats.laborCost + q.stats.overtimeCost
            && q.stats.idleLaborUnits == Sum(StationIdle(), stations)
            && (q.stats.payrollExpense > 0 && env.cfg.payrollDelay != 0 ==>
                  exists item :: && Scheduled(item) in q.events && item in q.st.plant.payables && item.kind.Payroll?
                                 && item.amount == q.stats.payrollExpense && item.due == env.round + env.cfg.payrollDelay)
  {
    hide AgeBacklog, CollectReceivablesDue, PayPayablesDue, Sum, HoldingCost, CarryingCost, ProjectCashDelta;
    FinalizeLeavesStations(env, p, action);
    AgingFrame(env, p);
    var p2 := AdoptTargets(env, AgeBacklog(env, p), action);
    CollectFrame(env, p2);
    var p3 := CollectReceivablesDue(env, p2);
    PayFrame(env, p3);
    var p4 := PayPayablesDue(env, p3);
    var stations := p.st.plant.stations;
    assert p4.st.plant.stations == stations;
    WagesAre(stations);
    var total := Sum(StationLaborCost(), stations) + Sum(StationOvertimeCost(), stations);
    if total > 0 && env.cfg.payrollDelay != 0 {
      var item := NewCommitment(Payroll, env.round, |p4.st.plant.payables|, total, env.cfg.payrollDelay);
      var q := Finalize(env, p, action);
      assert q.events == p4.events + [Scheduled(item)];
      assert q.st.plant.payables == p4.st.plant.payables + [item];
      assert Scheduled(item) in q.events && item in q.st.plant.payables;
    }
  }

  /**
   Every round: the plant owes wages for all the labour its workstations employ, whatever they worked on, and overtime
   wages for the overtime they worked; payroll is the two together, scheduled where it is not paid at once; and idle
   hours are those that were not used.
   */
  lemma PayrollOfRound(cfg: Config, random: Random, drawn: nat, st: MatchState, actions: seq<ActionSubmission>, r: RoundResult)
    requires OrderlyWorld(cfg) && Resolved(cfg, random, drawn, st, actions, r)
    ensures r.record.metrics.Some?
    ensures var m, stations := r.record.metrics.value, r.next.plant.stations;
            && SameStaff(st.plant.stations, stations)
            && m.laborCost == Sum(Wages(), stations) == Sum(Wages(), st.plant.stations)
            && m.overtimeCost == Sum(OvertimeWages(), stations)
            && m.payrollExpense == m.laborCost + m.overtimeCost
            && m.idleLaborUnits + Sum(HoursUsed(), stations) == Sum(Hours(), st.plant.stations)
            && (m.payrollExpense > 0 && cfg.payrollDelay != 0 ==>
                  Owed(r.record, r.next.plant, Payroll, m.payrollExpense, st.currentRound + cfg.payrollDelay))
  {
    hide BeforeProduction, ResolveProduction, ResolveSales, Finalize, NormalizeActions, ResetCapacity, Sum, SameStaff, Labor.Ledger;
    FinalState(cfg, random, drawn, st, actions, r);
    ProductionWithinBudget(cfg, random, drawn, st, actions, r);
    var env, ordered := EnvOf(cfg, random, st), NormalizeActions(st, actions).value;
    var begin := Begin(st, drawn);
    BeforeProductionLeavesStations(env, begin, ordered);
    var p1 := BeforeProduction(env, begin, ordered);
    var action := ActionFor(ordered, ProductionManager);
    ProductionKeepsStaff(env, p1, action);
    SalesLeaveStations(env, ResolveProduction(env, p1, action), ActionFor(ordered, SalesManager));
    var p3 := BeforeWorld(env, begin, ordered);
    if cfg.world.Some? {
      assert OrderlyEffect(p3.st, cfg.world.value(p3.st, ordered, p3.drawn).value);
    }
    var p4 := ApplyWorld(env, p3, ordered).value;
    LaborIsBooked(env, p4, ActionFor(ordered, FinanceController));
    OpeningStaff(st);
    StaffFollows(st.plant.stations, begin.st.plant.stations, r.next.plant.stations);
    SameWages(st.plant.stations, r.next.plant.stations);
    IdleOrUsed(r.next.plant.stations);
  }

  lemma OpeningStaff(st: MatchState)
    ensures SameStaff(st.plant.stations, ResetCapacity(st.plant.stations))
  {
  }

  /** Each round starts afresh: a workstation without work has its full capacity, no loss, and nothing used of anything. */
  lemma RestOfRound(cfg: Config, random: Random, drawn: nat, st: MatchState, actions: seq<ActionSubmission>, r: RoundResult, i: nat)
    requires OrderlyWorld(cfg) && Resolved(cfg, random, drawn, st, actions, r) && i < |st.plant.stations|
    requires forall a | a in actions && a.role.ProductionManager? && a.action.production.Some? ::
               Rests(st.plant.stations, a.action.production.value.allocations, i)
    ensures |r.next.plant.stations| == |st.plant.stations|
    ensures var w := st.plant.stations[i];
            r.next.plant.stations[i] == w.(effective := w.capacity, stressLoss := 0, laborUsed := 0, overtimeUsed := 0, capacityUsed := 0)
  {
    hide BeforeProduction, ResolveProduction, ResolveSales, Finalize, NormalizeActions, ComputeMetrics, Rests, Rank, StationIndex;
    FinalState(cfg, random, drawn, st, actions, r);
    NormalizeIsCanonical(st, actions);
    var env, ordered := EnvOf(cfg, random, st), NormalizeActions(st, actions).value;
    var begin, action := Begin(st, drawn), ActionFor(ordered, ProductionManager);
    FirstActs(ordered, ProductionManager);
    BeforeProductionLeavesStations(env, begin, ordered);
    var p1 := BeforeProduction(env, begin, ordered);
    RestsAtOpening(st, AllocationsOf(action), i);
    ProductionLetsRest(env, p1, action, i);
    SalesLeaveStations(env, ResolveProduction(env, p1, action), ActionFor(ordered, SalesManager));
    var p3 := BeforeWorld(env, begin, ordered);
    if cfg.world.Some? {
      assert OrderlyEffect(p3.st, cfg.world.value(p3.st, ordered, p3.drawn).value);
    }
    LaborIsBooked(env, ApplyWorld(env, p3, ordered).value, ActionFor(ordered, FinanceController));
  }

  lemma {:induction false} FirstActs(actions: seq<ActionSubmission>, role: RoleID)
    ensures var a := ActionFor(actions, role); a.Some? ==> a.value in actions && a.value.role == role
  {
    if |actions| > 0 && actions[0].role != role {
      FirstActs(actions[1..], role);
    }
  }

  lemma RestsAtOpening(st: MatchState, allocations: seq<CapacityAllocation>, i: nat)
    requires i < |st.plant.stations|
    ensures Rests(st.plant.stations, allocations, i) || allocations == [] ==> Rests(Opened(st).plant.stations, allocations, i)
    ensures Opened(st).plant.stations[i] == Reset(st.plant.stations[i])
  {
    OpeningStaff(st);
    StaffIndex(st.plant.stations, Opened(st).plant.stations, st.plant.stations[i].id);
  }
}
