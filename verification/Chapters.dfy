/** The log of a round, chapter by chapter: each phase logs events of its own kinds, in the order of the phases. */
module Chapters {
  import opened Seqs
  import opened Domain
  import opened Cash
  import opened Inventory
  import opened Labor
  import opened Quality
  import opened Phases
  import opened Actions
  import opened Resolver
  import opened Accounting
  import opened SupplyFate

  datatype Chapter = Buying | Supply | Inspection | Returning | Producing | Selling | World | Aging | Collecting | Paying | Wages

  /** The kinds of events a chapter may hold. The world update of a configuration may log anything. */
  predicate Belongs(chapter: Chapter, e: Event) {
    match chapter
    case Buying => e.PurchaseOrderPlaced? || (e.Scheduled? && e.commitment.kind.Payable?)
    case Supply => e.SupplyDelayed? || e.SupplyArrived?
    case Inspection => e.HoldReleased?
    case Returning => (e.HoldPlaced? && e.origin.None?) || e.ReturnReceived? || e.BacklogCreated?
    case Producing =>
      || e.ProductionReleased? || e.OvertimeApplied? || e.WorkAdvanced? || e.AdvanceIgnored?
      || e.Scrapped? || e.ReworkCreated? || e.FinishedProduced? || (e.HoldPlaced? && e.origin.Some?)
    case Selling => e.Shipped? || e.ReturnScheduled? || (e.Scheduled? && e.commitment.kind.Receivable?)
    case World => true
    case Aging => e.BacklogExpired?
    case Collecting => e.Collected?
    case Paying => e.Paid?
    case Wages => e.Scheduled? && e.commitment.kind.Payroll?
  }

  /** What happened between two phase states belongs to one chapter. */
  ghost predicate Writes(p: Phase, q: Phase, chapter: Chapter) {
    p.events <= q.events && forall e | e in q.events[|p.events|..] :: Belongs(chapter, e)
  }

  lemma WritesOn(p: Phase, q: Phase, r: Phase, chapter: Chapter)
    requires Writes(p, q, chapter) && Writes(q, r, chapter)
    ensures Writes(p, r, chapter)
  {
    var a, b := q.events[|p.events|..], r.events[|q.events|..];
    assert r.events == p.events + a + b;
    assert r.events[|p.events|..] == a + b;
  }

  lemma WritesMore(p: Phase, q: Phase, more: seq<Event>, chapter: Chapter)
    requires q.events == p.events + more && forall e | e in more :: Belongs(chapter, e)
    ensures Writes(p, q, chapter)
  {
    assert q.events[|p.events|..] == more;
  }

  // ---------------------------------------------------------------- phase by phase

  lemma {:induction false} OrdersWrite(env: Env, b: Buying, cap: int, action: ActionID, line: nat, orders: seq<PurchaseOrderIntent>)
    ensures Writes(b.p, PlaceOrders(env, b, cap, action, line, orders).p, Chapter.Buying)
    decreases |orders|
  {
    hide AllowedOrder, CountOrder, ProjectedSpendCapacity, Writes;
    WritesMore(b.p, b.p, [], Chapter.Buying);
    if |orders| > 0 {
      var c := PlaceOrder(env, b, cap, action, line, orders[0]);
      if c != b {
        var t := NormalizedTerms(env.cfg.terms(b.p.st, env.round, orders[0]));
        var allowed := AllowedOrder(t, orders[0].quantity, cap, b.spent, ProjectedSpendCapacity(b.p.st.plant));
        WritesMore(b.p, c.p, [PurchaseOrderPlaced(NewLot(env, action, line, orders[0], t, allowed))], Chapter.Buying);
      }
      OrdersWrite(env, c, cap, action, line + 1, orders[1..]);
      WritesOn(b.p, c.p, PlaceOrders(env, c, cap, action, line + 1, orders[1..]).p, Chapter.Buying);
    }
  }

  lemma ProcurementWrites(env: Env, p: Phase, action: Option<ActionSubmission>)
    ensures Writes(p, ResolveProcurement(env, p, action), Chapter.Buying)
  {
    hide PlaceOrders, ProjectCashDelta, Writes;
    WritesMore(p, p, [], Chapter.Buying);
    if action.Some? && action.value.action.procurement.Some? {
      var cap := CappedBudget(p.st.targets.procurementBudget);
      OrdersWrite(env, Phases.Buying(p, 0), cap, action.value.id, 1, action.value.action.procurement.value);
      var b := PlaceOrders(env, Phases.Buying(p, 0), cap, action.value.id, 1, action.value.action.procurement.value);
      var q := ResolveProcurement(env, p, action);
      if q.events != b.p.events {
        WritesMore(b.p, q, [Scheduled(NewCommitment(Payable, env.round, |b.p.st.plant.payables|, b.spent, env.cfg.payableDelay))], Chapter.Buying);
      } else {
        WritesMore(b.p, q, [], Chapter.Buying);
      }
      WritesOn(p, b.p, q, Chapter.Buying);
    }
  }

  lemma {:induction false} DelaysBelong(env: Env, suppliers: seq<Supplier>, lots: seq<SupplyLot>, drawn: nat, k: nat)
    requires k <= |lots|
    ensures forall e | e in Delayed(env, suppliers, lots, drawn, k) :: Belongs(Chapter.Supply, e)
    decreases k
  {
    hide Late, LateLot;
    if k > 0 {
      DelaysBelong(env, suppliers, lots, drawn, k - 1);
    }
  }

  lemma SupplyWrites(env: Env, p: Phase)
    ensures Writes(p, ReceiveSupply(env, p), Chapter.Supply)
  {
    hide ReceiveSupply, Delayed, Coming, Staying, Drawers, Writes;
    FateOfSupply(env, p);
    var lots := p.st.plant.inTransit;
    DelaysBelong(env, p.st.suppliers, lots, p.drawn, |lots|);
    var delays := Delayed(env, p.st.suppliers, lots, p.drawn, |lots|);
    var came := Arrived(Coming(env, p.st.suppliers, lots, p.drawn, |lots|));
    assert p.events + delays + came == p.events + (delays + came);
    WritesMore(p, ReceiveSupply(env, p), delays + came, Chapter.Supply);
  }

  lemma {:induction false} ReleasesWrite(p: Phase, holds: seq<InspectionHold>)
    ensures Writes(p, ReleaseHolds(p, holds), Inspection)
    decreases |holds|
  {
    hide Add, Writes;
    WritesMore(p, p, [], Inspection);
    if |holds| > 0 {
      WritesMore(p, ReleaseHold(p, holds[0]), [HoldReleased(holds[0])], Inspection);
      ReleasesWrite(ReleaseHold(p, holds[0]), holds[1..]);
      WritesOn(p, ReleaseHold(p, holds[0]), ReleaseHolds(ReleaseHold(p, holds[0]), holds[1..]), Inspection);
    }
  }

  lemma HoldsWrite(env: Env, p: Phase)
    ensures Writes(p, ReleaseInspectionHolds(env, p), Inspection)
  {
    hide ReleaseHolds, Filter;
    ReleasesWrite(p, Filter(ReleasedBy(env.round), p.st.plant.holds));
  }

  lemma AcceptingWrites(env: Env, p: Phase, item: CustomerReturn)
    ensures Writes(p, AcceptReturn(env, p, item), Returning)
  {
    hide AddHold, Disappoint, Writes;
    WritesMore(p, AcceptReturn(env, p, item),
               [HoldPlaced(item.product, item.qty, env.round + 1, None), ReturnReceived(item),
                BacklogCreated(item.customer, item.product, item.qty)], Returning);
  }

  lemma {:induction false} AcceptedWrite(env: Env, p: Phase, items: seq<CustomerReturn>)
    ensures Writes(p, AcceptReturns(env, p, items), Returning)
    decreases |items|
  {
    hide AcceptReturn, Writes;
    WritesMore(p, p, [], Returning);
    if |items| > 0 {
      var q := AcceptReturn(env, p, items[0]);
      AcceptingWrites(env, p, items[0]);
      AcceptedWrite(env, q, items[1..]);
      WritesOn(p, q, AcceptReturns(env, q, items[1..]), Returning);
    }
  }

  lemma ReturnsWrite(env: Env, p: Phase)
    ensures Writes(p, ProcessCustomerReturns(env, p), Returning)
  {
    hide AcceptReturns, Filter, SyncCustomers;
    var items := p.st.plant.pendingReturns;
    AcceptedWrite(env, p.WithPlant(p.st.plant.(pendingReturns := Filter(DueAfter(env.round), items))),
                  Filter(DueBy(env.round), items));
  }

  lemma {:induction false} StartingWrites(env: Env, p: Phase, first: WorkstationID, releases: seq<ProductionRelease>)
    ensures Writes(p, ReleaseAll(env, p, first, releases), Chapter.Producing)
    decreases |releases|
  {
    hide Consume, Add, AcceptedRelease, Writes;
    WritesMore(p, p, [], Chapter.Producing);
    if |releases| > 0 {
      var q := ReleaseOne(env, p, first, releases[0]);
      var bom := env.cfg.bom(p.st, env.round, releases[0].product).parts;
      if q != p {
        WritesMore(p, q, [ProductionReleased(releases[0].product, AcceptedRelease(p.st.plant.parts, bom, releases[0].quantity),
                                             bom, first)], Chapter.Producing);
      }
      StartingWrites(env, q, first, releases[1..]);
      WritesOn(p, q, ReleaseAll(env, q, first, releases[1..]), Chapter.Producing);
    }
  }

  lemma OneWrites(p: Phase, q: Phase, e: Event, chapter: Chapter)
    requires q.events == p.events || q.events == p.events + [e]
    requires Belongs(chapter, e)
    ensures Writes(p, q, chapter)
  {
    hide Belongs;
    if q.events == p.events {
      WritesMore(p, q, [], chapter);
    } else {
      WritesMore(p, q, [e], chapter);
    }
  }

  lemma CompletingWrites(env: Env, p: Phase, key: WipKey, qty: int, cost: int, overtime: bool)
    ensures Writes(p, CompleteUnits(env, p, key, qty, cost, overtime), Chapter.Producing)
  {
    hide ScrapUnits, ReworkUnits, HoldUnits, StockUnits, FinishedSplit, Normalized, Writes;
    WritesMore(p, p, [], Chapter.Producing);
    if qty > 0 {
      var ctx := FinalInspection(key.product, key.station, qty, key.station in p.stressed, overtime);
      var profile := Normalized(env.cfg.quality(p.st, env.round, ctx));
      var split := FinishedSplit(qty, profile, env.random, p.drawn);
      var p0 := p.(drawn := Drawn(env.random, p.drawn, qty));
      WritesMore(p, p0, [], Chapter.Producing);
      var p1 := ScrapUnits(p0, key, split.scrap);
      var p2 := ReworkUnits(p1, key, split.rework, cost);
      var release := env.round + Max(profile.holdRounds, 1);
      var p3 := HoldUnits(p2, key, split.hold, cost, env.round, release);
      var p4 := StockUnits(p3, key, split.Good(qty), cost);
      LossesWrite(p0, key, split.scrap, split.rework, cost);
      YieldWrites(p2, key, split.hold, split.Good(qty), cost, env.round, release);
      WritesOn(p, p0, p2, Chapter.Producing);
      WritesOn(p, p2, p4, Chapter.Producing);
    }
  }

  lemma LossesWrite(p: Phase, key: WipKey, scrap: int, rework: int, cost: int)
    ensures Writes(p, ReworkUnits(ScrapUnits(p, key, scrap), key, rework, cost), Chapter.Producing)
  {
    hide Add, Writes;
    var q := ScrapUnits(p, key, scrap);
    OneWrites(p, q, Scrapped(key.product, scrap, key.station), Chapter.Producing);
    OneWrites(q, ReworkUnits(q, key, rework, cost), ReworkCreated(key.product, rework, key.station), Chapter.Producing);
    WritesOn(p, q, ReworkUnits(q, key, rework, cost), Chapter.Producing);
  }

  lemma YieldWrites(p: Phase, key: WipKey, held: int, good: int, cost: int, round: int, release: int)
    ensures Writes(p, StockUnits(HoldUnits(p, key, held, cost, round, release), key, good, cost), Chapter.Producing)
  {
    hide Add, AddHold, Writes;
    var q := HoldUnits(p, key, held, cost, round, release);
    OneWrites(p, q, HoldPlaced(key.product, held, release, Some(key.station)), Chapter.Producing);
    OneWrites(q, StockUnits(q, key, good, cost), FinishedProduced(key.product, good, key.station), Chapter.Producing);
    WritesOn(p, q, StockUnits(q, key, good, cost), Chapter.Producing);
  }

  lemma MovingWrites(env: Env, p: Phase, key: WipKey, qty: int, cost: int, overtime: bool)
    ensures Writes(p, MoveUnits(env, p, key, qty, cost, overtime), Chapter.Producing)
  {
    hide Add, CompleteUnits, Writes;
    var route, q := env.cfg.route(p.st, env.round, key.product, key.station), MoveUnits(env, p, key, qty, cost, overtime);
    if route.finished {
      CompletingWrites(env, p, key, qty, cost, overtime);
    } else if route.next == NO_STATION {
      OneWrites(p, q, AdvanceIgnored(key.product, qty, key.station), Chapter.Producing);
    } else {
      OneWrites(p, q, WorkAdvanced(key.product, qty, key.station, route.next), Chapter.Producing);
    }
  }

  lemma AdvancingWrites(env: Env, s: Phases.Producing, cap: int, a: CapacityAllocation)
    ensures Writes(s.p, Advance(env, s, cap, a).p, Chapter.Producing)
  {
    hide PlanAdvance, MoveUnits, Take, TakeCost, OvertimeUsed, StressedCapacity, ConsumeLabor, Writes;
    WritesMore(s.p, s.p, [], Chapter.Producing);
    var i := StationIndex(s.p.st.plant.stations, a.station);
    if a.capacity > 0 && i < |s.p.st.plant.stations| {
      var p := MeasureStress(s.p, i);
      WritesMore(s.p, p, [], Chapter.Producing);
      var left := At(s.overtime, a.station);
      var plan := PlanAdvance(env, p, i, left, cap, s.spent, a);
      if plan.advance > 0 {
        var key := WipKey(a.product, a.station);
        var cost := PerUnitCost(TakeCost(p.st.plant.wip, key, plan.advance, 0), plan.advance);
        var overtime := OvertimeUsed(p.st.plant.stations[i], plan.advance, left) > 0;
        var taken := s.(p := TakeWip(p, key, plan.advance));
        var booked := BookAdvance(taken, i, plan);
        var w := p.st.plant.stations[i];
        OneWrites(s.p, booked.p, OvertimeApplied(w.id, OvertimeUsed(w, plan.advance, At(s.overtime, w.id))), Chapter.Producing);
        MovingWrites(env, booked.p, key, plan.advance, cost, overtime);
        WritesOn(s.p, booked.p, MoveUnits(env, booked.p, key, plan.advance, cost, overtime), Chapter.Producing);
      }
    }
  }

  lemma {:induction false} AdvancesWrite(env: Env, s: Phases.Producing, cap: int, allocations: seq<CapacityAllocation>)
    ensures Writes(s.p, AdvanceAll(env, s, cap, allocations).p, Chapter.Producing)
    decreases |allocations|
  {
    hide Advance, Writes;
    WritesMore(s.p, s.p, [], Chapter.Producing);
    if |allocations| > 0 {
      var t := Advance(env, s, cap, allocations[0]);
      AdvancingWrites(env, s, cap, allocations[0]);
      AdvancesWrite(env, t, cap, allocations[1..]);
      WritesOn(s.p, t.p, AdvanceAll(env, t, cap, allocations[1..]).p, Chapter.Producing);
    }
  }

  lemma ProductionWrites(env: Env, p: Phase, action: Option<ActionSubmission>)
    ensures Writes(p, ResolveProduction(env, p, action), Chapter.Producing)
  {
    hide ReleaseAll, AdvanceAll, RequestOvertime, ProjectCashDelta, Writes;
    WritesMore(p, p, [], Chapter.Producing);
    if action.Some? && action.value.action.production.Some? && |p.st.plant.stations| > 0 {
      var todo, first := action.value.action.production.value, p.st.plant.stations[0].id;
      var released := ReleaseAll(env, p, first, todo.releases);
      StartingWrites(env, p, first, todo.releases);
      var s := Phases.Producing(released, RequestOvertime(map[], todo.overtime), 0);
      var cap := CappedBudget(released.st.targets.productionSpendBudget);
      AdvancesWrite(env, s, cap, todo.allocations);
      var t := AdvanceAll(env, s, cap, todo.allocations).p;
      WritesOn(p, released, t, Chapter.Producing);
      WritesMore(t, ResolveProduction(env, p, action), [], Chapter.Producing);
      WritesOn(p, t, ResolveProduction(env, p, action), Chapter.Producing);
    }
  }

  lemma SaleWrites(env: Env, s: Phases.Selling, prices: map<ProductID, int>, entry: BacklogEntry)
    ensures Writes(s.p, ShipEntry(env, s, prices, entry).p, Chapter.Selling)
  {
    hide QtyOf, CostOf, PaymentDelay, Price, Take, Writes, ScheduleReceivable, ScheduleReturns;
    WritesMore(s.p, s.p, [], Chapter.Selling);
    var finished := s.p.st.plant.finished;
    var qty, price := Min(entry.qty, QtyOf(finished, entry.product)), Price(prices, entry.product);
    if qty > 0 {
      var sold := Ship(s.p, entry, qty, price);
      var delay := PaymentDelay(env, sold.st.customers, entry.customer);
      var due := ScheduleReceivable(env, sold, qty * price, delay);
      ReceivableWrites(env, sold, qty * price, delay);
      WritesMore(s.p, sold, [], Chapter.Selling);
      WritesOn(s.p, sold, due, Chapter.Selling);
      var logged := due.Log(Shipped(entry.customer, entry.product, qty, price));
      WritesMore(due, logged, [Shipped(entry.customer, entry.product, qty, price)], Chapter.Selling);
      WritesOn(s.p, due, logged, Chapter.Selling);
      PromiseWrites(env, logged, entry.customer, entry.product, qty, CostOf(finished, entry.product));
      WritesOn(s.p, logged, ScheduleReturns(env, logged, entry.customer, entry.product, qty, CostOf(finished, entry.product)), Chapter.Selling);
    }
  }

  lemma ReceivableWrites(env: Env, p: Phase, amount: int, delay: int)
    ensures Writes(p, ScheduleReceivable(env, p, amount, delay), Chapter.Selling)
  {
    hide ProjectCashDelta, Writes;
    OneWrites(p, ScheduleReceivable(env, p, amount, delay),
              Scheduled(NewCommitment(Receivable, env.round, |p.st.plant.receivables|, amount, delay)), Chapter.Selling);
  }

  lemma PromiseWrites(env: Env, p: Phase, customer: CustomerID, product: ProductID, qty: int, cost: int)
    ensures Writes(p, ScheduleReturns(env, p, customer, product, qty, cost), Chapter.Selling)
  {
    hide ReturnQuantity, DrawnForReturns, Normalized, Writes;
    var q := ScheduleReturns(env, p, customer, product, qty, cost);
    if q.events == p.events {
      WritesMore(p, q, [], Chapter.Selling);
    } else {
      assert q.events == p.events + [q.events[|p.events|]];
      WritesMore(p, q, [q.events[|p.events|]], Chapter.Selling);
    }
  }

  lemma {:induction false} AllSalesWrite(env: Env, s: Phases.Selling, prices: map<ProductID, int>, entries: seq<BacklogEntry>)
    ensures Writes(s.p, ShipAll(env, s, prices, entries).p, Chapter.Selling)
    decreases |entries|
  {
    hide ShipEntry, Writes;
    WritesMore(s.p, s.p, [], Chapter.Selling);
    if |entries| > 0 {
      var t := ShipEntry(env, s, prices, entries[0]);
      SaleWrites(env, s, prices, entries[0]);
      AllSalesWrite(env, t, prices, entries[1..]);
      WritesOn(s.p, t.p, ShipAll(env, t, prices, entries[1..]).p, Chapter.Selling);
    }
  }

  lemma SalesWrite(env: Env, p: Phase, action: Option<ActionSubmission>)
    ensures Writes(p, ResolveSales(env, p, action), Chapter.Selling)
  {
    hide ShipAll, SyncCustomers, EffectiveBacklog, SalesPrices;
    AllSalesWrite(env, Phases.Selling(p, [], []), SalesPrices(action), env.cfg.sort(EffectiveBacklog(p.st)));
    WritesMore(p, p, [], Chapter.Selling);
  }

  lemma {:induction false} AllAgingWrites(env: Env, a: Phases.Aging, entries: seq<BacklogEntry>)
    ensures Writes(a.p, AgeAll(env, a, entries).p, Chapter.Aging)
    decreases |entries|
  {
    hide Disappoint, Writes;
    WritesMore(a.p, a.p, [], Chapter.Aging);
    if |entries| > 0 {
      var b := AgeEntry(env, a, entries[0]);
      OneWrites(a.p, b.p, BacklogExpired(entries[0].customer, entries[0].product, entries[0].qty), Chapter.Aging);
      AllAgingWrites(env, b, entries[1..]);
      WritesOn(a.p, b.p, AgeAll(env, b, entries[1..]).p, Chapter.Aging);
    }
  }

  lemma {:induction false} SettlingWrites(p: Phase, items: seq<CashCommitment>)
    ensures Writes(p, CollectEach(p, items), Collecting) && Writes(p, PayEach(p, items), Paying)
    decreases |items|
  {
    hide ProjectCashDelta, Writes;
    WritesMore(p, p, [], Collecting);
    WritesMore(p, p, [], Paying);
    if |items| > 0 {
      var collected, paid := CollectOne(p, items[0]), PayOne(p, items[0]);
      WritesMore(p, collected, [Collected(items[0])], Collecting);
      WritesMore(p, paid, [Paid(items[0])], Paying);
      SettlingWrites(collected, items[1..]);
      SettlingWrites(paid, items[1..]);
      WritesOn(p, collected, CollectEach(collected, items[1..]), Collecting);
      WritesOn(p, paid, PayEach(paid, items[1..]), Paying);
    }
  }

  lemma ClosingWrites(env: Env, p: Phase, action: Option<ActionSubmission>)
    ensures var aged := AdoptTargets(env, AgeBacklog(env, p), action);
            var collected := CollectReceivablesDue(env, aged);
            var paid := PayPayablesDue(env, collected);
            && Writes(p, aged, Chapter.Aging) && Writes(aged, collected, Collecting) && Writes(collected, paid, Paying)
            && Writes(paid, Finalize(env, p, action), Wages)
  {
    hide AgeAll, CollectEach, PayEach, Filter, Sum, HoldingCost, CarryingCost, ProjectCashDelta, SyncCustomers, EffectiveBacklog, Writes;
    AllAgingWrites(env, Phases.Aging(p, []), EffectiveBacklog(p.st));
    var a := AgeAll(env, Phases.Aging(p, []), EffectiveBacklog(p.st));
    var aged := AdoptTargets(env, AgeBacklog(env, p), action);
    SameLog(p, a.p, aged, Chapter.Aging);
    var receivables := aged.st.plant.receivables;
    var open := aged.WithPlant(aged.st.plant.(receivables := Filter(Open(env.round), receivables)));
    SettlingWrites(open, Filter(Matured(env.round), receivables));
    var collected := CollectReceivablesDue(env, aged);
    SameLog(aged, CollectEach(open, Filter(Matured(env.round), receivables)), collected, Collecting) by {
      SameStart(open, aged, CollectEach(open, Filter(Matured(env.round), receivables)), Collecting);
    }
    var payables := collected.st.plant.payables;
    var left := collected.WithPlant(collected.st.plant.(payables := Filter(Open(env.round), payables)));
    SettlingWrites(left, Filter(Matured(env.round), payables));
    var paid := PayPayablesDue(env, collected);
    SameLog(collected, PayEach(left, Filter(Matured(env.round), payables)), paid, Paying) by {
      SameStart(left, collected, PayEach(left, Filter(Matured(env.round), payables)), Paying);
    }
    var stations := paid.st.plant.stations;
    var total := Sum(StationLaborCost(), stations) + Sum(StationOvertimeCost(), stations);
    OneWrites(paid, Finalize(env, p, action),
              Scheduled(NewCommitment(Payroll, env.round, |paid.st.plant.payables|, total, env.cfg.payrollDelay)), Wages);
  }

  lemma SameLog(p: Phase, q: Phase, r: Phase, chapter: Chapter)
    requires Writes(p, q, chapter) && r.events == q.events
    ensures Writes(p, r, chapter)
  {
  }

  lemma SameStart(p: Phase, q: Phase, r: Phase, chapter: Chapter)
    requires Writes(p, r, chapter) && q.events == p.events
    ensures Writes(q, r, chapter)
  {
  }

  // ---------------------------------------------------------------- the round

  /** The log of a round in its chapters. */
  datatype Story = Story(buying: seq<Event>, supply: seq<Event>, inspection: seq<Event>, returning: seq<Event>,
                         producing: seq<Event>, selling: seq<Event>, world: seq<Event>, aging: seq<Event>,
                         collecting: seq<Event>, paying: seq<Event>, wages: seq<Event>)
  {
    function Opening(): seq<Event> { buying + supply + inspection + returning + producing + selling }

    function All(): seq<Event> { Opening() + world + aging + collecting + paying + wages }
  }

  ghost predicate InChapter(events: seq<Event>, chapter: Chapter) { forall e | e in events :: Belongs(chapter, e) }

  ghost predicate InOrder(s: Story) {
    && InChapter(s.buying, Chapter.Buying) && InChapter(s.supply, Chapter.Supply) && InChapter(s.inspection, Inspection)
    && InChapter(s.returning, Returning) && InChapter(s.producing, Chapter.Producing) && InChapter(s.selling, Chapter.Selling)
    && InChapter(s.aging, Chapter.Aging) && InChapter(s.collecting, Collecting) && InChapter(s.paying, Paying)
    && InChapter(s.wages, Wages)
  }

  function Since(p: Phase, q: Phase): seq<Event>
    requires |p.events| <= |q.events|
  {
    q.events[|p.events|..]
  }

  lemma OpeningChapters(env: Env, p: Phase, actions: seq<ActionSubmission>) returns (s: Story)
    requires p.events == []
    ensures InOrder(s) && s.Opening() == BeforeWorld(env, p, actions).events
    ensures s.world == s.aging == s.collecting == s.paying == s.wages == []
  {
    hide ResolveProcurement, ReceiveSupply, ReleaseInspectionHolds, ProcessCustomerReturns, ResolveProduction, ResolveSales, Belongs;
    var p1 := ResolveProcurement(env, p, ActionFor(actions, ProcurementManager));
    ProcurementWrites(env, p, ActionFor(actions, ProcurementManager));
    var p2 := ReceiveSupply(env, p1);
    SupplyWrites(env, p1);
    var p3 := ReleaseInspectionHolds(env, p2);
    HoldsWrite(env, p2);
    var p4 := ProcessCustomerReturns(env, p3);
    ReturnsWrite(env, p3);
    var p5 := ResolveProduction(env, p4, ActionFor(actions, ProductionManager));
    ProductionWrites(env, p4, ActionFor(actions, ProductionManager));
    var p6 := ResolveSales(env, p5, ActionFor(actions, SalesManager));
    SalesWrite(env, p5, ActionFor(actions, SalesManager));
    s := Story(Since(p, p1), Since(p1, p2), Since(p2, p3), Since(p3, p4), Since(p4, p5), Since(p5, p6), [], [], [], [], []);
    assert p6.events == s.Opening();
  }

  /** What the end of the round is made of. */
  lemma ClosingChapters(env: Env, p: Phase, action: Option<ActionSubmission>) returns (s: Story)
    ensures InOrder(s) && s.Opening() == [] && s.world == []
    ensures Finalize(env, p, action).events == p.events + s.aging + s.collecting + s.paying + s.wages
  {
    hide AgeBacklog, CollectReceivablesDue, PayPayablesDue, AdoptTargets, ApplyLaborCosts, ApplyOperatingCosts, Belongs;
    ClosingWrites(env, p, action);
    var aged := AdoptTargets(env, AgeBacklog(env, p), action);
    var collected := CollectReceivablesDue(env, aged);
    var paid := PayPayablesDue(env, collected);
    var q := Finalize(env, p, action);
    s := Story([], [], [], [], [], [], [], Since(p, aged), Since(aged, collected), Since(collected, paid), Since(paid, q));
    assert q.events == p.events + s.aging + s.collecting + s.paying + s.wages;
  }

  /** What the world update of a configuration did: it saw the accepted actions and logged these events. */
  ghost predicate WorldDid(cfg: Config, actions: seq<ActionSubmission>, events: seq<Event>, drawn: nat) {
    if cfg.world.None? then events == []
    else exists st: MatchState, n: nat ::
           && cfg.world.value(st, actions, n).Ok?
           && cfg.world.value(st, actions, n).value.events == events && cfg.world.value(st, actions, n).value.drawn == drawn
  }

  lemma WorldLogs(env: Env, p: Phase, actions: seq<ActionSubmission>)
    requires ApplyWorld(env, p, actions).Ok?
    ensures var q := ApplyWorld(env, p, actions).value;
            p.events <= q.events && WorldDid(env.cfg, actions, q.events[|p.events|..], q.drawn)
  {
    if env.cfg.world.Some? {
      var effect := env.cfg.world.value(p.st, actions, p.drawn).value;
      assert (p.events + effect.events)[|p.events|..] == effect.events;
    }
  }

  lemma ClosingDrawsNothing(env: Env, p: Phase, action: Option<ActionSubmission>)
    ensures Finalize(env, p, action).drawn == p.drawn
  {
    hide AgeAll, CollectEach, PayEach, Filter, Sum, HoldingCost, CarryingCost, ProjectCashDelta, SyncCustomers, EffectiveBacklog;
    AgingDrawsNothing(env, Phases.Aging(p, []), EffectiveBacklog(p.st));
    var aged := AdoptTargets(env, AgeBacklog(env, p), action);
    var receivables := aged.st.plant.receivables;
    SettlingDrawsNothing(aged.WithPlant(aged.st.plant.(receivables := Filter(Open(env.round), receivables))),
                         Filter(Matured(env.round), receivables));
    var collected := CollectReceivablesDue(env, aged);
    var payables := collected.st.plant.payables;
    SettlingDrawsNothing(collected.WithPlant(collected.st.plant.(payables := Filter(Open(env.round), payables))),
                         Filter(Matured(env.round), payables));
  }

  lemma {:induction false} AgingDrawsNothing(env: Env, a: Phases.Aging, entries: seq<BacklogEntry>)
    ensures AgeAll(env, a, entries).p.drawn == a.p.drawn
    decreases |entries|
  {
    hide Disappoint;
    if |entries| > 0 {
      AgingDrawsNothing(env, AgeEntry(env, a, entries[0]), entries[1..]);
    }
  }

  lemma {:induction false} SettlingDrawsNothing(p: Phase, items: seq<CashCommitment>)
    ensures CollectEach(p, items).drawn == p.drawn && PayEach(p, items).drawn == p.drawn
    decreases |items|
  {
    hide ProjectCashDelta;
    if |items| > 0 {
      SettlingDrawsNothing(CollectOne(p, items[0]), items[1..]);
      SettlingDrawsNothing(PayOne(p, items[0]), items[1..]);
    }
  }

  /**
   The phases of a round happen in one order: whatever its log holds, it holds chapter after chapter. The world update comes
   after the sales, sees the accepted actions, and is the last to use rolls.
   */
  lemma RoundInChapters(cfg: Config, random: Random, drawn: nat, st: MatchState, actions: seq<ActionSubmission>, r: RoundResult)
    returns (s: Story)
    requires Resolved(cfg, random, drawn, st, actions, r)
    ensures InOrder(s) && r.record.events == s.All()
    ensures WorldDid(cfg, r.record.actions, s.world, r.drawn)
  {
    hide BeforeWorld, Finalize, NormalizeActions, ComputeMetrics, InOrder, WorldDid;
    FinalState(cfg, random, drawn, st, actions, r);
    var env, ordered := EnvOf(cfg, random, st), NormalizeActions(st, actions).value;
    var opening := OpeningChapters(env, Begin(st, drawn), ordered);
    var p := BeforeWorld(env, Begin(st, drawn), ordered);
    var q := ApplyWorld(env, p, ordered).value;
    WorldLogs(env, p, ordered);
    ClosingDrawsNothing(env, q, ActionFor(ordered, FinanceController));
    var closing := ClosingChapters(env, q, ActionFor(ordered, FinanceController));
    s := opening.(world := Since(p, q), aging := closing.aging, collecting := closing.collecting,
                  paying := closing.paying, wages := closing.wages);
    Stitched(opening, closing, Since(p, q));
    assert q.events == s.Opening() + s.world;
  }

  lemma Stitched(a: Story, b: Story, world: seq<Event>)
    requires InOrder(a) && InOrder(b)
    ensures InOrder(a.(world := world, aging := b.aging, collecting := b.collecting, paying := b.paying, wages := b.wages))
  {
    hide InChapter;
  }
}
