/**
 The value of what is on hand. Averages round down, so no phase creates value: parts, work in progress and finished goods
 are together never worth more than before, plus the lots that arrived and the holds that were released.
 */
module Valuation {
  import opened Seqs
  import opened Domain
  import opened Cash
  import opened Inventory
  import opened Labor
  import opened Quality
  import opened Phases
  import opened Actions
  import opened Resolver
  import opened Ledger
  import opened LedgerPhases
  import opened LedgerClosing
  import opened Frames
  import opened Accounting

  // ---------------------------------------------------------------- the metrics of a round

  /** The stock figures a round reports are those of the state it ends in. */
  lemma MetricsMatchState(cfg: Config, random: Random, drawn: nat, st: MatchState, actions: seq<ActionSubmission>, r: RoundResult)
    requires Resolved(cfg, random, drawn, st, actions, r)
    ensures r.record.metrics.Some?
    ensures var m, plant := r.record.metrics.value, r.next.plant;
            && m.inventoryValue == OnHand(plant) + Sum(HoldValue(), plant.holds)
            && m.partsOnHandUnits == Units(AnyKey(), plant.parts) && m.finishedGoodsUnits == Units(AnyKey(), plant.finished)
            && m.inspectionHoldUnits == Sum(HoldQty(), plant.holds) && m.backlogUnits == Sum(EntryQty(), plant.backlog)
            && m.endingCash == plant.cash && m.supplierReliability == AverageReliability(r.next.suppliers)
  {
    hide Resolve, NormalizeActions, FinalPhase, Value, Units, Sum, AverageReliability, OnTimeRate, Expense;
    FinalState(cfg, random, drawn, st, actions, r);
  }

  // ---------------------------------------------------------------- one list

  ghost predicate Costed<K(!new)>(items: seq<Stock<K>>) { Tidy(items) && forall s | s in items :: s.cost >= 1 }

  lemma AddCosted<K(!new)>(items: seq<Stock<K>>, key: K, qty: int, cost: int)
    requires Costed(items) && qty > 0 && cost >= 1
    ensures Costed(Add(items, key, qty, cost)) && Value(Add(items, key, qty, cost)) <= Value(items) + qty * cost
  {
    AddTidy(items, key, qty, cost);
    var i, next := Index(items, key), Add(items, key, qty, cost);
    if i < |items| {
      var merged := Merge(items[i], qty, cost);
      assert items[i] in items;
      WeightedAverage(items[i].qty, items[i].cost, qty, cost);
      SumUpdate(LineValue(), items, i, merged);
      assert next == items[i := merged];
    } else {
      SumPush(LineValue(), items, Stock(key, qty, cost));
    }
  }

  /**
   Adding units never creates value if and only if both unit costs are positive, or neither is, or the key is new: where
   only one of them is positive it is applied to all units of the line.
   */
  lemma AddKeepsValueExactlyWhen<K(!new)>(items: seq<Stock<K>>, key: K, qty: int, cost: int)
    requires Tidy(items) && qty > 0 && cost >= 0 && CostOf(items, key) >= 0
    ensures Value(Add(items, key, qty, cost)) <= Value(items) + qty * cost <==>
            Index(items, key) == |items| || (CostOf(items, key) > 0 <==> cost > 0)
  {
    hide Sum, Merge;
    var i := Index(items, key);
    if i < |items| {
      SumUpdate(LineValue(), items, i, Merge(items[i], qty, cost));
      MergedValue(items[i], qty, cost);
    } else {
      SumPush(LineValue(), items, Stock(key, qty, cost));
    }
  }

  lemma MergedValue<K>(item: Stock<K>, qty: int, cost: int)
    requires item.qty > 0 && qty > 0 && item.cost >= 0 && cost >= 0
    ensures var merged := Merge(item, qty, cost);
            merged.qty * merged.cost <= item.qty * item.cost + qty * cost <==> (item.cost > 0 <==> cost > 0)
  {
    if item.cost > 0 && cost > 0 {
      WeightedAverage(item.qty, item.cost, qty, cost);
    } else if item.cost > 0 {
      assert (item.qty + qty) * item.cost == item.qty * item.cost + qty * item.cost;
      Positive(qty, item.cost);
    } else if cost > 0 {
      assert (item.qty + qty) * cost == item.qty * cost + qty * cost;
      Positive(item.qty, cost);
    }
  }

  lemma Positive(a: int, b: int)
    requires a > 0 && b > 0
    ensures a * b > 0
  {
  }

  lemma TakeCosted<K(!new)>(items: seq<Stock<K>>, key: K, qty: int)
    requires Costed(items) && 0 < qty <= QtyOf(items, key)
    ensures Costed(Take(items, key, qty)) && CostOf(items, key) >= 1
    ensures Value(Take(items, key, qty)) == Value(items) - qty * CostOf(items, key)
    ensures TakeCost(items, key, qty, 0) == qty * CostOf(items, key)
  {
    TakeShape(items, key, qty);
    TakeTidy(items, key, qty);
    TakeCostIs(items, key, qty, 0);
    var i := Index(items, key);
    var before, item, after := items[..i], items[i], items[i + 1..];
    assert items == before + [item] + after && item in items;
    SumConcat(LineValue(), before + Left(item, qty), after);
    SumConcat(LineValue(), before, Left(item, qty));
    SumConcat(LineValue(), before + [item], after);
    SumPush(LineValue(), before, item);
    LeftValue(item, qty);
  }

  lemma LeftValue<K>(item: Stock<K>, qty: int)
    requires 0 < qty <= item.qty
    ensures Sum(LineValue(), Left(item, qty)) == item.qty * item.cost - qty * item.cost
  {
    assert (item.qty - qty) * item.cost == item.qty * item.cost - qty * item.cost;
    assert Left(item, qty) != [] ==> Left(item, qty)[1..] == [];
  }

  // ---------------------------------------------------------------- a bill

  /** A bill with distinct lines, none negative and at least one that asks for something. */
  ghost predicate PaidBill(bom: seq<BOMLine>) { SoundBill(bom) && exists l :: l in bom && l.qty > 0 }

  ghost predicate PaidBills(cfg: Config) {
    forall st: MatchState, round: int, product: ProductID ::
      cfg.bom(st, round, product).known ==> PaidBill(cfg.bom(st, round, product).parts)
  }

  lemma LineTaken(parts: seq<Stock<PartID>>, line: BOMLine, q: int)
    requires Costed(parts) && q >= 1 && line.qty >= 0 && line.qty * q <= QtyOf(parts, line.part)
    ensures var rest, cost := Take(parts, line.part, line.qty * q), TakeCost(parts, line.part, line.qty * q, 0);
            Costed(rest) && Value(rest) + cost == Value(parts) && cost >= line.qty * q
  {
    hide Costed, Value, Take, TakeCost, QtyOf, CostOf;
    if line.qty == 0 {
      NothingTaken(parts, line.part);
    } else {
      Positive(line.qty, q);
      TakeCosted(parts, line.part, line.qty * q);
      ProductNonNegative(line.qty * q, CostOf(parts, line.part) - 1);
    }
  }

  lemma NothingTaken(parts: seq<Stock<PartID>>, part: PartID)
    requires Costed(parts)
    ensures Take(parts, part, 0) == parts && TakeCost(parts, part, 0, 0) == 0
  {
    hide Take, TakeCost, CostOf;
    TakeShape(parts, part, 0);
    TakeCostIs(parts, part, 0, 0);
    var i := Index(parts, part);
    if i < |parts| {
      assert Left(parts[i], 0) == [parts[i]];
      assert parts == parts[..i] + [parts[i]] + parts[i + 1..];
    }
  }

  lemma BuildableRest(parts: seq<Stock<PartID>>, bom: seq<BOMLine>, q: int)
    requires Costed(parts) && SoundBill(bom) && |bom| > 0 && q >= 1 && Buildable(parts, bom, q)
    ensures SoundBill(bom[1..]) && bom[0].qty * q <= QtyOf(parts, bom[0].part)
    ensures Buildable(Take(parts, bom[0].part, bom[0].qty * q), bom[1..], q)
  {
    var line, rest := bom[0], bom[1..];
    assert line in bom && forall l | l in rest :: l in bom;
    assert forall i | 0 <= i < |rest| :: rest[i] == bom[i + 1];
    QtyIsUnits(parts, line.part);
    ProductNonNegative(line.qty, q);
    forall l | l in rest && l.qty > 0 ensures l.qty * q <= QtyOf(Take(parts, line.part, line.qty * q), l.part) {
      var i :| 0 <= i < |rest| && rest[i] == l;
      assert bom[0].part != bom[i + 1].part;
      TakeQty(parts, line.part, line.qty * q, l.part);
    }
  }

  /** Material leaves at its cost, and costs at least one money unit per unit released. */
  lemma {:induction false} ConsumeValue(parts: seq<Stock<PartID>>, bom: seq<BOMLine>, q: int, cost: int)
    requires Costed(parts) && SoundBill(bom) && q >= 1 && Buildable(parts, bom, q)
    ensures var used := Consume(parts, bom, q, cost);
            && Costed(used.parts) && Value(used.parts) + used.cost == Value(parts) + cost && used.cost >= cost
            && ((exists l :: l in bom && l.qty > 0) ==> used.cost >= cost + q)
    decreases |bom|
  {
    hide Costed, Buildable, Value, Take, TakeCost, QtyOf;
    if |bom| > 0 {
      var line := bom[0];
      assert line in bom;
      BuildableRest(parts, bom, q);
      LineTaken(parts, line, q);
      ProductNonNegative(line.qty, q);
      ConsumeValue(Take(parts, line.part, line.qty * q), bom[1..], q, cost + TakeCost(parts, line.part, line.qty * q, 0));
      if line.qty > 0 {
        ProductNonNegative(line.qty - 1, q);
        assert line.qty * q >= q;
      }
    }
  }

  lemma FloorCost(total: int, q: int)
    requires q >= 1 && total >= q
    ensures PerUnitCost(total, q) >= 1 && q * PerUnitCost(total, q) <= total
  {
    QuotBound(total, q, 1);
    QuotBound(total, q, PerUnitCost(total, q));
  }

  // ---------------------------------------------------------------- the plant

  /** Parts, work in progress and finished goods. */
  function OnHand(plant: Plant): int { Value(plant.parts) + Value(plant.wip) + Value(plant.finished) }

  /** Everything a plant holds, expects or awaits costs something. */
  ghost predicate Priced(plant: Plant) {
    && Costed(plant.parts) && Costed(plant.wip) && Costed(plant.finished)
    && (forall h | h in plant.holds :: h.qty > 0 && h.cost >= 1)
    && (forall l | l in plant.inTransit :: l.qty > 0 && l.cost >= 1)
    && (forall c | c in plant.pendingReturns :: c.qty > 0 && c.cost >= 1)
  }

  /** What comes on hand from outside the three lists. */
  function Inflow(): Event -> int {
    (e: Event) => match e
                  case SupplyArrived(l) => l.qty * l.cost
                  case HoldReleased(h) => h.qty * h.cost
                  case _ => 0
  }

  function Unexplained(p: Phase): int { OnHand(p.st.plant) - Sum(Inflow(), p.events) }

  /** From one phase state to the next the plant stays priced and no value appears unexplained. */
  ghost predicate NoGain(p: Phase, q: Phase) {
    Priced(p.st.plant) ==> Priced(q.st.plant) && Unexplained(q) <= Unexplained(p)
  }

  /** The lists this is about. */
  ghost predicate SameStocks(a: Plant, b: Plant) {
    && b.parts == a.parts && b.wip == a.wip && b.finished == a.finished
    && b.holds == a.holds && b.inTransit == a.inTransit && b.pendingReturns == a.pendingReturns
  }

  lemma Untouched(p: Phase, q: Phase)
    requires SameStocks(p.st.plant, q.st.plant) && Sum(Inflow(), q.events) == Sum(Inflow(), p.events)
    ensures NoGain(p, q)
  {
  }

  // ---------------------------------------------------------------- procurement and supply

  lemma OrderNoGain(env: Env, b: Buying, cap: int, action: ActionID, line: nat, order: PurchaseOrderIntent)
    ensures NoGain(b.p, PlaceOrder(env, b, cap, action, line, order).p)
  {
    hide AllowedOrder, ProjectedSpendCapacity, CountOrder, Costed, Value, Sum;
    var c := PlaceOrder(env, b, cap, action, line, order);
    if c != b {
      var t := NormalizedTerms(env.cfg.terms(b.p.st, env.round, order));
      var allowed := AllowedOrder(t, order.quantity, cap, b.spent, ProjectedSpendCapacity(b.p.st.plant));
      SumPush(Inflow(), b.p.events, PurchaseOrderPlaced(NewLot(env, action, line, order, t, allowed)));
    }
  }

  lemma {:induction false} OrdersNoGain(env: Env, b: Buying, cap: int, action: ActionID, line: nat, orders: seq<PurchaseOrderIntent>)
    ensures NoGain(b.p, PlaceOrders(env, b, cap, action, line, orders).p)
    decreases |orders|
  {
    hide PlaceOrder, Priced, Unexplained;
    if |orders| > 0 {
      OrderNoGain(env, b, cap, action, line, orders[0]);
      OrdersNoGain(env, PlaceOrder(env, b, cap, action, line, orders[0]), cap, action, line + 1, orders[1..]);
    }
  }

  lemma PayableNoGain(env: Env, p: Phase, amount: int)
    ensures NoGain(p, SchedulePayable(env, p, amount)) && NoGain(p, SchedulePayroll(env, p, amount))
  {
    hide ProjectCashDelta, Costed, Value, Sum, NoGain;
    SumPush(Inflow(), p.events, Scheduled(NewCommitment(Payable, env.round, |p.st.plant.payables|, amount, env.cfg.payableDelay)));
    SumPush(Inflow(), p.events, Scheduled(NewCommitment(Payroll, env.round, |p.st.plant.payables|, amount, env.cfg.payrollDelay)));
    Untouched(p, SchedulePayable(env, p, amount));
    Untouched(p, SchedulePayroll(env, p, amount));
  }

  lemma ProcurementNoGain(env: Env, p: Phase, action: Option<ActionSubmission>)
    ensures NoGain(p, ResolveProcurement(env, p, action))
  {
    hide PlaceOrders, SchedulePayable, Priced, Unexplained;
    if action.Some? && action.value.action.procurement.Some? {
      var cap, id, orders := CappedBudget(p.st.targets.procurementBudget), action.value.id,
                             action.value.action.procurement.value;
      OrdersNoGain(env, Buying(p, 0), cap, id, 1, orders);
      var b := PlaceOrders(env, Buying(p, 0), cap, id, 1, orders);
      PayableNoGain(env, b.p, b.spent);
    }
  }

  ghost predicate LotsPriced(lots: seq<SupplyLot>) { forall l | l in lots :: l.qty > 0 && l.cost >= 1 }

  lemma {:induction false} SortLotsNoGain(env: Env, r: Receiving, lots: seq<SupplyLot>)
    requires LotsPriced(lots) && LotsPriced(r.arrivals) && LotsPriced(r.remaining)
    ensures var s := SortLots(env, r, lots);
            && LotsPriced(s.arrivals) && LotsPriced(s.remaining)
            && s.p.st.plant == r.p.st.plant && Sum(Inflow(), s.p.events) == Sum(Inflow(), r.p.events)
    decreases |lots|
  {
    hide Sum, SortLot, Inflow;
    if |lots| > 0 {
      SortLotNoGain(env, r, lots[0]);
      assert forall l | l in lots[1..] :: l in lots;
      SortLotsNoGain(env, SortLot(env, r, lots[0]), lots[1..]);
    }
  }

  lemma SortLotNoGain(env: Env, r: Receiving, lot: SupplyLot)
    requires lot.qty > 0 && lot.cost >= 1 && LotsPriced(r.arrivals) && LotsPriced(r.remaining)
    ensures var s := SortLot(env, r, lot);
            && LotsPriced(s.arrivals) && LotsPriced(s.remaining)
            && s.p.st.plant == r.p.st.plant && Sum(Inflow(), s.p.events) == Sum(Inflow(), r.p.events)
  {
    hide Sum, CountDelay, Delays, MayDelay;
    var late := lot.(arrival := lot.promised + LateRounds(r.p.st.suppliers, lot.supplier));
    SumPush(Inflow(), r.p.events, SupplyDelayed(late));
  }

  lemma StoreLotNoGain(p: Phase, lot: SupplyLot)
    requires lot.qty > 0 && lot.cost >= 1
    ensures NoGain(p, StoreLot(p, lot))
  {
    hide Add, CountReceipt, Costed, Value, Sum;
    if Priced(p.st.plant) {
      AddCosted(p.st.plant.parts, lot.part, lot.qty, lot.cost);
    }
    SumPush(Inflow(), p.events, SupplyArrived(lot));
  }

  lemma {:induction false} StoreLotsNoGain(p: Phase, lots: seq<SupplyLot>)
    requires LotsPriced(lots)
    ensures NoGain(p, StoreLots(p, lots))
    decreases |lots|
  {
    hide StoreLot, Priced, Unexplained;
    if |lots| > 0 {
      assert lots[0] in lots && forall l | l in lots[1..] :: l in lots;
      StoreLotNoGain(p, lots[0]);
      StoreLotsNoGain(StoreLot(p, lots[0]), lots[1..]);
    }
  }

  lemma SupplyNoGain(env: Env, p: Phase)
    ensures NoGain(p, ReceiveSupply(env, p))
  {
    hide SortLots, StoreLots, Costed, Value, Sum;
    if Priced(p.st.plant) {
      SortLotsNoGain(env, Receiving(p, [], []), p.st.plant.inTransit);
      var r := SortLots(env, Receiving(p, [], []), p.st.plant.inTransit);
      StoreLotsNoGain(r.p.WithPlant(r.p.st.plant.(inTransit := r.remaining)), r.arrivals);
    }
  }

  // ---------------------------------------------------------------- holds and returns

  lemma ReleaseHoldNoGain(p: Phase, h: InspectionHold)
    requires h.qty > 0 && h.cost >= 1
    ensures NoGain(p, ReleaseHold(p, h))
  {
    hide Add, Costed, Value, Sum;
    if Priced(p.st.plant) {
      AddCosted(p.st.plant.finished, h.product, h.qty, h.cost);
    }
    SumPush(Inflow(), p.events, HoldReleased(h));
  }

  lemma {:induction false} ReleaseHoldsNoGain(p: Phase, holds: seq<InspectionHold>)
    requires forall h | h in holds :: h.qty > 0 && h.cost >= 1
    ensures NoGain(p, ReleaseHolds(p, holds))
    decreases |holds|
  {
    hide ReleaseHold, Priced, Unexplained;
    if |holds| > 0 {
      assert holds[0] in holds && forall h | h in holds[1..] :: h in holds;
      ReleaseHoldNoGain(p, holds[0]);
      ReleaseHoldsNoGain(ReleaseHold(p, holds[0]), holds[1..]);
    }
  }

  lemma HoldsNoGain(env: Env, p: Phase)
    ensures NoGain(p, ReleaseInspectionHolds(env, p))
  {
    hide ReleaseHolds, Costed, Value, Sum, Filter;
    if Priced(p.st.plant) {
      var holds := p.st.plant.holds;
      FilterMembers(ReleasedBy(env.round), holds);
      FilterMembers(HeldUntil(env.round), holds);
      ReleaseHoldsNoGain(p, Filter(ReleasedBy(env.round), holds));
    }
  }

  lemma PlaceHoldNoGain(p: Phase, product: ProductID, qty: int, cost: int, round: int, release: int, reason: HoldReason,
                        origin: Option<WorkstationID>)
    requires qty > 0 && cost >= 1
    ensures NoGain(p, PlaceHold(p, product, qty, cost, round, release, reason, origin))
  {
    hide Costed, Value, Sum;
    SumPush(Inflow(), p.events, HoldPlaced(product, qty, release, origin));
    if Priced(p.st.plant) {
      HoldsPriced(p.st.plant.holds, product, qty, cost, round, release, reason);
    }
  }

  lemma HoldsPriced(holds: seq<InspectionHold>, product: ProductID, qty: int, cost: int, round: int, release: int, reason: HoldReason)
    requires qty > 0 && cost >= 1 && forall h | h in holds :: h.qty > 0 && h.cost >= 1
    ensures forall h | h in AddHold(holds, product, qty, cost, round, release, reason) :: h.qty > 0 && h.cost >= 1
  {
    var i := HoldIndex(holds, product, release, reason);
    assert i < |holds| ==> holds[i] in holds;
  }

  lemma AcceptReturnNoGain(env: Env, p: Phase, item: CustomerReturn)
    requires item.qty > 0 && item.cost >= 1
    ensures NoGain(p, AcceptReturn(env, p, item))
  {
    hide AddHold, Disappoint, Costed, Value, Sum, Priced;
    var counted := p.(stats := p.stats.(customerReturnUnits := p.stats.customerReturnUnits + item.qty));
    PlaceHoldNoGain(counted, item.product, item.qty, item.cost, env.round, env.round + 1, CustomerReturned, None);
    var held := PlaceHold(counted, item.product, item.qty, item.cost, env.round, env.round + 1, CustomerReturned, None);
    SumPush(Inflow(), held.events, ReturnReceived(item));
    SumPush(Inflow(), held.events + [ReturnReceived(item)], BacklogCreated(item.customer, item.product, item.qty));
    Untouched(held, AcceptReturn(env, p, item));
  }

  lemma {:induction false} AcceptReturnsNoGain(env: Env, p: Phase, items: seq<CustomerReturn>)
    requires forall c | c in items :: c.qty > 0 && c.cost >= 1
    ensures NoGain(p, AcceptReturns(env, p, items))
    decreases |items|
  {
    hide AcceptReturn, Priced, Unexplained;
    if |items| > 0 {
      assert items[0] in items && forall c | c in items[1..] :: c in items;
      AcceptReturnNoGain(env, p, items[0]);
      AcceptReturnsNoGain(env, AcceptReturn(env, p, items[0]), items[1..]);
    }
  }

  lemma ReturnsNoGain(env: Env, p: Phase)
    ensures NoGain(p, ProcessCustomerReturns(env, p))
  {
    hide AcceptReturns, Costed, Value, Sum, Filter, SyncCustomers;
    if Priced(p.st.plant) {
      var items := p.st.plant.pendingReturns;
      FilterMembers(DueBy(env.round), items);
      FilterMembers(DueAfter(env.round), items);
      AcceptReturnsNoGain(env, p.WithPlant(p.st.plant.(pendingReturns := Filter(DueAfter(env.round), items))),
                          Filter(DueBy(env.round), items));
    }
  }

  // ---------------------------------------------------------------- production

  lemma ReleaseNoGain(env: Env, p: Phase, first: WorkstationID, release: ProductionRelease)
    requires PaidBills(env.cfg)
    ensures NoGain(p, ReleaseOne(env, p, first, release))
  {
    hide Costed, Value, Sum, Consume, Add, MaxBuildable, Buildable, SoundBill;
    var bom, parts := env.cfg.bom(p.st, env.round, release.product), p.st.plant.parts;
    var q := AcceptedRelease(parts, bom.parts, release.quantity);
    if Priced(p.st.plant) && release.quantity > 0 && bom.known && q > 0 {
      assert PaidBill(bom.parts);
      CostedIsTidy(parts);
      MaxBuildableIsLargest(parts, bom.parts, q);
      ConsumeValue(parts, bom.parts, q, 0);
      var used, key := Consume(parts, bom.parts, q, 0), WipKey(release.product, first);
      FloorCost(used.cost, q);
      AddCosted(p.st.plant.wip, key, q, PerUnitCost(used.cost, q));
      SumPush(Inflow(), p.events, ProductionReleased(release.product, q, bom.parts, first));
    }
  }

  lemma CostedIsTidy<K(!new)>(items: seq<Stock<K>>)
    requires Costed(items)
    ensures Tidy(items)
  {
  }

  lemma {:induction false} ReleasesNoGain(env: Env, p: Phase, first: WorkstationID, releases: seq<ProductionRelease>)
    requires PaidBills(env.cfg)
    ensures NoGain(p, ReleaseAll(env, p, first, releases))
    decreases |releases|
  {
    hide ReleaseOne, Priced, Unexplained, PaidBills;
    if |releases| > 0 {
      ReleaseNoGain(env, p, first, releases[0]);
      ReleasesNoGain(env, ReleaseOne(env, p, first, releases[0]), first, releases[1..]);
    }
  }

  /** Units worth at most so much come on hand. */
  ghost predicate Gains(p: Phase, q: Phase, value: int) {
    Priced(p.st.plant) ==> Priced(q.st.plant) && Unexplained(q) <= Unexplained(p) + value
  }

  lemma WipGains(p: Phase, key: WipKey, qty: int, cost: int)
    requires cost >= 1 && qty > 0
    ensures Gains(p, AddWip(p, key, qty, cost), qty * cost)
  {
    hide Add, Costed, Value, Sum;
    if Priced(p.st.plant) {
      AddCosted(p.st.plant.wip, key, qty, cost);
    }
  }

  lemma FinishedGains(p: Phase, product: ProductID, qty: int, cost: int)
    requires cost >= 1 && qty > 0
    ensures Gains(p, AddFinished(p, product, qty, cost), qty * cost)
  {
    hide Add, Costed, Value, Sum;
    if Priced(p.st.plant) {
      AddCosted(p.st.plant.finished, product, qty, cost);
    }
  }

  lemma SplitGains(p: Phase, key: WipKey, qty: int, cost: int, round: int, release: int)
    requires cost >= 1 && qty >= 0
    ensures Gains(p, ScrapUnits(p, key, qty), 0)
    ensures Gains(p, ReworkUnits(p, key, qty, cost), qty * cost)
    ensures Gains(p, HoldUnits(p, key, qty, cost, round, release), 0)
    ensures Gains(p, StockUnits(p, key, qty, cost), qty * cost)
  {
    hide Add, AddHold, Costed, Value, Sum, Priced;
    if qty > 0 {
      SumPush(Inflow(), p.events, Scrapped(key.product, qty, key.station));
      WipGains(p.(stats := p.stats.(reworkUnits := p.stats.reworkUnits + qty)), key, qty, cost);
      SumPush(Inflow(), p.events, ReworkCreated(key.product, qty, key.station));
      PlaceHoldNoGain(p, key.product, qty, cost, round, release, ProductionQuality, Some(key.station));
      FinishedGains(p, key.product, qty, cost);
      SumPush(Inflow(), p.events, FinishedProduced(key.product, qty, key.station));
    }
  }

  lemma CompletingGains(env: Env, p: Phase, key: WipKey, qty: int, cost: int, overtime: bool)
    requires cost >= 1 && qty > 0
    ensures Gains(p, CompleteUnits(env, p, key, qty, cost, overtime), qty * cost)
  {
    hide ScrapUnits, ReworkUnits, HoldUnits, StockUnits, FinishedSplit, Normalized, Drawn, Priced, Unexplained;
    var ctx := FinalInspection(key.product, key.station, qty, key.station in p.stressed, overtime);
    var raw := env.cfg.quality(p.st, env.round, ctx);
    var profile := Normalized(raw);
    var split := FinishedSplit(qty, profile, env.random, p.drawn);
    SplitConserves(qty, raw, env.random, p.drawn);
    var release := env.round + Max(profile.holdRounds, 1);
    var p0 := p.(drawn := Drawn(env.random, p.drawn, qty));
    DrawnSame(p, Drawn(env.random, p.drawn, qty));
    SplitGains(p0, key, split.scrap, cost, env.round, release);
    var p1 := ScrapUnits(p0, key, split.scrap);
    SplitGains(p1, key, split.rework, cost, env.round, release);
    var p2 := ReworkUnits(p1, key, split.rework, cost);
    SplitGains(p2, key, split.hold, cost, env.round, release);
    var p3 := HoldUnits(p2, key, split.hold, cost, env.round, release);
    SplitGains(p3, key, split.Good(qty), cost, env.round, release);
    ProductNonNegative(split.scrap + split.hold, cost);
    assert qty * cost == (split.scrap + split.hold) * cost + split.rework * cost + split.Good(qty) * cost;
  }

  lemma DrawnSame(p: Phase, drawn: nat)
    ensures Priced(p.(drawn := drawn).st.plant) == Priced(p.st.plant) && Unexplained(p.(drawn := drawn)) == Unexplained(p)
  {
  }

  lemma MovingGains(env: Env, p: Phase, key: WipKey, qty: int, cost: int, overtime: bool)
    requires cost >= 1 && qty > 0
    ensures Gains(p, MoveUnits(env, p, key, qty, cost, overtime), qty * cost)
  {
    hide Add, CompleteUnits, Priced, Costed, Value, Sum;
    var route := env.cfg.route(p.st, env.round, key.product, key.station);
    if route.finished {
      CompletingGains(env, p, key, qty, cost, overtime);
    } else if route.next == NO_STATION {
      WipGains(p, key, qty, cost);
      SumPush(Inflow(), p.events, AdvanceIgnored(key.product, qty, key.station));
    } else {
      var to := WipKey(key.product, route.next);
      WipGains(p, to, qty, cost);
      SumPush(Inflow(), p.events, WorkAdvanced(key.product, qty, key.station, route.next));
    }
  }

  lemma MeasuredSame(p: Phase, i: nat)
    requires i < |p.st.plant.stations|
    ensures SameStocks(p.st.plant, MeasureStress(p, i).st.plant) && MeasureStress(p, i).events == p.events
    ensures |MeasureStress(p, i).st.plant.stations| == |p.st.plant.stations|
  {
    hide StressedCapacity, Units;
  }

  lemma BookedSame(s: Producing, i: nat, plan: Plan)
    requires i < |s.p.st.plant.stations|
    ensures SameStocks(s.p.st.plant, BookAdvance(s, i, plan).p.st.plant)
    ensures Sum(Inflow(), BookAdvance(s, i, plan).p.events) == Sum(Inflow(), s.p.events)
  {
    hide Sum, ConsumeLabor, OvertimeUsed;
    var w := s.p.st.plant.stations[i];
    SumPush(Inflow(), s.p.events, OvertimeApplied(w.id, OvertimeUsed(w, plan.advance, At(s.overtime, w.id))));
  }

  /** Work moves on at the cost it had: nothing is gained by an allocation. */
  lemma AdvanceNoGain(env: Env, s: Producing, cap: int, a: CapacityAllocation)
    ensures NoGain(s.p, Advance(env, s, cap, a).p)
  {
    hide PlanAdvance, BookAdvance, MoveUnits, MeasureStress, Take, TakeCost, OvertimeUsed, QtyOf, Priced, Unexplained, Sum;
    var i := StationIndex(s.p.st.plant.stations, a.station);
    if a.capacity > 0 && i < |s.p.st.plant.stations| {
      var p := MeasureStress(s.p, i);
      MeasuredSame(s.p, i);
      Untouched(s.p, p);
      var left := At(s.overtime, a.station);
      PlanWithinLimits(env, p, i, left, cap, s.spent, a);
      var plan := PlanAdvance(env, p, i, left, cap, s.spent, a);
      if plan.advance > 0 && Priced(p.st.plant) {
        var key := WipKey(a.product, a.station);
        var cost := PerUnitCost(TakeCost(p.st.plant.wip, key, plan.advance, 0), plan.advance);
        var overtime := OvertimeUsed(p.st.plant.stations[i], plan.advance, left) > 0;
        TakingWip(p, key, plan.advance);
        var taken := s.(p := TakeWip(p, key, plan.advance));
        BookedSame(taken, i, plan);
        Untouched(taken.p, BookAdvance(taken, i, plan).p);
        MovingGains(env, BookAdvance(taken, i, plan).p, key, plan.advance, cost, overtime);
      }
    }
  }

  lemma TakingWip(p: Phase, key: WipKey, qty: int)
    requires Priced(p.st.plant) && 0 < qty <= QtyOf(p.st.plant.wip, key)
    ensures var cost := PerUnitCost(TakeCost(p.st.plant.wip, key, qty, 0), qty);
            && cost >= 1 && Priced(TakeWip(p, key, qty).st.plant)
            && Unexplained(TakeWip(p, key, qty)) == Unexplained(p) - qty * cost
  {
    hide Costed, Value, Sum, Take, QtyOf, TakeCost;
    CostedIsTidy(p.st.plant.wip);
    TakeCosted(p.st.plant.wip, key, qty);
    MoveKeepsCost(p.st.plant.wip, key, qty);
  }

  lemma {:induction false} AdvancesNoGain(env: Env, s: Producing, cap: int, allocations: seq<CapacityAllocation>)
    ensures NoGain(s.p, AdvanceAll(env, s, cap, allocations).p)
    decreases |allocations|
  {
    hide Advance, Priced, Unexplained;
    if |allocations| > 0 {
      AdvanceNoGain(env, s, cap, allocations[0]);
      AdvancesNoGain(env, Advance(env, s, cap, allocations[0]), cap, allocations[1..]);
    }
  }

  lemma DisburseNoGain(p: Phase, amount: int)
    ensures NoGain(p, p.Disburse(amount)) && NoGain(p, p.Receive(amount))
  {
    hide ProjectCashDelta, Costed, Value, Sum;
  }

  lemma ProductionNoGain(env: Env, p: Phase, action: Option<ActionSubmission>)
    requires PaidBills(env.cfg)
    ensures NoGain(p, ResolveProduction(env, p, action))
  {
    hide ReleaseAll, AdvanceAll, RequestOvertime, ProjectCashDelta, Priced, Unexplained, PaidBills;
    if action.Some? && action.value.action.production.Some? && |p.st.plant.stations| > 0 {
      var todo, first := action.value.action.production.value, p.st.plant.stations[0].id;
      ReleasesNoGain(env, p, first, todo.releases);
      var s := Producing(ReleaseAll(env, p, first, todo.releases), RequestOvertime(map[], todo.overtime), 0);
      var cap := CappedBudget(s.p.st.targets.productionSpendBudget);
      AdvancesNoGain(env, s, cap, todo.allocations);
      var t := AdvanceAll(env, s, cap, todo.allocations);
      DisburseNoGain(t.p, t.p.stats.productionSpend);
    }
  }

  // ---------------------------------------------------------------- sales

  lemma ReceivableNoGain(env: Env, p: Phase, amount: int, delay: int)
    ensures NoGain(p, ScheduleReceivable(env, p, amount, delay))
    ensures SameStocks(p.st.plant, ScheduleReceivable(env, p, amount, delay).st.plant)
  {
    hide ProjectCashDelta, Costed, Value, Sum;
    SumPush(Inflow(), p.events, Scheduled(NewCommitment(Receivable, env.round, |p.st.plant.receivables|, amount, delay)));
  }

  lemma PromiseNoGain(env: Env, p: Phase, customer: CustomerID, product: ProductID, qty: int, cost: int)
    requires cost >= 1
    ensures NoGain(p, ScheduleReturns(env, p, customer, product, qty, cost))
  {
    hide Normalized, ReturnQuantity, DrawnForReturns, Costed, Value, Sum;
    var profile := Normalized(env.cfg.quality(p.st, env.round, Shipment(product, customer, qty)));
    var returned := ReturnQuantity(qty, profile.returnPct, env.random, p.drawn);
    var item := CustomerReturn(ReturnID(env.round, |p.st.plant.pendingReturns| + 1), customer, product, returned, cost,
                               env.round + Max(profile.returnDelay, 1), env.round);
    SumPush(Inflow(), p.events, ReturnScheduled(item));
  }

  lemma GoodsShipped(p: Phase, entry: BacklogEntry, qty: int, price: int)
    requires Priced(p.st.plant) && 0 < qty <= QtyOf(p.st.plant.finished, entry.product)
    ensures NoGain(p, Ship(p, entry, qty, price)) && CostOf(p.st.plant.finished, entry.product) >= 1
  {
    hide Costed, Value, Sum, Take, QtyOf, CostOf;
    TakeCosted(p.st.plant.finished, entry.product, qty);
    ProductNonNegative(qty, CostOf(p.st.plant.finished, entry.product));
  }

  lemma ShipmentNoGain(env: Env, s: Selling, prices: map<ProductID, int>, entry: BacklogEntry)
    ensures NoGain(s.p, ShipEntry(env, s, prices, entry).p)
  {
    hide Take, QtyOf, CostOf, Price, PaymentDelay, ScheduleReceivable, ScheduleReturns, Ship, Priced, Sum, OnHand;
    var finished := s.p.st.plant.finished;
    var qty := Min(entry.qty, QtyOf(finished, entry.product));
    if qty > 0 && Priced(s.p.st.plant) {
      var price := Price(prices, entry.product);
      GoodsShipped(s.p, entry, qty, price);
      var sold := Ship(s.p, entry, qty, price);
      var delay := PaymentDelay(env, sold.st.customers, entry.customer);
      ReceivableNoGain(env, sold, qty * price, delay);
      var due, shipped := ScheduleReceivable(env, sold, qty * price, delay), Shipped(entry.customer, entry.product, qty, price);
      SumPush(Inflow(), due.events, shipped);
      PromiseNoGain(env, due.Log(shipped), entry.customer, entry.product, qty, CostOf(finished, entry.product));
    }
  }

  lemma {:induction false} ShipmentsNoGain(env: Env, s: Selling, prices: map<ProductID, int>, entries: seq<BacklogEntry>)
    ensures NoGain(s.p, ShipAll(env, s, prices, entries).p)
    decreases |entries|
  {
    hide ShipEntry, Priced, Unexplained;
    if |entries| > 0 {
      ShipmentNoGain(env, s, prices, entries[0]);
      ShipmentsNoGain(env, ShipEntry(env, s, prices, entries[0]), prices, entries[1..]);
    }
  }

  lemma BacklogNoGain(p: Phase, backlog: seq<BacklogEntry>)
    ensures NoGain(p, SetBacklog(p, backlog))
  {
    hide SyncCustomers, Costed, Value, Sum;
  }

  lemma SalesNoGain(env: Env, p: Phase, action: Option<ActionSubmission>)
    ensures NoGain(p, ResolveSales(env, p, action))
  {
    hide ShipAll, EffectiveBacklog, SetBacklog, Priced, Unexplained;
    var s := Selling(p, [], []);
    var sorted := env.cfg.sort(EffectiveBacklog(p.st));
    BacklogNoGain(p, []);
    ShipmentsNoGain(env, s, SalesPrices(action), sorted);
    var t := ShipAll(env, s, SalesPrices(action), sorted);
    BacklogNoGain(t.p, t.remaining);
  }

  // ---------------------------------------------------------------- the end of the round

  lemma {:induction false} NoInflow(events: seq<Event>)
    requires forall e | e in events :: !e.SupplyArrived? && !e.HoldReleased?
    ensures Sum(Inflow(), events) == 0
  {
    if |events| > 0 {
      assert events[0] in events && forall e | e in events[1..] :: e in events;
      NoInflow(events[1..]);
    }
  }

  /** An orderly world update receives no lots and releases no holds. */
  lemma OrderlyInflow(st: MatchState, effect: WorldEffect)
    requires OrderlyEffect(st, effect)
    ensures Sum(Inflow(), effect.events) == 0
  {
    hide Movement, Sum;
    forall e | e in effect.events ensures !e.SupplyArrived? && !e.HoldReleased? {
      if e.SupplyArrived? {
        assert Sum(Moved(ArrivedLot(e.lot)), effect.events) == OpenUnits(ArrivedLot(e.lot), NewEntries(st, effect));
        InflowShows(effect.events, e);
      } else if e.HoldReleased? {
        assert Sum(Moved(ReleasedHold(e.hold)), effect.events) == OpenUnits(ReleasedHold(e.hold), NewEntries(st, effect));
        InflowShows(effect.events, e);
      }
    }
    NoInflow(effect.events);
  }

  lemma InflowShows(events: seq<Event>, e: Event)
    requires e in events
    ensures e.SupplyArrived? ==> Sum(Moved(ArrivedLot(e.lot)), events) >= 1
    ensures e.HoldReleased? ==> Sum(Moved(ReleasedHold(e.hold)), events) >= 1
  {
    if e.SupplyArrived? {
      SumNonNegative(Moved(ArrivedLot(e.lot)), events);
      assert Moved(ArrivedLot(e.lot))(e) == 1;
    } else if e.HoldReleased? {
      SumNonNegative(Moved(ReleasedHold(e.hold)), events);
      assert Moved(ReleasedHold(e.hold))(e) == 1;
    }
  }

  lemma WorldNoGain(env: Env, p: Phase, actions: seq<ActionSubmission>)
    requires OrderlyWorld(env.cfg) && ApplyWorld(env, p, actions).Ok?
    ensures NoGain(p, ApplyWorld(env, p, actions).value)
  {
    hide OrderlyEffect, Costed, Value, Sum;
    if env.cfg.world.Some? {
      var effect := env.cfg.world.value(p.st, actions, p.drawn).value;
      assert OrderlyEffect(p.st, effect);
      OrderlyInflow(p.st, effect);
      SumConcat(Inflow(), p.events, effect.events);
      OrderlyStocks(p.st, effect);
    }
  }

  lemma OrderlyStocks(st: MatchState, effect: WorldEffect)
    requires OrderlyEffect(st, effect)
    ensures SameStocks(st.plant, effect.st.plant)
  {
  }

  lemma {:induction false} AgesNoInflow(env: Env, a: Aging, entries: seq<BacklogEntry>)
    ensures Sum(Inflow(), AgeAll(env, a, entries).p.events) == Sum(Inflow(), a.p.events)
    ensures AgeAll(env, a, entries).p.st.plant == a.p.st.plant
    decreases |entries|
  {
    hide Sum, Disappoint;
    if |entries| > 0 {
      SumPush(Inflow(), a.p.events, BacklogExpired(entries[0].customer, entries[0].product, entries[0].qty));
      AgesNoInflow(env, AgeEntry(env, a, entries[0]), entries[1..]);
    }
  }

  lemma {:induction false} SettlingNoInflow(p: Phase, items: seq<CashCommitment>)
    ensures Sum(Inflow(), CollectEach(p, items).events) == Sum(Inflow(), p.events)
    ensures Sum(Inflow(), PayEach(p, items).events) == Sum(Inflow(), p.events)
    decreases |items|
  {
    hide Sum, ProjectCashDelta;
    if |items| > 0 {
      SumPush(Inflow(), p.events, Collected(items[0]));
      SumPush(Inflow(), p.events, Paid(items[0]));
      SettlingNoInflow(CollectOne(p, items[0]), items[1..]);
      SettlingNoInflow(PayOne(p, items[0]), items[1..]);
    }
  }

  lemma AgingNoGain(env: Env, p: Phase)
    ensures NoGain(p, AgeBacklog(env, p))
  {
    hide AgeAll, EffectiveBacklog, SyncCustomers, NoGain, Sum;
    AgesNoInflow(env, Aging(p, []), EffectiveBacklog(p.st));
    Untouched(p, AgeBacklog(env, p));
  }

  lemma CollectNoGain(env: Env, p: Phase)
    ensures NoGain(p, CollectReceivablesDue(env, p))
  {
    hide CollectEach, Filter, NoGain, Sum;
    CollectFrame(env, p);
    SettlingNoInflow(p.WithPlant(p.st.plant.(receivables := Filter(Open(env.round), p.st.plant.receivables))),
                     Filter(Matured(env.round), p.st.plant.receivables));
    Untouched(p, CollectReceivablesDue(env, p));
  }

  lemma PayNoGain(env: Env, p: Phase)
    ensures NoGain(p, PayPayablesDue(env, p))
  {
    hide PayEach, Filter, NoGain, Sum;
    PayFrame(env, p);
    SettlingNoInflow(p.WithPlant(p.st.plant.(payables := Filter(Open(env.round), p.st.plant.payables))),
                     Filter(Matured(env.round), p.st.plant.payables));
    Untouched(p, PayPayablesDue(env, p));
  }

  lemma CostsNoGain(env: Env, p: Phase, action: Option<ActionSubmission>)
    ensures NoGain(p, AdoptTargets(env, p, action)) && NoGain(p, ApplyLaborCosts(env, p)) && NoGain(p, ApplyOperatingCosts(env, p))
  {
    hide SchedulePayroll, HoldingCost, CarryingCost, ProjectCashDelta, Costed, Value, Sum;
    var stations := p.st.plant.stations;
    var labor, overtime := Sum(StationLaborCost(), stations), Sum(StationOvertimeCost(), stations);
    var stats := p.stats.(idleLaborUnits := Sum(StationIdle(), stations), payrollExpense := labor + overtime,
                          laborCost := labor, overtimeCost := overtime);
    PayableNoGain(env, p.(stats := stats), labor + overtime);
  }

  lemma FinalizeNoGain(env: Env, p: Phase, action: Option<ActionSubmission>)
    ensures NoGain(p, Finalize(env, p, action))
  {
    hide AgeBacklog, AdoptTargets, CollectReceivablesDue, PayPayablesDue, ApplyLaborCosts, ApplyOperatingCosts;
    hide Priced, Unexplained;
    AgingNoGain(env, p);
    var p1 := AgeBacklog(env, p);
    CostsNoGain(env, p1, action);
    var p2 := AdoptTargets(env, p1, action);
    CollectNoGain(env, p2);
    var p3 := CollectReceivablesDue(env, p2);
    PayNoGain(env, p3);
    var p4 := PayPayablesDue(env, p3);
    CostsNoGain(env, p4, action);
    CostsNoGain(env, ApplyLaborCosts(env, p4), action);
  }

  // ---------------------------------------------------------------- the round

  lemma BeforeWorldNoGain(env: Env, p: Phase, actions: seq<ActionSubmission>)
    requires PaidBills(env.cfg)
    ensures NoGain(p, BeforeWorld(env, p, actions))
  {
    hide ResolveProcurement, ReceiveSupply, ReleaseInspectionHolds, ProcessCustomerReturns, ResolveProduction, ResolveSales;
    hide Priced, Unexplained, PaidBills;
    var p1 := ResolveProcurement(env, p, ActionFor(actions, ProcurementManager));
    ProcurementNoGain(env, p, ActionFor(actions, ProcurementManager));
    SupplyNoGain(env, p1);
    var p2 := ReceiveSupply(env, p1);
    HoldsNoGain(env, p2);
    var p3 := ReleaseInspectionHolds(env, p2);
    ReturnsNoGain(env, p3);
    var p4 := ProcessCustomerReturns(env, p3);
    ProductionNoGain(env, p4, ActionFor(actions, ProductionManager));
    SalesNoGain(env, ResolveProduction(env, p4, ActionFor(actions, ProductionManager)), ActionFor(actions, SalesManager));
  }

  lemma BeginWorth(st: MatchState, drawn: nat)
    ensures Unexplained(Begin(st, drawn)) == OnHand(st.plant)
    ensures Priced(st.plant) ==> Priced(Begin(st, drawn).st.plant)
  {
    hide ResetCapacity, Costed, Value;
  }

  /** What a round's log brought on hand. */
  function Brought(): RoundResult -> int { (r: RoundResult) => Sum(Inflow(), r.record.events) }

  /** A round creates no value: what is on hand is worth at most what was, plus the arrivals and released holds it logs. */
  lemma RoundCreatesNoValue(cfg: Config, random: Random, drawn: nat, st: MatchState, actions: seq<ActionSubmission>, r: RoundResult)
    requires OrderlyWorld(cfg) && PaidBills(cfg) && Priced(st.plant) && Resolved(cfg, random, drawn, st, actions, r)
    ensures Priced(r.next.plant) && OnHand(r.next.plant) <= OnHand(st.plant) + Brought()(r)
  {
    hide BeforeWorld, ApplyWorld, Finalize, NormalizeActions, ComputeMetrics, OrderlyWorld, PaidBills, Priced, OnHand, Begin;
    FinalState(cfg, random, drawn, st, actions, r);
    var env, ordered := EnvOf(cfg, random, st), NormalizeActions(st, actions).value;
    var begin := Begin(st, drawn);
    BeginWorth(st, drawn);
    BeforeWorldNoGain(env, begin, ordered);
    var p1 := BeforeWorld(env, begin, ordered);
    WorldNoGain(env, p1, ordered);
    FinalizeNoGain(env, ApplyWorld(env, p1, ordered).value, ActionFor(ordered, FinanceController));
  }

  /**
   Over any run from a priced plant, with bills that cost something: what is on hand is never worth more than at the
   start, plus all the lots that arrived and all the holds that were released since.
   */
  lemma {:induction false} RunCreatesNoValue(cfg: Config, random: Random, drawn: nat, st: MatchState, inputs: seq<seq<ActionSubmission>>)
    requires OrderlyWorld(cfg) && PaidBills(cfg) && Priced(st.plant)
    ensures var run := Play(cfg, random, drawn, st, inputs);
            Priced(run.st.plant) && OnHand(run.st.plant) <= OnHand(st.plant) + Sum(Brought(), run.results)
    decreases |inputs|
  {
    hide Resolve, OrderlyWorld, PaidBills, Priced, OnHand, Brought;
    if |inputs| > 0 && Resolve(cfg, random, drawn, st, inputs[0]).Ok? {
      var r := Resolve(cfg, random, drawn, st, inputs[0]).value;
      RoundCreatesNoValue(cfg, random, drawn, st, inputs[0], r);
      RunCreatesNoValue(cfg, random, r.drawn, r.next, inputs[1..]);
      var rest := Play(cfg, random, r.drawn, r.next, inputs[1..]);
      assert ([r] + rest.results)[1..] == rest.results;
    }
  }
}
