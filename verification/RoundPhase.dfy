/**
 The round in the form the program has it: an object whose methods rewrite the match state, the
 statistics and the event list phase by phase. Every method is proved against its phase function.
 */
module RoundPhases {
  import opened Seqs
  import opened Domain
  import opened Cash
  import opened Inventory
  import opened Labor
  import opened Quality
  import opened Phases

  class RoundPhase {
    const env: Env
    var state: MatchState
    var stats: Stats
    var drawn: nat
    var stressed: set<WorkstationID>
    var events: seq<Event>

    constructor (env: Env, state: MatchState, drawn: nat)
      ensures this.env == env
      ensures View() == Phase(state, NO_STATS, drawn, {}, [])
    {
      this.env, this.state, this.stats, this.drawn := env, state, NO_STATS, drawn;
      this.stressed, this.events := {}, [];
    }

    ghost function View(): Phase reads this { Phase(state, stats, drawn, stressed, events) }

    method SetPlant(plant: Plant)
      modifies this`state
      ensures View() == old(View()).WithPlant(plant)
    {
      state := state.(plant := plant);
    }

    method AppendEvent(e: Event)
      modifies this`events
      ensures View() == old(View()).Log(e)
    {
      events := events + [e];
    }

    method ApplyCashDelta(delta: int)
      modifies this`state
      ensures View() == old(View()).ApplyCash(delta)
    {
      if delta == 0 {
        SetPlant(state.plant.(cash := state.plant.cash, debt := state.plant.debt));
        return;
      }
      if delta > 0 {
        var paydown := Min(delta, state.plant.debt);
        SetPlant(state.plant.(cash := state.plant.cash + (delta - paydown), debt := state.plant.debt - paydown));
        return;
      }
      var spend := -delta;
      if state.plant.cash >= spend {
        SetPlant(state.plant.(cash := state.plant.cash - spend, debt := state.plant.debt));
        return;
      }
      var deficit := spend - state.plant.cash;
      SetPlant(state.plant.(cash := 0, debt := state.plant.debt + deficit));
    }

    method Receive(amount: int)
      modifies this
      ensures View() == old(View()).Receive(amount)
    {
      ApplyCashDelta(amount);
      stats := stats.(cashReceipts := stats.cashReceipts + amount);
    }

    method Disburse(amount: int)
      modifies this
      ensures View() == old(View()).Disburse(amount)
    {
      ApplyCashDelta(-amount);
      stats := stats.(cashDisbursements := stats.cashDisbursements + amount);
    }

    method SyncCustomerBacklog(backlog: seq<BacklogEntry>)
      modifies this`state
      ensures View() == old(View()).(st := old(state).(customers := SyncCustomers(old(state).customers, backlog)))
    {
      var byCustomer := GroupByCustomer(backlog);
      var customers := state.customers;
      ghost var synced := SyncCustomers(customers, backlog);
      for index := 0 to |customers|
        invariant |customers| == |synced|
        invariant forall k | 0 <= k < index :: customers[k] == synced[k]
        invariant forall k | index <= k < |customers| :: customers[k] == state.customers[k]
        invariant unchanged(this)
      {
        customers := customers[index := customers[index].(backlog := Own(byCustomer, customers[index].id))];
      }
      assert customers == synced;
      state := state.(customers := customers);
    }

    static method GroupByCustomer(backlog: seq<BacklogEntry>) returns (byCustomer: map<CustomerID, seq<BacklogEntry>>)
      ensures forall id :: Own(byCustomer, id) == Filter(ForCustomer(id), backlog)
    {
      byCustomer := map[];
      for i := 0 to |backlog|
        invariant forall id :: Own(byCustomer, id) == Filter(ForCustomer(id), backlog[..i])
      {
        var entry := backlog[i];
        forall id ensures Filter(ForCustomer(id), backlog[..i + 1]) ==
                          Filter(ForCustomer(id), backlog[..i]) + (if entry.customer == id then [entry] else []) {
          assert backlog[..i + 1] == backlog[..i] + [entry];
          FilterPush(ForCustomer(id), backlog[..i], entry);
        }
        byCustomer := byCustomer[entry.customer := Own(byCustomer, entry.customer) + [entry]];
      }
      assert backlog[..|backlog|] == backlog;
    }

    method SetPlantBacklog(backlog: seq<BacklogEntry>)
      modifies this`state
      ensures View() == SetBacklog(old(View()), backlog)
    {
      SetPlant(state.plant.(backlog := backlog));
      SyncCustomerBacklog(backlog);
    }

    // -------------------------------------------------------------- procurement

    method SchedulePayable(amount: int)
      modifies this
      ensures View() == Phases.SchedulePayable(env, old(View()), amount)
    {
      if amount <= 0 { return; }
      if env.cfg.payableDelay == 0 {
        Disburse(amount);
        return;
      }
      var item := NewCommitment(Payable, env.round, |state.plant.payables|, amount, env.cfg.payableDelay);
      SetPlant(state.plant.(payables := state.plant.payables + [item]));
      AppendEvent(Scheduled(item));
    }

    /** One order line, with the running spend of the loop around it. */
    method PlaceOrder(hardCap: int, spendUsed: int, action: ActionID, line: nat, order: PurchaseOrderIntent)
      returns (spent: int)
      modifies this
      ensures Buying(View(), spent) == Phases.PlaceOrder(env, Buying(old(View()), spendUsed), hardCap, action, line, order)
    {
      hide CountOrder, AllowedOrder;
      spent := spendUsed;
      if order.quantity <= 0 { return; }
      var offered := env.cfg.terms(state, env.round, order);
      if !offered.known { return; }
      var terms := NormalizedTerms(offered);
      var affordable := ProjectedCapacity();
      var allowed := AllowedOrder(terms, order.quantity, hardCap, spendUsed, affordable);
      if allowed <= 0 { return; }
      var lot := NewLot(env, action, line, order, terms, allowed);
      state := state.(suppliers := CountOrder(state.suppliers, lot.supplier));
      SetPlant(state.plant.(inTransit := state.plant.inTransit + [lot]));
      var lineSpend := lot.qty * lot.cost;
      spent := spendUsed + lineSpend;
      stats := stats.(procurementSpend := stats.procurementSpend + lineSpend);
      AppendEvent(PurchaseOrderPlaced(lot));
    }

    method ProjectedCapacity() returns (affordable: int)
      ensures affordable == ProjectedSpendCapacity(state.plant)
    {
      var cash, debt := ProjectPosition(state.plant);
      affordable := Max(cash, 0);
      if state.plant.debtCeiling > 0 {
        affordable := affordable + Max(state.plant.debtCeiling - debt, 0);
      }
    }

    method ResolveProcurement(action: Option<ActionSubmission>)
      modifies this
      ensures View() == Phases.ResolveProcurement(env, old(View()), action)
    {
      hide Phases.PlaceOrder, Phases.SchedulePayable;
      if action.None? || action.value.action.procurement.None? { return; }
      var hardCap, spendUsed := CappedBudget(state.targets.procurementBudget), 0;
      var id, orders := action.value.id, action.value.action.procurement.value;
      ghost var all := PlaceOrders(env, Buying(View(), 0), hardCap, id, 1, orders);
      for index := 0 to |orders|
        invariant PlaceOrders(env, Buying(View(), spendUsed), hardCap, id, index + 1, orders[index..]) == all
      {
        assert orders[index..][1..] == orders[index + 1..];
        spendUsed := PlaceOrder(hardCap, spendUsed, id, index + 1, orders[index]);
      }
      assert orders[|orders|..] == [];
      if spendUsed > 0 {
        SchedulePayable(spendUsed);
      }
    }

    // -------------------------------------------------------------- supply

    method ReceiveSupply()
      modifies this
      ensures View() == Phases.ReceiveSupply(env, old(View()))
    {
      var lots := state.plant.inTransit;
      var arrivals, remaining := [], [];
      ghost var sorted := SortLots(env, Receiving(View(), [], []), lots);
      for i := 0 to |lots|
        invariant SortLots(env, Receiving(View(), arrivals, remaining), lots[i..]) == sorted
      {
        var lot := lots[i];
        assert lots[i..][1..] == lots[i + 1..];
        if lot.promised > env.round {
          remaining := remaining + [lot];
          continue;
        }
        var late := Delays(env, Phase(state, stats, drawn, stressed, events), lot);
        if MayDelay(env, state.suppliers, lot) {
          drawn := drawn + 1;
        }
        if late {
          lot := lot.(arrival := lot.promised + LateRounds(state.suppliers, lot.supplier));
          state := state.(suppliers := CountDelay(state.suppliers, lot.supplier));
          AppendEvent(SupplyDelayed(lot));
          remaining := remaining + [lot];
          continue;
        }
        if lot.arrival <= env.round {
          arrivals := arrivals + [lot];
          continue;
        }
        remaining := remaining + [lot];
      }
      assert lots[|lots|..] == [];
      SetPlant(state.plant.(inTransit := remaining));
      ghost var stored := StoreLots(View(), arrivals);
      for i := 0 to |arrivals|
        invariant StoreLots(View(), arrivals[i..]) == stored
      {
        var lot := arrivals[i];
        assert arrivals[i..][1..] == arrivals[i + 1..];
        ghost var before := View();
        SetPlant(state.plant.(parts := Add(state.plant.parts, lot.part, lot.qty, lot.cost)));
        state := state.(suppliers := CountReceipt(state.suppliers, lot.supplier));
        AppendEvent(SupplyArrived(lot));
        assert View() == StoreLot(before, lot);
      }
      assert arrivals[|arrivals|..] == [];
    }

    // -------------------------------------------------------------- holds and returns

    method ReleaseInspectionHolds()
      modifies this
      ensures View() == Phases.ReleaseInspectionHolds(env, old(View()))
    {
      hide Add, Filter;
      var holds, remaining := state.plant.holds, [];
      ghost var released := ReleaseHolds(View(), Filter(ReleasedBy(env.round), holds));
      assert holds[0..] == holds;
      for i := 0 to |holds|
        invariant ReleaseHolds(View(), Filter(ReleasedBy(env.round), holds[i..])) == released
        invariant remaining + Filter(HeldUntil(env.round), holds[i..]) == Filter(HeldUntil(env.round), holds)
      {
        var item := holds[i];
        FilterStep(ReleasedBy(env.round), holds, i);
        FilterStep(HeldUntil(env.round), holds, i);
        if item.release > env.round {
          remaining := remaining + [item];
          continue;
        }
        SetPlant(state.plant.(finished := Add(state.plant.finished, item.product, item.qty, item.cost)));
        AppendEvent(HoldReleased(item));
      }
      FilterStep(ReleasedBy(env.round), holds, |holds|);
      FilterStep(HeldUntil(env.round), holds, |holds|);
      SetPlant(state.plant.(holds := remaining));
    }

    method ProcessCustomerReturns()
      modifies this
      ensures View() == Phases.ProcessCustomerReturns(env, old(View()))
    {
      hide Phases.AcceptReturn, Filter, SetBacklog;
      var due, remaining := SplitReturns(state.plant.pendingReturns);
      SetPlant(state.plant.(pendingReturns := remaining));
      ghost var accepted := AcceptReturns(env, View(), due);
      for i := 0 to |due|
        invariant AcceptReturns(env, View(), due[i..]) == accepted
      {
        assert due[i..][1..] == due[i + 1..];
        AcceptReturn(due[i]);
      }
      assert due[|due|..] == [];
      if |due| > 0 {
        SetPlantBacklog(state.plant.backlog);
      }
    }

    method SplitReturns(items: seq<CustomerReturn>) returns (due: seq<CustomerReturn>, remaining: seq<CustomerReturn>)
      ensures due == Filter(DueBy(env.round), items)
      ensures remaining == Filter(DueAfter(env.round), items)
    {
      due, remaining := [], [];
      for i := 0 to |items|
        invariant due + Filter(DueBy(env.round), items[i..]) == Filter(DueBy(env.round), items)
        invariant remaining + Filter(DueAfter(env.round), items[i..]) == Filter(DueAfter(env.round), items)
      {
        assert items[i..][1..] == items[i + 1..];
        if items[i].due <= env.round {
          due := due + [items[i]];
        } else {
          remaining := remaining + [items[i]];
        }
      }
      assert items[|items|..] == [];
    }

    method AcceptReturn(item: CustomerReturn)
      modifies this
      ensures View() == Phases.AcceptReturn(env, old(View()), item)
    {
      stats := stats.(customerReturnUnits := stats.customerReturnUnits + item.qty);
      SetPlant(state.plant.(holds := AddHold(state.plant.holds, item.product, item.qty, item.cost,
                                             env.round, env.round + 1, CustomerReturned)));
      AppendEvent(HoldPlaced(item.product, item.qty, env.round + 1, None));
      var entry := BacklogEntry(item.customer, item.product, item.qty, env.round, 0);
      SetPlant(state.plant.(backlog := state.plant.backlog + [entry]));
      state := state.(customers := Disappoint(state.customers, item.customer));
      AppendEvent(ReturnReceived(item));
      AppendEvent(BacklogCreated(item.customer, item.product, item.qty));
    }

    // -------------------------------------------------------------- production

    method CompleteFinishedUnits(key: WipKey, qty: int, cost: int, overtime: bool)
      modifies this
      ensures View() == CompleteUnits(env, old(View()), key, qty, cost, overtime)
    {
      hide ScrapUnits, ReworkUnits, HoldUnits, StockUnits, FinishedSplit;
      if qty <= 0 { return; }
      var ctx := FinalInspection(key.product, key.station, qty, key.station in stressed, overtime);
      var profile := Normalized(env.cfg.quality(state, env.round, ctx));
      var split, next := ResolveFinishedQuality(qty, profile, env.random, drawn);
      drawn := next;
      Scrap(key, split.scrap);
      Rework(key, split.rework, cost);
      Hold(key, split.hold, cost, env.round + Max(profile.holdRounds, 1));
      Store(key, Max(qty - split.scrap - split.rework - split.hold, 0), cost);
    }

    method Scrap(key: WipKey, qty: int)
      modifies this
      ensures View() == ScrapUnits(old(View()), key, qty)
    {
      if qty > 0 {
        stats := stats.(scrapUnits := stats.scrapUnits + qty);
        AppendEvent(Scrapped(key.product, qty, key.station));
      }
    }

    method Rework(key: WipKey, qty: int, cost: int)
      modifies this
      ensures View() == ReworkUnits(old(View()), key, qty, cost)
    {
      if qty > 0 {
        stats := stats.(reworkUnits := stats.reworkUnits + qty);
        SetPlant(state.plant.(wip := Add(state.plant.wip, key, qty, cost)));
        AppendEvent(ReworkCreated(key.product, qty, key.station));
      }
    }

    method Hold(key: WipKey, qty: int, cost: int, release: int)
      modifies this
      ensures View() == HoldUnits(old(View()), key, qty, cost, env.round, release)
    {
      if qty > 0 {
        SetPlant(state.plant.(holds := AddHold(state.plant.holds, key.product, qty, cost,
                                               env.round, release, ProductionQuality)));
        AppendEvent(HoldPlaced(key.product, qty, release, Some(key.station)));
      }
    }

    method Store(key: WipKey, qty: int, cost: int)
      modifies this
      ensures View() == StockUnits(old(View()), key, qty, cost)
    {
      if qty > 0 {
        SetPlant(state.plant.(finished := Add(state.plant.finished, key.product, qty, cost)));
        stats := stats.(producedUnits := stats.producedUnits + qty);
        AppendEvent(FinishedProduced(key.product, qty, key.station));
      }
    }

    method ReleaseWork(first: WorkstationID, release: ProductionRelease)
      modifies this
      ensures View() == ReleaseOne(env, old(View()), first, release)
    {
      if release.quantity <= 0 { return; }
      var bom := env.cfg.bom(state, env.round, release.product);
      if !bom.known { return; }
      var allowed := release.quantity;
      if |bom.parts| > 0 {
        var buildable := ComputeMaxBuildable(state.plant.parts, bom.parts);
        allowed := Min(allowed, buildable);
      }
      if allowed <= 0 { return; }
      var parts, materialCost := state.plant.parts, 0;
      for i := 0 to |bom.parts|
        invariant Consume(parts, bom.parts[i..], allowed, materialCost) ==
                  Consume(state.plant.parts, bom.parts, allowed, 0)
        invariant unchanged(this)
      {
        var line := bom.parts[i];
        assert bom.parts[i..][1..] == bom.parts[i + 1..];
        materialCost := materialCost + TakeCost(parts, line.part, line.qty * allowed, 0);
        parts := Take(parts, line.part, line.qty * allowed);
      }
      assert bom.parts[|bom.parts|..] == [];
      var wip := Add(state.plant.wip, WipKey(release.product, first), allowed, PerUnitCost(materialCost, allowed));
      SetPlant(state.plant.(parts := parts, wip := wip));
      AppendEvent(ProductionReleased(release.product, allowed, bom.parts, first));
    }

    method MeasureStress(i: nat)
      requires i < |state.plant.stations|
      modifies this
      ensures View() == Phases.MeasureStress(old(View()), i)
    {
      var w := state.plant.stations[i];
      var c := StressedCapacity(w, Units(AtStation(w.id), state.plant.wip));
      SetPlant(state.plant.(stations := state.plant.stations[i := w.(effective := c.effective, stressLoss := c.loss)]));
      if c.loss > 0 {
        stressed := stressed + {w.id};
      }
    }

    method PlanAdvance(i: nat, overtime: int, hardCap: int, spent: int, a: CapacityAllocation) returns (plan: Plan)
      requires i < |state.plant.stations|
      ensures plan == Phases.PlanAdvance(env, View(), i, overtime, hardCap, spent, a)
    {
      var w := state.plant.stations[i];
      var base := BaseLaborLeft(w);
      var available := QtyOf(state.plant.wip, WipKey(a.product, a.station));
      var advance := Min(Min(Min(a.capacity, w.effective - w.capacityUsed), available), LaborLeft(w, overtime));
      var unit := env.cfg.productionCost(state, env.round, a.product, a.station, advance);
      if unit <= 0 {
        unit := 1;
      }
      if hardCap > 0 {
        if hardCap - spent <= 0 {
          advance := 0;
        } else {
          advance := ComputeAffordableAdvance(advance, base, overtime, unit, w.overtimeCost, hardCap - spent);
        }
      }
      var cash := if state.plant.debtCeiling <= 0 then state.plant.cash
                  else state.plant.cash + Max(state.plant.debtCeiling - state.plant.debt, 0);
      advance := ComputeAffordableAdvance(advance, base, overtime, unit, w.overtimeCost, cash);
      return Plan(advance, unit);
    }

    /** One capacity allocation, with the two running variables of the loop around it. */
    method AdvanceWork(a: CapacityAllocation, overtimeRequests: map<WorkstationID, int>, hardCap: int, budgetUsed: int)
      returns (overtime: map<WorkstationID, int>, spent: int)
      modifies this
      ensures Producing(View(), overtime, spent) ==
              Advance(env, Producing(old(View()), overtimeRequests, budgetUsed), hardCap, a)
    {
      overtime, spent := overtimeRequests, budgetUsed;
      if a.capacity <= 0 { return; }
      var i := StationIndex(state.plant.stations, a.station);
      if i == |state.plant.stations| { return; }
      MeasureStress(i);
      var requested := At(overtime, a.station);
      var plan := PlanAdvance(i, requested, hardCap, spent, a);
      if plan.advance <= 0 { return; }
      var key, w := WipKey(a.product, a.station), state.plant.stations[i];
      var cost := PerUnitCost(TakeCost(state.plant.wip, key, plan.advance, 0), plan.advance);
      SetPlant(state.plant.(wip := Take(state.plant.wip, key, plan.advance)));
      hide Phases.BookAdvance, Phases.MoveUnits, Phases.MeasureStress, Phases.PlanAdvance, Take;
      overtime, spent := BookAdvance(i, plan, overtime, spent);
      MoveUnits(key, plan.advance, cost, OvertimeUsed(w, plan.advance, requested) > 0);
    }

    /** Labour, capacity and spend of an accepted advance. */
    method BookAdvance(i: nat, plan: Plan, overtimeRequests: map<WorkstationID, int>, budgetUsed: int)
      returns (overtime: map<WorkstationID, int>, spent: int)
      requires i < |state.plant.stations|
      modifies this
      ensures Producing(View(), overtime, spent) ==
              Phases.BookAdvance(Producing(old(View()), overtimeRequests, budgetUsed), i, plan)
    {
      var w := state.plant.stations[i];
      var requested := At(overtimeRequests, w.id);
      var used := OvertimeUsed(w, plan.advance, requested);
      var station := ConsumeLabor(w, plan.advance, requested);
      station := station.(capacityUsed := station.capacityUsed + plan.advance);
      SetPlant(state.plant.(stations := state.plant.stations[i := station]));
      overtime := overtimeRequests[w.id := Max(0, requested - used)];
      spent := budgetUsed + plan.advance * plan.unit + used * w.overtimeCost;
      stats := stats.(productionSpend := stats.productionSpend + plan.advance * plan.unit,
                      overtimeUnits := stats.overtimeUnits + Max(used, 0));
      if used > 0 {
        AppendEvent(OvertimeApplied(w.id, used));
      }
    }

    method MoveUnits(key: WipKey, qty: int, cost: int, overtime: bool)
      modifies this
      ensures View() == Phases.MoveUnits(env, old(View()), key, qty, cost, overtime)
    {
      var route := env.cfg.route(state, env.round, key.product, key.station);
      if route.finished {
        CompleteFinishedUnits(key, qty, cost, overtime);
        return;
      }
      if route.next == NO_STATION {
        SetPlant(state.plant.(wip := Add(state.plant.wip, key, qty, cost)));
        AppendEvent(AdvanceIgnored(key.product, qty, key.station));
        return;
      }
      SetPlant(state.plant.(wip := Add(state.plant.wip, WipKey(key.product, route.next), qty, cost)));
      AppendEvent(WorkAdvanced(key.product, qty, key.station, route.next));
    }

    method ResolveProduction(action: Option<ActionSubmission>)
      modifies this
      ensures View() == Phases.ResolveProduction(env, old(View()), action)
    {
      if action.None? || action.value.action.production.None? || |state.plant.stations| == 0 { return; }
      var todo := action.value.action.production.value;
      var first := state.plant.stations[0].id;
      var overtime: map<WorkstationID, int> := map[];
      for i := 0 to |todo.overtime|
        invariant RequestOvertime(overtime, todo.overtime[i..]) == RequestOvertime(map[], todo.overtime)
        invariant unchanged(this)
      {
        var o := todo.overtime[i];
        assert todo.overtime[i..][1..] == todo.overtime[i + 1..];
        if o.capacity > 0 {
          overtime := overtime[o.station := At(overtime, o.station) + o.capacity];
        }
      }
      assert todo.overtime[|todo.overtime|..] == [];
      ghost var released := ReleaseAll(env, View(), first, todo.releases);
      for i := 0 to |todo.releases|
        invariant ReleaseAll(env, View(), first, todo.releases[i..]) == released
      {
        assert todo.releases[i..][1..] == todo.releases[i + 1..];
        ReleaseWork(first, todo.releases[i]);
      }
      assert todo.releases[|todo.releases|..] == [];
      var hardCap, spent := CappedBudget(state.targets.productionSpendBudget), 0;
      ghost var advanced := AdvanceAll(env, Producing(View(), overtime, 0), hardCap, todo.allocations);
      for i := 0 to |todo.allocations|
        invariant AdvanceAll(env, Producing(View(), overtime, spent), hardCap, todo.allocations[i..]) == advanced
      {
        assert todo.allocations[i..][1..] == todo.allocations[i + 1..];
        overtime, spent := AdvanceWork(todo.allocations[i], overtime, hardCap, spent);
      }
      assert todo.allocations[|todo.allocations|..] == [];
      if stats.productionSpend > 0 {
        Disburse(stats.productionSpend);
      }
    }

    // -------------------------------------------------------------- sales

    method ScheduleReceivable(amount: int, delay: int)
      modifies this
      ensures View() == Phases.ScheduleReceivable(env, old(View()), amount, delay)
    {
      if amount <= 0 { return; }
      if Max(0, delay) == 0 {
        Receive(amount);
        return;
      }
      var item := NewCommitment(Receivable, env.round, |state.plant.receivables|, amount, delay);
      SetPlant(state.plant.(receivables := state.plant.receivables + [item]));
      AppendEvent(Scheduled(item));
    }

    method ScheduleCustomerReturns(customer: CustomerID, product: ProductID, qty: int, cost: int)
      modifies this
      ensures View() == ScheduleReturns(env, old(View()), customer, product, qty, cost)
    {
      if qty <= 0 { return; }
      var profile := Normalized(env.cfg.quality(state, env.round, Shipment(product, customer, qty)));
      var returned, next := ResolveReturnQuantity(qty, profile.returnPct, env.random, drawn);
      drawn := next;
      if returned <= 0 { return; }
      var item := CustomerReturn(ReturnID(env.round, |state.plant.pendingReturns| + 1), customer, product, returned, cost,
                                 env.round + Max(profile.returnDelay, 1), env.round);
      SetPlant(state.plant.(pendingReturns := state.plant.pendingReturns + [item]));
      AppendEvent(ReturnScheduled(item));
    }

    static method CollectPrices(action: Option<ActionSubmission>) returns (prices: map<ProductID, int>)
      ensures prices == SalesPrices(action)
    {
      prices := map[];
      if action.None? || action.value.action.sales.None? { return; }
      var offers := action.value.action.sales.value;
      for i := 0 to |offers|
        invariant OfferPrices(prices, offers[i..]) == OfferPrices(map[], offers)
      {
        assert offers[i..][1..] == offers[i + 1..];
        if offers[i].unitPrice > 0 {
          prices := prices[offers[i].product := offers[i].unitPrice];
        }
      }
      assert offers[|offers|..] == [];
    }

    method ResolveSales(action: Option<ActionSubmission>)
      modifies this
      ensures View() == Phases.ResolveSales(env, old(View()), action)
    {
      hide Phases.ShipEntry, SetBacklog, SalesPrices, EffectiveBacklog;
      var prices := CollectPrices(action);
      var backlog := EffectiveBacklog(state);
      if |backlog| == 0 {
        SetPlantBacklog([]);
        return;
      }
      var entries := env.cfg.sort(backlog);
      var remaining := [];
      ghost var shipped: seq<int> := [];
      ghost var all := ShipAll(env, Selling(View(), [], []), prices, entries);
      for i := 0 to |entries|
        invariant ShipAll(env, Selling(View(), remaining, shipped), prices, entries[i..]) == all
      {
        assert entries[i..][1..] == entries[i + 1..];
        remaining, shipped := ShipEntry(entries[i], prices, remaining, shipped);
      }
      assert entries[|entries|..] == [];
      SetPlantBacklog(remaining);
    }

    /** One backlog entry; the entry that is still open afterwards joins the remaining ones. */
    method ShipEntry(entry: BacklogEntry, prices: map<ProductID, int>, open: seq<BacklogEntry>, ghost soFar: seq<int>)
      returns (remaining: seq<BacklogEntry>, ghost shipped: seq<int>)
      modifies this
      ensures Selling(View(), remaining, shipped) ==
              Phases.ShipEntry(env, Selling(old(View()), open, soFar), prices, entry)
    {
      hide Ship, ScheduleReturns, Phases.ScheduleReceivable, PaymentDelay, QtyOf, CostOf, Price;
      remaining := open;
      var left, qty := entry, Min(entry.qty, QtyOf(state.plant.finished, entry.product));
      if qty > 0 {
        ShipOne(entry, qty, Price(prices, entry.product));
        left := entry.(qty := entry.qty - qty);
      }
      if left.qty > 0 {
        remaining := remaining + [left];
      }
      shipped := soFar + [Max(qty, 0)];
    }

    method ShipOne(entry: BacklogEntry, qty: int, price: int)
      requires qty > 0
      modifies this
      ensures var sold := Ship(old(View()), entry, qty, price);
              var due := Phases.ScheduleReceivable(env, sold, qty * price,
                                                   PaymentDelay(env, sold.st.customers, entry.customer));
              View() == ScheduleReturns(env, due.Log(Shipped(entry.customer, entry.product, qty, price)),
                                        entry.customer, entry.product, qty,
                                        CostOf(old(state).plant.finished, entry.product))
    {
      hide Take, CostOf, Phases.ScheduleReceivable, ScheduleReturns, PaymentDelay;
      var unitCost := CostOf(state.plant.finished, entry.product);
      SetPlant(state.plant.(finished := Take(state.plant.finished, entry.product, qty)));
      stats := stats.(revenue := stats.revenue + qty * price, shippedUnits := stats.shippedUnits + qty);
      ScheduleReceivable(qty * price, PaymentDelay(env, state.customers, entry.customer));
      AppendEvent(Shipped(entry.customer, entry.product, qty, price));
      ScheduleCustomerReturns(entry.customer, entry.product, qty, unitCost);
    }

    // -------------------------------------------------------------- end of the round

    method AgeBacklog()
      modifies this
      ensures View() == Phases.AgeBacklog(env, old(View()))
    {
      var backlog, aged := EffectiveBacklog(state), [];
      ghost var all := AgeAll(env, Aging(View(), []), backlog);
      for i := 0 to |backlog|
        invariant AgeAll(env, Aging(View(), aged), backlog[i..]) == all
      {
        var entry := backlog[i];
        assert backlog[i..][1..] == backlog[i + 1..];
        entry := entry.(age := entry.age + 1);
        if entry.age > env.cfg.backlogExpiry {
          stats := stats.(lostSalesUnits := stats.lostSalesUnits + entry.qty);
          state := state.(customers := Disappoint(state.customers, entry.customer));
          AppendEvent(BacklogExpired(entry.customer, entry.product, entry.qty));
          continue;
        }
        aged := aged + [entry];
      }
      assert backlog[|backlog|..] == [];
      SetPlantBacklog(aged);
    }

    method CollectReceivablesDue()
      modifies this
      ensures View() == Phases.CollectReceivablesDue(env, old(View()))
    {
      hide Filter, ProjectCashDelta, Sum;
      var due, remaining := SplitDue(state.plant.receivables);
      SetPlant(state.plant.(receivables := remaining));
      ghost var all := CollectEach(View(), due);
      for i := 0 to |due|
        invariant CollectEach(View(), due[i..]) == all
      {
        assert due[i..][1..] == due[i + 1..];
        ApplyCashDelta(due[i].amount);
        AppendEvent(Collected(due[i]));
      }
      assert due[|due|..] == [];
      var collected := Sum(Amount(), due);
      if collected > 0 {
        stats := stats.(cashReceipts := stats.cashReceipts + collected);
      }
    }

    method PayPayablesDue()
      modifies this
      ensures View() == Phases.PayPayablesDue(env, old(View()))
    {
      hide Filter, ProjectCashDelta, Sum;
      var due, remaining := SplitDue(state.plant.payables);
      SetPlant(state.plant.(payables := remaining));
      ghost var all := PayEach(View(), due);
      for i := 0 to |due|
        invariant PayEach(View(), due[i..]) == all
      {
        assert due[i..][1..] == due[i + 1..];
        ApplyCashDelta(-due[i].amount);
        AppendEvent(Paid(due[i]));
      }
      assert due[|due|..] == [];
      var disbursed := Sum(Amount(), due);
      if disbursed > 0 {
        stats := stats.(cashDisbursements := stats.cashDisbursements + disbursed);
      }
    }

    method SplitDue(items: seq<CashCommitment>) returns (due: seq<CashCommitment>, remaining: seq<CashCommitment>)
      ensures due == Filter(Matured(env.round), items)
      ensures remaining == Filter(Open(env.round), items)
    {
      due, remaining := [], [];
      for i := 0 to |items|
        invariant due + Filter(Matured(env.round), items[i..]) == Filter(Matured(env.round), items)
        invariant remaining + Filter(Open(env.round), items[i..]) == Filter(Open(env.round), items)
      {
        assert items[i..][1..] == items[i + 1..];
        if items[i].due <= env.round {
          due := due + [items[i]];
        } else {
          remaining := remaining + [items[i]];
        }
      }
      assert items[|items|..] == [];
    }

    method ApplyLaborCosts()
      modifies this
      ensures View() == Phases.ApplyLaborCosts(env, old(View()))
    {
      var stations := state.plant.stations;
      var labor, overtime, idle := 0, 0, 0;
      for i := 0 to |stations|
        invariant labor + Sum(StationLaborCost(), stations[i..]) == Sum(StationLaborCost(), stations)
        invariant overtime + Sum(StationOvertimeCost(), stations[i..]) == Sum(StationOvertimeCost(), stations)
        invariant idle + Sum(StationIdle(), stations[i..]) == Sum(StationIdle(), stations)
      {
        assert stations[i..][1..] == stations[i + 1..];
        labor := labor + StationLaborCost()(stations[i]);
        overtime := overtime + StationOvertimeCost()(stations[i]);
        idle := idle + StationIdle()(stations[i]);
      }
      assert stations[|stations|..] == [];
      stats := stats.(idleLaborUnits := idle, payrollExpense := labor + overtime,
                      laborCost := labor, overtimeCost := overtime);
      var total := labor + overtime;
      if total > 0 {
        if env.cfg.payrollDelay == 0 {
          Disburse(total);
        } else {
          var item := NewCommitment(Payroll, env.round, |state.plant.payables|, total, env.cfg.payrollDelay);
          SetPlant(state.plant.(payables := state.plant.payables + [item]));
          AppendEvent(Scheduled(item));
        }
      }
    }

    method ApplyRoundOperatingCosts()
      modifies this
      ensures View() == ApplyOperatingCosts(env, old(View()))
    {
      var holding, debt := HoldingCost(env, state), CarryingCost(state.plant.debt);
      if holding + debt > 0 {
        Disburse(holding + debt);
      }
      stats := stats.(holdingCost := holding, debtServiceCost := debt);
    }

    method FinalizeRound(action: Option<ActionSubmission>) returns (metrics: Metrics)
      modifies this
      ensures View() == Finalize(env, old(View()), action)
      ensures metrics == ComputeMetrics(env, View())
    {
      hide ComputeMetrics, Phases.AgeBacklog, Phases.CollectReceivablesDue, Phases.PayPayablesDue;
      hide Phases.ApplyLaborCosts, ApplyOperatingCosts;
      AgeBacklog();
      if action.Some? && action.value.action.finance.Some? {
        var targets := action.value.action.finance.value.(effectiveRound := env.round + 1);
        state := state.(targets := targets, plant := state.plant.(debtCeiling := targets.debtCeilingTarget));
      }
      CollectReceivablesDue();
      PayPayablesDue();
      ApplyLaborCosts();
      ApplyRoundOperatingCosts();
      metrics := ComputeMetrics(env, Phase(state, stats, drawn, stressed, events));
    }
  }

  function Own(byCustomer: map<CustomerID, seq<BacklogEntry>>, id: CustomerID): seq<BacklogEntry> {
    if id in byCustomer then byCustomer[id] else []
  }
}
