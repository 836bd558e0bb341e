/**
 Every event of a round has its reason. An order follows a line of the procurement action and the terms quoted for it,
 work moves where the route says, inspected units are judged by their rolls, goods are sold at the last price offered,
 and whatever is promised for a later round is promised for the right one.
 */
module Reasons {
  import opened Seqs
  import opened Domain
  import opened Cash
  import opened Inventory
  import opened Labor
  import opened Quality
  import opened Phases
  import opened Actions
  import opened Resolver
  import opened LedgerPhases
  import opened Frames
  import opened Accounting
  import opened Purchasing
  import opened Offers
  import opened SupplyFate

  /** What a round starts from: the configuration and rolls, the opening state, and the accepted actions. */
  datatype Setting = Setting(env: Env, st: MatchState, actions: seq<ActionSubmission>)

  ghost predicate Acts(c: Setting, role: RoleID, a: ActionSubmission) { a in c.actions && a.role == role }

  // ---------------------------------------------------------------- procurement

  ghost predicate FollowsOrder(env: Env, a: ActionSubmission, line: nat, st: MatchState, lot: SupplyLot)
    requires a.action.procurement.Some? && line < |a.action.procurement.value|
  {
    var order := a.action.procurement.value[line];
    var t := env.cfg.terms(st, env.round, order);
    && t.known && order.quantity > 0
    && lot.id == LotID(a.id, line + 1) && lot.supplier == order.supplier && lot.part == order.part
    && 0 < lot.qty && t.minimumOrder <= lot.qty <= Max(order.quantity, t.minimumOrder)
    && lot.cost == Max(t.unitCost, 1)
    && lot.ordered == env.round
    && lot.promised == lot.arrival == env.round + Max(t.leadTime, 1)
  }

  /** A lot comes from one line of the procurement action, at the terms quoted in some state of the round. */
  ghost predicate OrderReason(c: Setting, lot: SupplyLot) {
    exists a: ActionSubmission, line: nat, st: MatchState ::
      && Acts(c, ProcurementManager, a) && a.action.procurement.Some? && line < |a.action.procurement.value|
      && FollowsOrder(c.env, a, line, st, lot)
  }

  // ---------------------------------------------------------------- production

  ghost predicate FollowsRelease(env: Env, release: ProductionRelease, st: MatchState, product: ProductID, qty: int, bom: seq<BOMLine>) {
    release.product == product && 0 < qty <= release.quantity && env.cfg.bom(st, env.round, product) == ProductionBOM(true, bom)
  }

  /** Work is released to the first workstation, for a line of the production action and by the product's bill. */
  ghost predicate ReleaseReason(c: Setting, product: ProductID, qty: int, bom: seq<BOMLine>, station: WorkstationID) {
    && |c.st.plant.stations| > 0 && station == c.st.plant.stations[0].id
    && exists a: ActionSubmission, i: nat, st: MatchState ::
         && Acts(c, ProductionManager, a) && a.action.production.Some? && i < |a.action.production.value.releases|
         && FollowsRelease(c.env, a.action.production.value.releases[i], st, product, qty, bom)
  }

  ghost predicate Serves(a: CapacityAllocation, product: ProductID, station: WorkstationID, qty: int) {
    a.product == product && a.station == station && 0 < qty <= a.capacity
  }

  ghost predicate Allocated(c: Setting, product: ProductID, station: WorkstationID, qty: int) {
    exists a: ActionSubmission, i: nat ::
      && Acts(c, ProductionManager, a) && a.action.production.Some? && i < |a.action.production.value.allocations|
      && Serves(a.action.production.value.allocations[i], product, station, qty)
  }

  ghost predicate RouteSays(env: Env, product: ProductID, station: WorkstationID, step: RouteStep) {
    exists st: MatchState :: env.cfg.route(st, env.round, product, station) == step
  }

  /** Units move on only to the station the route names, which is one, and not where the route is finished. */
  ghost predicate AdvanceReason(c: Setting, product: ProductID, qty: int, station: WorkstationID, next: WorkstationID) {
    && Allocated(c, product, station, qty)
    && next != NO_STATION && RouteSays(c.env, product, station, RouteStep(next, false))
  }

  ghost predicate IgnoredReason(c: Setting, product: ProductID, qty: int, station: WorkstationID) {
    Allocated(c, product, station, qty) && RouteSays(c.env, product, station, RouteStep(NO_STATION, false))
  }

  /** A batch that final inspection judges: the units, the state it is judged in, and its first roll. */
  datatype Batch = Batch(product: ProductID, station: WorkstationID, units: int, st: MatchState,
                         stressed: bool, overtime: bool, from: nat)

  function ProfileOf(env: Env, b: Batch): Profile {
    Normalized(env.cfg.quality(b.st, env.round, FinalInspection(b.product, b.station, b.units, b.stressed, b.overtime)))
  }

  /** A batch of an allocation, at the end of its route, split by its own rolls. */
  ghost predicate Judged(c: Setting, b: Batch, s: Split) {
    && Allocated(c, b.product, b.station, b.units)
    && (exists next: WorkstationID :: RouteSays(c.env, b.product, b.station, RouteStep(next, true)))
    && SplitByRates(s, b.units, ProfileOf(c.env, b), c.env.random, b.from)
  }

  ghost predicate ScrapReason(c: Setting, product: ProductID, qty: int, station: WorkstationID) {
    exists b: Batch, s: Split :: Judged(c, b, s) && b.product == product && b.station == station && s.scrap == qty
  }

  ghost predicate ReworkReason(c: Setting, product: ProductID, qty: int, station: WorkstationID) {
    exists b: Batch, s: Split :: Judged(c, b, s) && b.product == product && b.station == station && s.rework == qty
  }

  /** Held units are held for the hold rounds of their profile, at least one. */
  ghost predicate HeldReason(c: Setting, product: ProductID, qty: int, release: int, station: WorkstationID) {
    exists b: Batch, s: Split ::
      && Judged(c, b, s) && b.product == product && b.station == station && s.hold == qty
      && release == c.env.round + Max(ProfileOf(c.env, b).holdRounds, 1)
  }

  ghost predicate FinishReason(c: Setting, product: ProductID, qty: int, station: WorkstationID) {
    exists b: Batch, s: Split ::
      && Judged(c, b, s) && b.product == product && b.station == station
      && b.units == s.scrap + s.rework + s.hold + qty
  }

  // ---------------------------------------------------------------- returns

  /** Returned goods are held for one round. */
  ghost predicate ReturnedHold(c: Setting, log: seq<Event>, product: ProductID, qty: int, release: int) {
    && release == c.env.round + 1
    && exists item :: ReturnReceived(item) in log && item.product == product && item.qty == qty
  }

  ghost predicate ReceptionReason(c: Setting, log: seq<Event>, item: CustomerReturn) {
    && item.due <= c.env.round
    && HoldPlaced(item.product, item.qty, c.env.round + 1, None) in log
    && BacklogCreated(item.customer, item.product, item.qty) in log
  }

  // ---------------------------------------------------------------- sales

  /** Goods are sold at the price of their last offer in the sales action, and at one where there is no offer. */
  ghost predicate PriceReason(c: Setting, product: ProductID, price: int) {
    || (exists a :: Acts(c, SalesManager, a) && a.action.sales.Some? && OfferedPrice(a.action.sales.value, product, price))
    || (price == 1 && forall a | Acts(c, SalesManager, a) :: a.action.sales.None?)
  }

  ghost predicate FirstCustomer(customers: seq<Customer>, i: nat, id: CustomerID) {
    i < |customers| && customers[i].id == id && forall j | 0 <= j < i :: customers[j].id != id
  }

  /** A customer with a payment delay of its own pays after that, everybody else after the usual one. */
  ghost predicate Credit(env: Env, customers: seq<Customer>, id: CustomerID, delay: int) {
    || (exists i: nat :: FirstCustomer(customers, i, id) && customers[i].paymentDelay == delay > 0)
    || (delay == env.cfg.receivableDelay && forall i: nat | FirstCustomer(customers, i, id) :: customers[i].paymentDelay <= 0)
  }

  /** The shipment is owed for, unless it is paid on the spot. */
  ghost predicate Invoiced(c: Setting, log: seq<Event>, customer: CustomerID, amount: int) {
    exists delay: int ::
      && Credit(c.env, c.st.customers, customer, delay)
      && (delay > 0 ==> exists item :: Scheduled(item) in log && item.kind.Receivable? && item.amount == amount
                                       && item.due == c.env.round + delay)
  }

  /** What comes back of a shipment, by its own rolls, and when. */
  datatype Consignment = Consignment(customer: CustomerID, product: ProductID, units: int, st: MatchState, from: nat)

  function ReturnProfile(env: Env, s: Consignment): Profile {
    Normalized(env.cfg.quality(s.st, env.round, Shipment(s.product, s.customer, s.units)))
  }

  ghost predicate ComesBack(env: Env, s: Consignment, returned: int) {
    var pct := ReturnProfile(env, s).returnPct;
    if pct > 0 then ReturnedByRate(returned, s.units, pct, env.random, s.from) else returned == 0
  }

  ghost predicate Promises(env: Env, s: Consignment, item: CustomerReturn) {
    && item.customer == s.customer && item.product == s.product
    && item.created == env.round && item.id.round == env.round
    && item.due == env.round + Max(ReturnProfile(env, s).returnDelay, 1)
  }

  ghost predicate ReturnsPromised(c: Setting, log: seq<Event>, customer: CustomerID, product: ProductID, qty: int) {
    exists s: Consignment, returned: int ::
      && ComesBack(c.env, s, returned) && s.customer == customer && s.product == product && s.units == qty
      && (returned > 0 ==> exists item :: ReturnScheduled(item) in log && Promises(c.env, s, item) && item.qty == returned)
  }

  ghost predicate ShipmentReason(c: Setting, log: seq<Event>, customer: CustomerID, product: ProductID, qty: int, price: int) {
    && qty > 0
    && PriceReason(c, product, price)
    && Invoiced(c, log, customer, qty * price)
    && ReturnsPromised(c, log, customer, product, qty)
  }

  ghost predicate PromiseReason(c: Setting, log: seq<Event>, item: CustomerReturn) {
    exists s: Consignment, price: int ::
      && Shipped(s.customer, s.product, s.units, price) in log
      && ComesBack(c.env, s, item.qty) && Promises(c.env, s, item) && item.qty > 0
  }

  // ---------------------------------------------------------------- commitments

  ghost predicate InvoiceReason(c: Setting, log: seq<Event>, item: CashCommitment) {
    exists customer: CustomerID, product: ProductID, qty: int, price: int, delay: int ::
      && Shipped(customer, product, qty, price) in log && item.amount == qty * price
      && Credit(c.env, c.st.customers, customer, delay) && delay > 0 && item.due == c.env.round + delay
  }

  ghost predicate CommitmentReason(c: Setting, log: seq<Event>, item: CashCommitment) {
    && item.created == item.id.round == c.env.round && item.id.kind == item.kind && item.amount > 0
    && match item.kind
       case Receivable => InvoiceReason(c, log, item)
       case Payable => c.env.cfg.payableDelay != 0 && item.due == c.env.round + c.env.cfg.payableDelay
       case Payroll => c.env.cfg.payrollDelay != 0 && item.due == c.env.round + c.env.cfg.payrollDelay
  }

  // ---------------------------------------------------------------- any event

  ghost predicate HasReason(c: Setting, log: seq<Event>, e: Event) {
    match e
    case PurchaseOrderPlaced(lot) => OrderReason(c, lot)
    case HoldReleased(h) => h.release <= c.env.round
    case HoldPlaced(product, qty, release, origin) =>
      if origin.Some? then HeldReason(c, product, qty, release, origin.value)
      else ReturnedHold(c, log, product, qty, release)
    case ReturnReceived(item) => ReceptionReason(c, log, item)
    case ReturnScheduled(item) => PromiseReason(c, log, item)
    case ProductionReleased(product, qty, bom, station) => ReleaseReason(c, product, qty, bom, station)
    case Scrapped(product, qty, station) => ScrapReason(c, product, qty, station)
    case ReworkCreated(product, qty, station) => ReworkReason(c, product, qty, station)
    case FinishedProduced(product, qty, station) => FinishReason(c, product, qty, station)
    case WorkAdvanced(product, qty, station, next) => AdvanceReason(c, product, qty, station, next)
    case AdvanceIgnored(product, qty, station) => IgnoredReason(c, product, qty, station)
    case Shipped(customer, product, qty, price) => ShipmentReason(c, log, customer, product, qty, price)
    case Scheduled(item) => CommitmentReason(c, log, item)
    case Collected(item) => item.due <= c.env.round
    case Paid(item) => item.due <= c.env.round
    case _ => true
  }

  ghost predicate Explained(c: Setting, log: seq<Event>) { forall e | e in log :: HasReason(c, log, e) }

  // ---------------------------------------------------------------- growing logs

  lemma InvoicedGrows(c: Setting, log: seq<Event>, more: seq<Event>, customer: CustomerID, amount: int)
    requires Invoiced(c, log, customer, amount)
    ensures Invoiced(c, log + more, customer, amount)
  {
    hide Credit;
  }

  lemma ReturnsPromisedGrow(c: Setting, log: seq<Event>, more: seq<Event>, customer: CustomerID, product: ProductID, qty: int)
    requires ReturnsPromised(c, log, customer, product, qty)
    ensures ReturnsPromised(c, log + more, customer, product, qty)
  {
    hide ComesBack, Promises;
  }

  lemma ReasonGrows(c: Setting, log: seq<Event>, more: seq<Event>, e: Event)
    requires HasReason(c, log, e)
    ensures HasReason(c, log + more, e)
  {
    hide OrderReason, HeldReason, ReleaseReason, ScrapReason, ReworkReason, FinishReason, AdvanceReason, IgnoredReason, Credit;
    hide PriceReason, Invoiced, ReturnsPromised, ComesBack, Promises;
    if e.Shipped? {
      InvoicedGrows(c, log, more, e.customer, e.qty * e.price);
      ReturnsPromisedGrow(c, log, more, e.customer, e.product, e.qty);
    }
  }

  lemma MoreExplained(c: Setting, log: seq<Event>, more: seq<Event>)
    requires Explained(c, log) && forall e | e in more :: HasReason(c, log + more, e)
    ensures Explained(c, log + more)
  {
    hide HasReason;
    forall e | e in log + more ensures HasReason(c, log + more, e) {
      if e in log {
        ReasonGrows(c, log, more, e);
      }
    }
  }

  // ---------------------------------------------------------------- procurement, step by step

  lemma TermsNormalized(t: ProcurementTerms)
    ensures var n := NormalizedTerms(t);
            && n.unitCost == Max(t.unitCost, 1) && n.leadTime == Max(t.leadTime, 1)
            && n.minimumOrder == t.minimumOrder && n.known == t.known
  {
  }

  lemma OrderExplained(c: Setting, b: Buying, cap: int, a: ActionSubmission, line: nat)
    requires Acts(c, ProcurementManager, a) && a.action.procurement.Some? && line < |a.action.procurement.value|
    requires Explained(c, b.p.events)
    ensures Explained(c, PlaceOrder(c.env, b, cap, a.id, line + 1, a.action.procurement.value[line]).p.events)
  {
    hide AllowedOrder, ProjectedSpendCapacity, CountOrder, Explained, HasReason, NormalizedTerms;
    var order := a.action.procurement.value[line];
    var offered := c.env.cfg.terms(b.p.st, c.env.round, order);
    var t := NormalizedTerms(offered);
    TermsNormalized(offered);
    var capacity := ProjectedSpendCapacity(b.p.st.plant);
    CapacityNotNegative(b.p.st.plant);
    var allowed := AllowedOrder(t, order.quantity, cap, b.spent, capacity);
    if order.quantity > 0 && offered.known && allowed > 0 {
      AllowedIsLargest(t, order.quantity, cap, b.spent, capacity, 1);
      var lot := NewLot(c.env, a.id, line + 1, order, t, allowed);
      assert FollowsOrder(c.env, a, line, b.p.st, lot);
      OrderFollowed(c, a, line, b.p.st, lot, b.p.events + [PurchaseOrderPlaced(lot)]);
      MoreExplained(c, b.p.events, [PurchaseOrderPlaced(lot)]);
    }
  }

  lemma OrderFollowed(c: Setting, a: ActionSubmission, line: nat, st: MatchState, lot: SupplyLot, log: seq<Event>)
    requires Acts(c, ProcurementManager, a) && a.action.procurement.Some? && line < |a.action.procurement.value|
    requires FollowsOrder(c.env, a, line, st, lot)
    ensures HasReason(c, log, PurchaseOrderPlaced(lot))
  {
    hide FollowsOrder, Acts;
  }

  lemma {:induction false} OrdersExplained(c: Setting, b: Buying, cap: int, a: ActionSubmission, line: nat)
    requires Acts(c, ProcurementManager, a) && a.action.procurement.Some? && line <= |a.action.procurement.value|
    requires Explained(c, b.p.events)
    ensures Explained(c, PlaceOrders(c.env, b, cap, a.id, line + 1, a.action.procurement.value[line..]).p.events)
    decreases |a.action.procurement.value| - line
  {
    hide PlaceOrder, Explained, Acts;
    var orders := a.action.procurement.value;
    if line < |orders| {
      OrderExplained(c, b, cap, a, line);
      assert orders[line..][1..] == orders[line + 1..];
      OrdersExplained(c, PlaceOrder(c.env, b, cap, a.id, line + 1, orders[line]), cap, a, line + 1);
    }
  }

  lemma PayableExplained(c: Setting, p: Phase, amount: int)
    requires Explained(c, p.events)
    ensures Explained(c, SchedulePayable(c.env, p, amount).events)
    ensures Explained(c, SchedulePayroll(c.env, p, amount).events)
  {
    hide Explained, ProjectCashDelta;
    if amount > 0 {
      var bill := NewCommitment(Payable, c.env.round, |p.st.plant.payables|, amount, c.env.cfg.payableDelay);
      var wages := NewCommitment(Payroll, c.env.round, |p.st.plant.payables|, amount, c.env.cfg.payrollDelay);
      if c.env.cfg.payableDelay != 0 {
        MoreExplained(c, p.events, [Scheduled(bill)]);
      }
      if c.env.cfg.payrollDelay != 0 {
        MoreExplained(c, p.events, [Scheduled(wages)]);
      }
    }
  }

  lemma {:induction false} ActionActs(actions: seq<ActionSubmission>, role: RoleID)
    ensures var a := ActionFor(actions, role); a.Some? ==> a.value in actions && a.value.role == role
    ensures ActionFor(actions, role).None? ==> forall a | a in actions :: a.role != role
  {
    if |actions| > 0 && actions[0].role != role {
      ActionActs(actions[1..], role);
    }
  }

  lemma ProcurementExplained(c: Setting, p: Phase)
    requires Explained(c, p.events)
    ensures Explained(c, ResolveProcurement(c.env, p, ActionFor(c.actions, ProcurementManager)).events)
  {
    hide Explained, PlaceOrders, SchedulePayable;
    var action := ActionFor(c.actions, ProcurementManager);
    ActionActs(c.actions, ProcurementManager);
    if action.Some? && action.value.action.procurement.Some? {
      var cap, a := CappedBudget(p.st.targets.procurementBudget), action.value;
      assert a.action.procurement.value[0..] == a.action.procurement.value;
      OrdersExplained(c, Buying(p, 0), cap, a, 0);
      var b := PlaceOrders(c.env, Buying(p, 0), cap, a.id, 1, a.action.procurement.value);
      PayableExplained(c, b.p, b.spent);
    }
  }

  // ---------------------------------------------------------------- supply, holds, returns

  /** Events that need no reason beyond what they say. */
  ghost predicate Plain(c: Setting, e: Event) { forall log: seq<Event> :: HasReason(c, log, e) }

  lemma PlainlyExplained(c: Setting, log: seq<Event>, more: seq<Event>)
    requires Explained(c, log) && forall e | e in more :: Plain(c, e)
    ensures Explained(c, log + more)
  {
    hide Explained, HasReason;
    forall e | e in more ensures HasReason(c, log + more, e) {
      assert Plain(c, e);
    }
    MoreExplained(c, log, more);
  }

  lemma {:induction false} DelaysArePlain(c: Setting, suppliers: seq<Supplier>, lots: seq<SupplyLot>, drawn: nat, k: nat)
    requires k <= |lots|
    ensures forall e | e in Delayed(c.env, suppliers, lots, drawn, k) :: Plain(c, e)
    decreases k
  {
    hide Late, LateLot;
    if k > 0 {
      DelaysArePlain(c, suppliers, lots, drawn, k - 1);
    }
  }

  lemma SupplyExplained(c: Setting, p: Phase)
    requires Explained(c, p.events)
    ensures Explained(c, ReceiveSupply(c.env, p).events)
  {
    hide Explained, ReceiveSupply, Delayed, Coming, Staying, Drawers, Plain;
    FateOfSupply(c.env, p);
    var lots := p.st.plant.inTransit;
    var delays := Delayed(c.env, p.st.suppliers, lots, p.drawn, |lots|);
    var came := Coming(c.env, p.st.suppliers, lots, p.drawn, |lots|);
    DelaysArePlain(c, p.st.suppliers, lots, p.drawn, |lots|);
    PlainlyExplained(c, p.events, delays);
    forall e | e in Arrived(came) ensures Plain(c, e) {
      assert e.SupplyArrived?;
      ArrivalIsPlain(c, e);
    }
    PlainlyExplained(c, p.events + delays, Arrived(came));
  }

  lemma ArrivalIsPlain(c: Setting, e: Event)
    requires e.SupplyArrived? || e.BacklogExpired? || e.OvertimeApplied? || e.DemandRealized? || e.BacklogCreated?
    ensures Plain(c, e)
  {
  }

  lemma {:induction false} ReleasesExplained(c: Setting, p: Phase, holds: seq<InspectionHold>)
    requires Explained(c, p.events) && forall h | h in holds :: h.release <= c.env.round
    ensures Explained(c, ReleaseHolds(p, holds).events)
    decreases |holds|
  {
    hide Explained, Add;
    if |holds| > 0 {
      MoreExplained(c, p.events, [HoldReleased(holds[0])]);
      ReleasesExplained(c, ReleaseHold(p, holds[0]), holds[1..]);
    }
  }

  lemma HoldsExplained(c: Setting, p: Phase)
    requires Explained(c, p.events)
    ensures Explained(c, ReleaseInspectionHolds(c.env, p).events)
  {
    hide Explained, ReleaseHolds, Filter;
    FilterMembers(ReleasedBy(c.env.round), p.st.plant.holds);
    ReleasesExplained(c, p, Filter(ReleasedBy(c.env.round), p.st.plant.holds));
  }

  lemma ReturnExplained(c: Setting, p: Phase, item: CustomerReturn)
    requires Explained(c, p.events) && item.due <= c.env.round
    ensures Explained(c, AcceptReturn(c.env, p, item).events)
  {
    hide Explained, AddHold, Disappoint;
    var more := [HoldPlaced(item.product, item.qty, c.env.round + 1, None), ReturnReceived(item),
                 BacklogCreated(item.customer, item.product, item.qty)];
    assert AcceptReturn(c.env, p, item).events == p.events + more;
    assert ReturnReceived(item) in p.events + more && more[0] in p.events + more && more[2] in p.events + more;
    MoreExplained(c, p.events, more);
  }

  lemma {:induction false} AcceptedExplained(c: Setting, p: Phase, items: seq<CustomerReturn>)
    requires Explained(c, p.events) && forall item | item in items :: item.due <= c.env.round
    ensures Explained(c, AcceptReturns(c.env, p, items).events)
    decreases |items|
  {
    hide Explained, AcceptReturn;
    if |items| > 0 {
      ReturnExplained(c, p, items[0]);
      AcceptedExplained(c, AcceptReturn(c.env, p, items[0]), items[1..]);
    }
  }

  lemma ReturnsExplained(c: Setting, p: Phase)
    requires Explained(c, p.events)
    ensures Explained(c, ProcessCustomerReturns(c.env, p).events)
  {
    hide Explained, AcceptReturns, Filter, SyncCustomers;
    var items := p.st.plant.pendingReturns;
    FilterMembers(DueBy(c.env.round), items);
    AcceptedExplained(c, p.WithPlant(p.st.plant.(pendingReturns := Filter(DueAfter(c.env.round), items))),
                      Filter(DueBy(c.env.round), items));
  }

  // ---------------------------------------------------------------- production, step by step

  lemma ReleaseExplained(c: Setting, p: Phase, first: WorkstationID, a: ActionSubmission, i: nat)
    requires |c.st.plant.stations| > 0 && first == c.st.plant.stations[0].id
    requires Acts(c, ProductionManager, a) && a.action.production.Some? && i < |a.action.production.value.releases|
    requires Explained(c, p.events)
    ensures Explained(c, ReleaseOne(c.env, p, first, a.action.production.value.releases[i]).events)
  {
    hide Explained, Consume, Add, MaxBuildable, HasReason;
    var release := a.action.production.value.releases[i];
    var bom := c.env.cfg.bom(p.st, c.env.round, release.product);
    var allowed := AcceptedRelease(p.st.plant.parts, bom.parts, release.quantity);
    if release.quantity > 0 && bom.known && allowed > 0 {
      var e := ProductionReleased(release.product, allowed, bom.parts, first);
      assert FollowsRelease(c.env, release, p.st, release.product, allowed, bom.parts);
      ReleaseFollowed(c, a, i, p.st, release.product, allowed, bom.parts, p.events + [e]);
      MoreExplained(c, p.events, [e]);
    }
  }

  lemma ReleaseFollowed(c: Setting, a: ActionSubmission, i: nat, st: MatchState, product: ProductID, qty: int,
                        bom: seq<BOMLine>, log: seq<Event>)
    requires |c.st.plant.stations| > 0
    requires Acts(c, ProductionManager, a) && a.action.production.Some? && i < |a.action.production.value.releases|
    requires FollowsRelease(c.env, a.action.production.value.releases[i], st, product, qty, bom)
    ensures HasReason(c, log, ProductionReleased(product, qty, bom, c.st.plant.stations[0].id))
  {
    hide FollowsRelease, Acts;
  }

  lemma {:induction false} AllReleasesExplained(c: Setting, p: Phase, first: WorkstationID, a: ActionSubmission, i: nat)
    requires |c.st.plant.stations| > 0 && first == c.st.plant.stations[0].id
    requires Acts(c, ProductionManager, a) && a.action.production.Some? && i <= |a.action.production.value.releases|
    requires Explained(c, p.events)
    ensures Explained(c, ReleaseAll(c.env, p, first, a.action.production.value.releases[i..]).events)
    decreases |a.action.production.value.releases| - i
  {
    hide Explained, ReleaseOne, Acts;
    var releases := a.action.production.value.releases;
    if i < |releases| {
      ReleaseExplained(c, p, first, a, i);
      assert releases[i..][1..] == releases[i + 1..];
      AllReleasesExplained(c, ReleaseOne(c.env, p, first, releases[i]), first, a, i + 1);
    }
  }

  /** The events of a judged batch, one for each part of the split that is not empty. */
  lemma PartsExplained(c: Setting, b: Batch, s: Split, log: seq<Event>)
    requires Judged(c, b, s)
    ensures HasReason(c, log, Scrapped(b.product, s.scrap, b.station))
    ensures HasReason(c, log, ReworkCreated(b.product, s.rework, b.station))
    ensures HasReason(c, log, HoldPlaced(b.product, s.hold, c.env.round + Max(ProfileOf(c.env, b).holdRounds, 1), Some(b.station)))
    ensures HasReason(c, log, FinishedProduced(b.product, b.units - s.scrap - s.rework - s.hold, b.station))
  {
    hide Judged;
  }

  lemma CompletionExplained(c: Setting, p: Phase, key: WipKey, qty: int, cost: int, overtime: bool)
    requires Explained(c, p.events) && qty > 0 && Allocated(c, key.product, key.station, qty)
    requires c.env.cfg.route(p.st, c.env.round, key.product, key.station).finished
    ensures Explained(c, CompleteUnits(c.env, p, key, qty, cost, overtime).events)
  {
    hide Explained, HasReason, Allocated, ScrapUnits, ReworkUnits, HoldUnits, StockUnits, FinishedSplit, Normalized, SplitByRates;
    var b := Batch(key.product, key.station, qty, p.st, key.station in p.stressed, overtime, p.drawn);
    var raw := c.env.cfg.quality(p.st, c.env.round, FinalInspection(b.product, b.station, qty, b.stressed, overtime));
    var profile := Normalized(raw);
    var split := FinishedSplit(qty, profile, c.env.random, p.drawn);
    SplitConserves(qty, raw, c.env.random, p.drawn);
    RatesNotNegative(raw);
    SplitFollowsRates(qty, profile, c.env.random, p.drawn);
    RouteEnds(c, p.st, key);
    assert Judged(c, b, split);
    SplitExplained(c, p.(drawn := Drawn(c.env.random, p.drawn, qty)), b, split, cost);
  }

  lemma SplitExplained(c: Setting, p: Phase, b: Batch, s: Split, cost: int)
    requires Explained(c, p.events) && Judged(c, b, s) && s.Good(b.units) == b.units - s.scrap - s.rework - s.hold
    ensures var key, release := WipKey(b.product, b.station), c.env.round + Max(ProfileOf(c.env, b).holdRounds, 1);
            var p3 := HoldUnits(ReworkUnits(ScrapUnits(p, key, s.scrap), key, s.rework, cost), key, s.hold, cost,
                                c.env.round, release);
            Explained(c, StockUnits(p3, key, s.Good(b.units), cost).events)
  {
    hide Explained, Judged, ScrapUnits, ReworkUnits, HoldUnits, StockUnits, ProfileOf;
    var key, release := WipKey(b.product, b.station), c.env.round + Max(ProfileOf(c.env, b).holdRounds, 1);
    LossesExplained(c, p, b, s, cost);
    var p2 := ReworkUnits(ScrapUnits(p, key, s.scrap), key, s.rework, cost);
    YieldExplained(c, p2, b, s, cost);
  }

  lemma LossesExplained(c: Setting, p: Phase, b: Batch, s: Split, cost: int)
    requires Explained(c, p.events) && Judged(c, b, s)
    ensures var key := WipKey(b.product, b.station);
            Explained(c, ReworkUnits(ScrapUnits(p, key, s.scrap), key, s.rework, cost).events)
  {
    hide Explained, Judged, Add, ProfileOf;
    var key := WipKey(b.product, b.station);
    PartExplained(c, b, s, p.events, Scrapped(b.product, s.scrap, b.station));
    PartExplained(c, b, s, ScrapUnits(p, key, s.scrap).events, ReworkCreated(b.product, s.rework, b.station));
  }

  lemma YieldExplained(c: Setting, p: Phase, b: Batch, s: Split, cost: int)
    requires Explained(c, p.events) && Judged(c, b, s) && s.Good(b.units) == b.units - s.scrap - s.rework - s.hold
    ensures var key, release := WipKey(b.product, b.station), c.env.round + Max(ProfileOf(c.env, b).holdRounds, 1);
            Explained(c, StockUnits(HoldUnits(p, key, s.hold, cost, c.env.round, release), key, s.Good(b.units), cost).events)
  {
    hide Explained, Judged, Add, AddHold, ProfileOf;
    var key, release := WipKey(b.product, b.station), c.env.round + Max(ProfileOf(c.env, b).holdRounds, 1);
    PartExplained(c, b, s, p.events, HoldPlaced(b.product, s.hold, release, Some(b.station)));
    PartExplained(c, b, s, HoldUnits(p, key, s.hold, cost, c.env.round, release).events,
                  FinishedProduced(b.product, b.units - s.scrap - s.rework - s.hold, b.station));
  }

  lemma RatesNotNegative(p: Profile)
    ensures var n := Normalized(p); n.scrapPct >= 0 && n.reworkPct >= 0 && n.holdPct >= 0
  {
  }

  lemma RouteEnds(c: Setting, st: MatchState, key: WipKey)
    requires c.env.cfg.route(st, c.env.round, key.product, key.station).finished
    ensures exists next: WorkstationID :: RouteSays(c.env, key.product, key.station, RouteStep(next, true))
  {
    assert RouteSays(c.env, key.product, key.station, RouteStep(c.env.cfg.route(st, c.env.round, key.product, key.station).next, true));
  }

  lemma PartExplained(c: Setting, b: Batch, s: Split, log: seq<Event>, e: Event)
    requires Judged(c, b, s) && Explained(c, log)
    requires || e == Scrapped(b.product, s.scrap, b.station)
             || e == ReworkCreated(b.product, s.rework, b.station)
             || e == HoldPlaced(b.product, s.hold, c.env.round + Max(ProfileOf(c.env, b).holdRounds, 1), Some(b.station))
             || e == FinishedProduced(b.product, b.units - s.scrap - s.rework - s.hold, b.station)
    ensures Explained(c, log + [e])
  {
    hide Explained, HasReason, Judged, ProfileOf;
    PartsExplained(c, b, s, log + [e]);
    MoreExplained(c, log, [e]);
  }

  lemma MoveExplained(c: Setting, p: Phase, key: WipKey, qty: int, cost: int, overtime: bool)
    requires Explained(c, p.events) && qty > 0 && Allocated(c, key.product, key.station, qty)
    ensures Explained(c, MoveUnits(c.env, p, key, qty, cost, overtime).events)
  {
    hide Explained, Allocated, CompleteUnits, Add;
    var route := c.env.cfg.route(p.st, c.env.round, key.product, key.station);
    if route.finished {
      CompletionExplained(c, p, key, qty, cost, overtime);
    } else {
      assert RouteSays(c.env, key.product, key.station, RouteStep(route.next, false));
      if route.next == NO_STATION {
        MoreExplained(c, p.events, [AdvanceIgnored(key.product, qty, key.station)]);
      } else {
        MoreExplained(c, p.events, [WorkAdvanced(key.product, qty, key.station, route.next)]);
      }
    }
  }

  lemma BookingExplained(c: Setting, s: Producing, i: nat, plan: Plan)
    requires i < |s.p.st.plant.stations| && Explained(c, s.p.events)
    ensures Explained(c, BookAdvance(s, i, plan).p.events)
  {
    hide Explained, HasReason, ConsumeLabor, OvertimeUsed, Plain;
    var w := s.p.st.plant.stations[i];
    var used := OvertimeUsed(w, plan.advance, At(s.overtime, w.id));
    ArrivalIsPlain(c, OvertimeApplied(w.id, used));
    PlainlyExplained(c, s.p.events, [OvertimeApplied(w.id, used)]);
  }

  lemma AdvanceExplained(c: Setting, s: Producing, cap: int, a: ActionSubmission, k: nat)
    requires Acts(c, ProductionManager, a) && a.action.production.Some? && k < |a.action.production.value.allocations|
    requires Explained(c, s.p.events)
    ensures Explained(c, Advance(c.env, s, cap, a.action.production.value.allocations[k]).p.events)
  {
    hide Explained, PlanAdvance, BookAdvance, MoveUnits, Take, TakeCost, OvertimeUsed, StressedCapacity, LaborLeft, QtyOf;
    var t := a.action.production.value.allocations[k];
    var i := StationIndex(s.p.st.plant.stations, t.station);
    if t.capacity > 0 && i < |s.p.st.plant.stations| {
      var p := MeasureStress(s.p, i);
      var plan := PlanAdvance(c.env, p, i, At(s.overtime, t.station), cap, s.spent, t);
      PlanWithinLimits(c.env, p, i, At(s.overtime, t.station), cap, s.spent, t);
      if plan.advance > 0 {
        var key := WipKey(t.product, t.station);
        var cost := PerUnitCost(TakeCost(p.st.plant.wip, key, plan.advance, 0), plan.advance);
        var overtime := OvertimeUsed(p.st.plant.stations[i], plan.advance, At(s.overtime, t.station)) > 0;
        var taken := s.(p := TakeWip(p, key, plan.advance));
        BookingExplained(c, taken, i, plan);
        assert Serves(t, key.product, key.station, plan.advance);
        assert Allocated(c, key.product, key.station, plan.advance);
        MoveExplained(c, BookAdvance(taken, i, plan).p, key, plan.advance, cost, overtime);
      }
    }
  }

  lemma {:induction false} AdvancesExplained(c: Setting, s: Producing, cap: int, a: ActionSubmission, k: nat)
    requires Acts(c, ProductionManager, a) && a.action.production.Some? && k <= |a.action.production.value.allocations|
    requires Explained(c, s.p.events)
    ensures Explained(c, AdvanceAll(c.env, s, cap, a.action.production.value.allocations[k..]).p.events)
    decreases |a.action.production.value.allocations| - k
  {
    hide Explained, Advance, Acts;
    var allocations := a.action.production.value.allocations;
    if k < |allocations| {
      AdvanceExplained(c, s, cap, a, k);
      assert allocations[k..][1..] == allocations[k + 1..];
      AdvancesExplained(c, Advance(c.env, s, cap, allocations[k]), cap, a, k + 1);
    }
  }

  /** The first workstation of a phase state is the one the round opened with. */
  ghost predicate SameFirst(c: Setting, p: Phase) {
    |p.st.plant.stations| == |c.st.plant.stations| && (|c.st.plant.stations| > 0 ==> p.st.plant.stations[0].id == c.st.plant.stations[0].id)
  }

  lemma ProductionExplained(c: Setting, p: Phase)
    requires Explained(c, p.events) && SameFirst(c, p)
    ensures Explained(c, ResolveProduction(c.env, p, ActionFor(c.actions, ProductionManager)).events)
  {
    hide Explained, ReleaseAll, AdvanceAll, RequestOvertime, ProjectCashDelta, Acts;
    var action := ActionFor(c.actions, ProductionManager);
    ActionActs(c.actions, ProductionManager);
    if action.Some? && action.value.action.production.Some? && |p.st.plant.stations| > 0 {
      var todo, first := action.value.action.production.value, p.st.plant.stations[0].id;
      assert Acts(c, ProductionManager, action.value) by { ActionFound(c, ProductionManager); }
      assert todo.releases[0..] == todo.releases && todo.allocations[0..] == todo.allocations;
      AllReleasesExplained(c, p, first, action.value, 0);
      var released := ReleaseAll(c.env, p, first, todo.releases);
      AdvancesExplained(c, Producing(released, RequestOvertime(map[], todo.overtime), 0),
                        CappedBudget(released.st.targets.productionSpendBudget), action.value, 0);
    }
  }

  lemma ActionFound(c: Setting, role: RoleID)
    ensures var a := ActionFor(c.actions, role); a.Some? ==> Acts(c, role, a.value)
  {
    ActionActs(c.actions, role);
  }

  // ---------------------------------------------------------------- sales, step by step

  lemma {:induction false} OnlyAction(actions: seq<ActionSubmission>, role: RoleID, a: ActionSubmission)
    requires DistinctRoles(actions) && a in actions && a.role == role
    ensures ActionFor(actions, role) == Some(a)
  {
    if actions[0].role != role {
      assert a in actions[1..];
      OnlyAction(actions[1..], role, a);
    } else {
      var i :| 0 <= i < |actions| && actions[i] == a;
    }
  }

  lemma NoOffers(product: ProductID, price: int)
    ensures OfferedPrice([], product, price) <==> price == 1
  {
  }

  lemma PriceExplained(c: Setting, product: ProductID)
    requires DistinctRoles(c.actions)
    ensures PriceReason(c, product, Price(SalesPrices(ActionFor(c.actions, SalesManager)), product))
  {
    hide OfferedPrice, SalesPrices, Price, DistinctRoles;
    var action := ActionFor(c.actions, SalesManager);
    ActionFound(c, SalesManager);
    SoldAtLastOffer(action, product);
    if action.Some? && action.value.action.sales.Some? {
      assert Acts(c, SalesManager, action.value);
    } else {
      NoOffers(product, Price(SalesPrices(action), product));
      forall a | Acts(c, SalesManager, a) ensures a.action.sales.None? {
        OnlyAction(c.actions, SalesManager, a);
      }
    }
  }

  /** Customers keep their identifiers and payment delays until the world is updated. */
  ghost predicate SameCredit(a: seq<Customer>, b: seq<Customer>) {
    |a| == |b| && forall i | 0 <= i < |a| :: a[i].id == b[i].id && a[i].paymentDelay == b[i].paymentDelay
  }

  lemma CreditGiven(env: Env, opening: seq<Customer>, customers: seq<Customer>, id: CustomerID)
    requires SameCredit(opening, customers)
    ensures Credit(env, opening, id, PaymentDelay(env, customers, id))
  {
    var i := CustomerIndex(customers, id);
    assert i < |customers| ==> FirstCustomer(opening, i, id);
  }

  lemma ReturnsJudged(c: Setting, p: Phase, customer: CustomerID, product: ProductID, qty: int)
    requires qty > 0
    ensures var s := Consignment(customer, product, qty, p.st, p.drawn);
            var profile := Normalized(c.env.cfg.quality(p.st, c.env.round, Shipment(product, customer, qty)));
            profile == ReturnProfile(c.env, s) &&
            ComesBack(c.env, s, ReturnQuantity(qty, profile.returnPct, c.env.random, p.drawn))
  {
    hide Normalized, ReturnQuantity, ReturnedByRate;
    var profile := Normalized(c.env.cfg.quality(p.st, c.env.round, Shipment(product, customer, qty)));
    ReturnsFollowRate(qty, profile.returnPct, c.env.random, p.drawn);
  }

  /** The events of one shipment: what is owed for it, the shipment itself, and what is promised to come back. */
  function ShipmentLog(owed: seq<Event>, shipment: Event, back: seq<Event>): seq<Event> { owed + [shipment] + back }

  lemma ShipmentExplained(c: Setting, log: seq<Event>, owed: seq<Event>, shipment: Event, back: seq<Event>,
                          delay: int, item: CashCommitment, s: Consignment, returned: int, promise: CustomerReturn)
    requires Explained(c, log)
    requires shipment.Shipped? && shipment.qty > 0 && shipment.price > 0 && PriceReason(c, shipment.product, shipment.price)
    requires Credit(c.env, c.st.customers, shipment.customer, delay)
    requires item.kind.Receivable? && item.amount == shipment.qty * shipment.price && item.due == c.env.round + delay
    requires item.created == item.id.round == c.env.round && item.id.kind == item.kind
    requires owed == if delay > 0 then [Scheduled(item)] else []
    requires s.customer == shipment.customer && s.product == shipment.product && s.units == shipment.qty
    requires ComesBack(c.env, s, returned)
    requires returned > 0 ==> Promises(c.env, s, promise) && promise.qty == returned
    requires back == if returned > 0 then [ReturnScheduled(promise)] else []
    ensures Explained(c, log + ShipmentLog(owed, shipment, back))
  {
    hide Explained, PriceReason, Credit, ComesBack, Promises;
    var more := ShipmentLog(owed, shipment, back);
    var all := log + more;
    assert more[|owed|] == shipment;
    assert shipment in all;
    assert returned > 0 ==> more[|owed| + 1] == ReturnScheduled(promise) && ReturnScheduled(promise) in all;
    assert delay > 0 ==> more[0] == Scheduled(item) && Scheduled(item) in all;
    AmountPositive(shipment.qty, shipment.price);
    assert Invoiced(c, all, shipment.customer, shipment.qty * shipment.price);
    assert ReturnsPromised(c, all, shipment.customer, shipment.product, shipment.qty);
    forall e | e in more ensures HasReason(c, all, e) {
      assert e in owed || e == shipment || e in back;
    }
    MoreExplained(c, log, more);
  }

  lemma AmountPositive(a: int, b: int)
    requires a > 0 && b > 0
    ensures a * b > 0
  {
  }

  lemma OwedLog(env: Env, p: Phase, amount: int, delay: int)
    requires amount > 0
    ensures ScheduleReceivable(env, p, amount, delay).events == p.events +
              (if delay > 0 then [Scheduled(NewCommitment(Receivable, env.round, |p.st.plant.receivables|, amount, delay))] else [])
  {
    hide ProjectCashDelta;
  }

  function PromiseOf(env: Env, p: Phase, s: Consignment, returned: int, cost: int): CustomerReturn {
    CustomerReturn(ReturnID(env.round, |p.st.plant.pendingReturns| + 1), s.customer, s.product, returned, cost,
                   env.round + Max(ReturnProfile(env, s).returnDelay, 1), env.round)
  }

  lemma BackLog(env: Env, p: Phase, s: Consignment, cost: int)
    requires s.units > 0 && s.st == p.st && s.from == p.drawn
    ensures var returned := ReturnQuantity(s.units, ReturnProfile(env, s).returnPct, env.random, p.drawn);
            ScheduleReturns(env, p, s.customer, s.product, s.units, cost).events ==
            p.events + (if returned > 0 then [ReturnScheduled(PromiseOf(env, p, s, returned, cost))] else [])
  {
    hide ReturnQuantity, DrawnForReturns, Normalized;
  }

  lemma SaleExplained(c: Setting, s: Selling, entry: BacklogEntry)
    requires DistinctRoles(c.actions) && SameCredit(c.st.customers, s.p.st.customers) && Explained(c, s.p.events)
    ensures Explained(c, ShipEntry(c.env, s, SalesPrices(ActionFor(c.actions, SalesManager)), entry).p.events)
  {
    hide Explained, ScheduleReceivable, ScheduleReturns, QtyOf, CostOf, PaymentDelay, SalesPrices, Price, Take, SameCredit;
    hide ReturnQuantity, PriceReason, Credit, ComesBack, ReturnProfile;
    var prices, finished := SalesPrices(ActionFor(c.actions, SalesManager)), s.p.st.plant.finished;
    var qty, price := Min(entry.qty, QtyOf(finished, entry.product)), Price(prices, entry.product);
    if qty > 0 {
      var sold, delay := Ship(s.p, entry, qty, price), PaymentDelay(c.env, s.p.st.customers, entry.customer);
      PositivePrice(prices, entry.product);
      AmountPositive(qty, price);
      OwedLog(c.env, sold, qty * price, delay);
      var due := ScheduleReceivable(c.env, sold, qty * price, delay);
      var shipment := Shipped(entry.customer, entry.product, qty, price);
      var logged := due.Log(shipment);
      var batch := Consignment(entry.customer, entry.product, qty, logged.st, logged.drawn);
      var cost := CostOf(finished, entry.product);
      BackLog(c.env, logged, batch, cost);
      var returned := ReturnQuantity(qty, ReturnProfile(c.env, batch).returnPct, c.env.random, logged.drawn);
      ReturnsJudged(c, logged, entry.customer, entry.product, qty);
      PriceExplained(c, entry.product);
      CreditGiven(c.env, c.st.customers, s.p.st.customers, entry.customer);
      var item := NewCommitment(Receivable, c.env.round, |sold.st.plant.receivables|, qty * price, delay);
      var promise := PromiseOf(c.env, logged, batch, returned, cost);
      var owed := if delay > 0 then [Scheduled(item)] else [];
      var back := if returned > 0 then [ReturnScheduled(promise)] else [];
      ShipmentExplained(c, s.p.events, owed, shipment, back, delay, item, batch, returned, promise);
      assert ScheduleReturns(c.env, logged, entry.customer, entry.product, qty, cost).events ==
             s.p.events + ShipmentLog(owed, shipment, back);
    }
  }

  lemma PositivePrice(prices: map<ProductID, int>, product: ProductID)
    ensures Price(prices, product) > 0
  {
  }

  lemma ShipEntryKeepsCustomers(env: Env, s: Selling, prices: map<ProductID, int>, entry: BacklogEntry)
    ensures ShipEntry(env, s, prices, entry).p.st.customers == s.p.st.customers
  {
    hide ReturnQuantity, Normalized, ProjectCashDelta, Take, QtyOf, CostOf, Price, PaymentDelay, DrawnForReturns;
  }

  lemma {:induction false} SalesAllExplained(c: Setting, s: Selling, entries: seq<BacklogEntry>)
    requires DistinctRoles(c.actions) && SameCredit(c.st.customers, s.p.st.customers) && Explained(c, s.p.events)
    ensures Explained(c, ShipAll(c.env, s, SalesPrices(ActionFor(c.actions, SalesManager)), entries).p.events)
    decreases |entries|
  {
    hide Explained, ShipEntry, SalesPrices, SameCredit, DistinctRoles;
    if |entries| > 0 {
      var prices := SalesPrices(ActionFor(c.actions, SalesManager));
      SaleExplained(c, s, entries[0]);
      ShipEntryKeepsCustomers(c.env, s, prices, entries[0]);
      SalesAllExplained(c, ShipEntry(c.env, s, prices, entries[0]), entries[1..]);
    }
  }

  lemma SalesExplained(c: Setting, p: Phase)
    requires DistinctRoles(c.actions) && SameCredit(c.st.customers, p.st.customers) && Explained(c, p.events)
    ensures Explained(c, ResolveSales(c.env, p, ActionFor(c.actions, SalesManager)).events)
  {
    hide Explained, ShipAll, SalesPrices, SameCredit, DistinctRoles, EffectiveBacklog, SyncCustomers;
    SalesAllExplained(c, Selling(p, [], []), c.env.cfg.sort(EffectiveBacklog(p.st)));
  }

  // ---------------------------------------------------------------- the end of the round, step by step

  lemma {:induction false} AgingAllExplained(c: Setting, a: Aging, entries: seq<BacklogEntry>)
    requires Explained(c, a.p.events)
    ensures Explained(c, AgeAll(c.env, a, entries).p.events)
    decreases |entries|
  {
    hide Explained, Disappoint, Plain;
    if |entries| > 0 {
      var lost := BacklogExpired(entries[0].customer, entries[0].product, entries[0].qty);
      ArrivalIsPlain(c, lost);
      PlainlyExplained(c, a.p.events, [lost]);
      AgingAllExplained(c, AgeEntry(c.env, a, entries[0]), entries[1..]);
    }
  }

  lemma {:induction false} SettlingExplained(c: Setting, p: Phase, items: seq<CashCommitment>)
    requires Explained(c, p.events) && forall item | item in items :: item.due <= c.env.round
    ensures Explained(c, CollectEach(p, items).events) && Explained(c, PayEach(p, items).events)
    decreases |items|
  {
    hide Explained, ProjectCashDelta;
    if |items| > 0 {
      MoreExplained(c, p.events, [Collected(items[0])]);
      MoreExplained(c, p.events, [Paid(items[0])]);
      SettlingExplained(c, CollectOne(p, items[0]), items[1..]);
      SettlingExplained(c, PayOne(p, items[0]), items[1..]);
    }
  }

  lemma SettlementExplained(c: Setting, p: Phase)
    requires Explained(c, p.events)
    ensures Explained(c, CollectReceivablesDue(c.env, p).events) && Explained(c, PayPayablesDue(c.env, p).events)
  {
    hide Explained, CollectEach, PayEach, Filter, Sum;
    var receivables, payables := p.st.plant.receivables, p.st.plant.payables;
    FilterMembers(Matured(c.env.round), receivables);
    FilterMembers(Matured(c.env.round), payables);
    SettlingExplained(c, p.WithPlant(p.st.plant.(receivables := Filter(Open(c.env.round), receivables))), Filter(Matured(c.env.round), receivables));
    SettlingExplained(c, p.WithPlant(p.st.plant.(payables := Filter(Open(c.env.round), payables))), Filter(Matured(c.env.round), payables));
  }

  lemma ClosingExplained(c: Setting, p: Phase, action: Option<ActionSubmission>)
    requires Explained(c, p.events)
    ensures Explained(c, Finalize(c.env, p, action).events)
  {
    hide Explained, AgeAll, CollectReceivablesDue, PayPayablesDue, Sum, HoldingCost, CarryingCost, ProjectCashDelta, SyncCustomers;
    hide EffectiveBacklog, SchedulePayroll;
    AgingAllExplained(c, Aging(p, []), EffectiveBacklog(p.st));
    var aged := AdoptTargets(c.env, AgeBacklog(c.env, p), action);
    SettlementExplained(c, aged);
    SettlementExplained(c, CollectReceivablesDue(c.env, aged));
    var settled := PayPayablesDue(c.env, CollectReceivablesDue(c.env, aged));
    var stations := settled.st.plant.stations;
    var labor, overtime := Sum(StationLaborCost(), stations), Sum(StationOvertimeCost(), stations);
    var stats := settled.stats.(idleLaborUnits := Sum(StationIdle(), stations), payrollExpense := labor + overtime,
                                laborCost := labor, overtimeCost := overtime);
    PayableExplained(c, settled.(stats := stats), labor + overtime);
  }

  // ---------------------------------------------------------------- the round

  /** The world update logs nothing but demand. */
  ghost predicate LogsDemandOnly(cfg: Config) {
    cfg.world.Some? ==>
      forall st: MatchState, actions: seq<ActionSubmission>, drawn: nat ::
        cfg.world.value(st, actions, drawn).Ok? ==>
          forall e | e in cfg.world.value(st, actions, drawn).value.events :: e.DemandRealized? || e.BacklogCreated?
  }

  lemma WorldExplained(c: Setting, p: Phase)
    requires LogsDemandOnly(c.env.cfg) && Explained(c, p.events) && ApplyWorld(c.env, p, c.actions).Ok?
    ensures Explained(c, ApplyWorld(c.env, p, c.actions).value.events)
  {
    hide Explained, Plain;
    if c.env.cfg.world.Some? {
      var events := c.env.cfg.world.value(p.st, c.actions, p.drawn).value.events;
      forall e | e in events ensures Plain(c, e) {
        ArrivalIsPlain(c, e);
      }
      PlainlyExplained(c, p.events, events);
    }
  }

  lemma DisappointKeepsCredit(customers: seq<Customer>, id: CustomerID)
    ensures SameCredit(customers, Disappoint(customers, id))
  {
  }

  lemma CreditFollows(a: seq<Customer>, b: seq<Customer>, d: seq<Customer>)
    requires SameCredit(a, b) && SameCredit(b, d)
    ensures SameCredit(a, d)
  {
  }

  lemma {:induction false} AcceptingKeepsCredit(env: Env, p: Phase, items: seq<CustomerReturn>)
    ensures SameCredit(p.st.customers, AcceptReturns(env, p, items).st.customers)
    decreases |items|
  {
    hide AddHold, Disappoint, SameCredit;
    if |items| > 0 {
      var q := AcceptReturn(env, p, items[0]);
      DisappointKeepsCredit(p.st.customers, items[0].customer);
      AcceptingKeepsCredit(env, q, items[1..]);
      CreditFollows(p.st.customers, q.st.customers, AcceptReturns(env, q, items[1..]).st.customers);
    } else {
      KeepsCredit(p.st.customers);
    }
  }

  lemma KeepsCredit(customers: seq<Customer>)
    ensures SameCredit(customers, customers)
  {
  }

  lemma SyncKeepsCredit(customers: seq<Customer>, backlog: seq<BacklogEntry>)
    ensures SameCredit(customers, SyncCustomers(customers, backlog))
  {
  }

  /** Before production nothing touches the workstations, nor what customers are called and when they pay. */
  lemma EarlyPhasesKeep(env: Env, p: Phase, actions: seq<ActionSubmission>)
    ensures var q := BeforeProduction(env, p, actions);
            q.st.plant.stations == p.st.plant.stations && SameCredit(p.st.customers, q.st.customers)
  {
    hide ResolveProcurement, ReceiveSupply, ReleaseInspectionHolds, AcceptReturns, Filter, SyncCustomers, SameCredit;
    var p1 := Bought(env, p, actions);
    ProcurementFrame(env, p, ActionFor(actions, ProcurementManager));
    var p2 := ReceiveSupply(env, p1);
    SupplyFrame(env, p1);
    var p3 := ReleaseInspectionHolds(env, p2);
    HoldsFrame(env, p2);
    ReturnsFrame(env, p3);
    var items := p3.st.plant.pendingReturns;
    var open := p3.WithPlant(p3.st.plant.(pendingReturns := Filter(DueAfter(env.round), items)));
    AcceptingKeepsCredit(env, open, Filter(DueBy(env.round), items));
    var r := AcceptReturns(env, open, Filter(DueBy(env.round), items));
    SyncKeepsCredit(r.st.customers, r.st.plant.backlog);
    CreditFollows(p.st.customers, r.st.customers, SyncCustomers(r.st.customers, r.st.plant.backlog));
  }

  lemma BeforeWorldExplained(c: Setting, drawn: nat)
    requires DistinctRoles(c.actions)
    ensures Explained(c, BeforeWorld(c.env, Begin(c.st, drawn), c.actions).events)
  {
    hide Explained, ResolveProcurement, ReceiveSupply, ReleaseInspectionHolds, ProcessCustomerReturns, ResolveProduction;
    hide ResolveSales, SameCredit, DistinctRoles;
    var begin := Begin(c.st, drawn);
    NothingToExplain(c);
    ProcurementExplained(c, begin);
    var p1 := Bought(c.env, begin, c.actions);
    SupplyExplained(c, p1);
    HoldsExplained(c, ReceiveSupply(c.env, p1));
    ReturnsExplained(c, ReleaseInspectionHolds(c.env, ReceiveSupply(c.env, p1)));
    EarlyPhasesKeep(c.env, begin, c.actions);
    var p2 := BeforeProduction(c.env, begin, c.actions);
    ProductionExplained(c, p2);
    ProductionFrame(c.env, p2, ActionFor(c.actions, ProductionManager));
    SalesExplained(c, ResolveProduction(c.env, p2, ActionFor(c.actions, ProductionManager)));
  }

  lemma NothingToExplain(c: Setting)
    ensures Explained(c, [])
  {
  }

  /** Every event in the record of a round has its reason. */
  ghost predicate RecordExplained(cfg: Config, random: Random, st: MatchState, record: RoundRecord) {
    Explained(Setting(EnvOf(cfg, random, st), st, record.actions), record.events)
  }

  /**
   Every event of every round has its reason: in the accepted actions, in the terms, bills, routes and profiles the
   hooks gave in that round, in the rolls, and in the other events it belongs to.
   */
  lemma EveryEventHasItsReason(cfg: Config, random: Random, drawn: nat, st: MatchState, actions: seq<ActionSubmission>, r: RoundResult)
    requires LogsDemandOnly(cfg) && Resolved(cfg, random, drawn, st, actions, r)
    ensures RecordExplained(cfg, random, st, r.record)
  {
    hide Explained, BeforeWorld, ApplyWorld, Finalize, NormalizeActions, ComputeMetrics, LogsDemandOnly, Rank;
    NormalizeIsCanonical(st, actions);
    var ordered := NormalizeActions(st, actions).value;
    var c := Setting(EnvOf(cfg, random, st), st, ordered);
    BeforeWorldExplained(c, drawn);
    var p := BeforeWorld(c.env, Begin(st, drawn), ordered);
    WorldExplained(c, p);
    ClosingExplained(c, ApplyWorld(c.env, p, ordered).value, ActionFor(ordered, FinanceController));
  }

  ghost predicate RunExplained(cfg: Config, random: Random, st: MatchState, results: seq<RoundResult>)
    decreases |results|
  {
    |results| > 0 ==>
      RecordExplained(cfg, random, st, results[0].record) && RunExplained(cfg, random, results[0].next, results[1..])
  }

  /** The same over any run. */
  lemma {:induction false} EveryRunIsExplained(cfg: Config, random: Random, drawn: nat, st: MatchState, inputs: seq<seq<ActionSubmission>>)
    requires LogsDemandOnly(cfg)
    ensures RunExplained(cfg, random, st, Play(cfg, random, drawn, st, inputs).results)
    decreases |inputs|
  {
    hide Resolve, RecordExplained, LogsDemandOnly;
    if |inputs| > 0 && Resolve(cfg, random, drawn, st, inputs[0]).Ok? {
      var r := Resolve(cfg, random, drawn, st, inputs[0]).value;
      EveryEventHasItsReason(cfg, random, drawn, st, inputs[0], r);
      EveryRunIsExplained(cfg, random, r.drawn, r.next, inputs[1..]);
      var rest := Play(cfg, random, r.drawn, r.next, inputs[1..]);
      assert ([r] + rest.results)[1..] == rest.results;
    }
  }
}
