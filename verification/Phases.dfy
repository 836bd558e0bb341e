/**
 The phases of a round as functions from one phase state to the next. The hooks a scenario supplies are
 arbitrary functions here, and so is the order in which the sort of the source leaves equal entries.
 */
module Phases {
  import opened Seqs
  import opened Domain
  import opened Cash
  import opened Inventory
  import opened Labor
  import opened Quality

  // ---------------------------------------------------------------- configuration

  datatype ProcurementTerms = ProcurementTerms(unitCost: int, minimumOrder: int, leadTime: int, known: bool)

  datatype ProductionBOM = ProductionBOM(known: bool, parts: seq<BOMLine>)

  datatype RouteStep = RouteStep(next: WorkstationID, finished: bool)

  datatype QualityContext =
    | FinalInspection(product: ProductID, station: WorkstationID, quantity: int, stressed: bool, overtime: bool)
    | Shipment(product: ProductID, customer: CustomerID, quantity: int)

  datatype InventoryClass = PartsClass | WipClass | FinishedClass

  /** What a world update returns: the new state, the rolls used so far, and the events it logged. */
  datatype WorldEffect = WorldEffect(st: MatchState, drawn: nat, events: seq<Event>)

  datatype Config = Config(
    historyLimit: int,
    backlogExpiry: int,
    terms: (MatchState, int, PurchaseOrderIntent) -> ProcurementTerms,
    bom: (MatchState, int, ProductID) -> ProductionBOM,
    route: (MatchState, int, ProductID, WorkstationID) -> RouteStep,
    productionCost: (MatchState, int, ProductID, WorkstationID, int) -> int,
    quality: (MatchState, int, QualityContext) -> Profile,
    inventoryCost: Option<(MatchState, int, InventoryClass, int) -> int>,
    receivableDelay: int,
    payableDelay: int,
    payrollDelay: int,
    world: Option<(MatchState, seq<ActionSubmission>, nat) -> Result<WorldEffect>>,
    sort: seq<BacklogEntry> -> seq<BacklogEntry>,
    commentary: (MatchState, seq<ActionSubmission>) -> seq<Commentary>)

  /** The limits and delays as `NewResolver` normalizes them. */
  function NewResolver(options: Config): Config {
    options.(
      historyLimit := if options.historyLimit <= 0 then 10 else options.historyLimit,
      backlogExpiry := if options.backlogExpiry <= 0 then 2 else options.backlogExpiry,
      receivableDelay := Max(options.receivableDelay, 0),
      payableDelay := Max(options.payableDelay, 0),
      payrollDelay := Max(options.payrollDelay, 0))
  }

  ghost predicate ValidConfig(cfg: Config) {
    && cfg.historyLimit > 0
    && cfg.backlogExpiry > 0
    && cfg.receivableDelay >= 0
    && cfg.payableDelay >= 0
    && cfg.payrollDelay >= 0
  }

  datatype Env = Env(cfg: Config, random: Random, round: int, beginningCash: int)

  datatype Stats = Stats(
    revenue: int,
    procurementSpend: int,
    productionSpend: int,
    payrollExpense: int,
    laborCost: int,
    overtimeCost: int,
    holdingCost: int,
    debtServiceCost: int,
    shippedUnits: int,
    producedUnits: int,
    lostSalesUnits: int,
    cashReceipts: int,
    cashDisbursements: int,
    idleLaborUnits: int,
    overtimeUnits: int,
    scrapUnits: int,
    reworkUnits: int,
    customerReturnUnits: int)

  const NO_STATS: Stats := Stats(0, 0, 0, 0, 0, 0, 0, 0, 0, 0, 0, 0, 0, 0, 0, 0, 0, 0)

  datatype Phase = Phase(
    st: MatchState,
    stats: Stats,
    drawn: nat,
    stressed: set<WorkstationID>,
    events: seq<Event>)
  {
    function Plant(): Plant { st.plant }

    function WithPlant(plant: Plant): Phase { this.(st := st.(plant := plant)) }

    function Log(e: Event): Phase { this.(events := events + [e]) }

    /** `applyCashDelta`. */
    function ApplyCash(delta: int): Phase {
      var pos := ProjectCashDelta(st.plant.cash, st.plant.debt, delta);
      WithPlant(st.plant.(cash := pos.cash, debt := pos.debt))
    }

    function Receive(amount: int): Phase {
      var p := ApplyCash(amount);
      p.(stats := p.stats.(cashReceipts := p.stats.cashReceipts + amount))
    }

    function Disburse(amount: int): Phase {
      var p := ApplyCash(-amount);
      p.(stats := p.stats.(cashDisbursements := p.stats.cashDisbursements + amount))
    }
  }

  // ---------------------------------------------------------------- lookups

  function SupplierIndex(suppliers: seq<Supplier>, id: SupplierID): (i: nat)
    ensures i <= |suppliers|
    ensures i < |suppliers| ==> suppliers[i].id == id
    ensures forall j | 0 <= j < i :: suppliers[j].id != id
  {
    if |suppliers| == 0 || suppliers[0].id == id then 0 else 1 + SupplierIndex(suppliers[1..], id)
  }

  function CustomerIndex(customers: seq<Customer>, id: CustomerID): (i: nat)
    ensures i <= |customers|
    ensures i < |customers| ==> customers[i].id == id
    ensures forall j | 0 <= j < i :: customers[j].id != id
  {
    if |customers| == 0 || customers[0].id == id then 0 else 1 + CustomerIndex(customers[1..], id)
  }

  function StationIndex(stations: seq<Workstation>, id: WorkstationID): (i: nat)
    ensures i <= |stations|
    ensures i < |stations| ==> stations[i].id == id
    ensures forall j | 0 <= j < i :: stations[j].id != id
  {
    if |stations| == 0 || stations[0].id == id then 0 else 1 + StationIndex(stations[1..], id)
  }

  // ---------------------------------------------------------------- backlog copies of the customers

  function ForCustomer(id: CustomerID): BacklogEntry -> bool { (e: BacklogEntry) => e.customer == id }

  /** `syncCustomerBacklog`: every customer gets its own entries, in plant order. */
  function SyncCustomers(customers: seq<Customer>, backlog: seq<BacklogEntry>): seq<Customer> {
    seq(|customers|, i requires 0 <= i < |customers| =>
      customers[i].(backlog := Filter(ForCustomer(customers[i].id), backlog)))
  }

  function Disappoint(customers: seq<Customer>, id: CustomerID): seq<Customer> {
    var i := CustomerIndex(customers, id);
    if i < |customers| then customers[i := customers[i].(sentiment := customers[i].sentiment - 1)] else customers
  }

  function CustomerBacklogs(customers: seq<Customer>): seq<BacklogEntry> {
    if |customers| == 0 then [] else customers[0].backlog + CustomerBacklogs(customers[1..])
  }

  /** `effectiveBacklog`: the plant list, or the customer lists where the plant has none. */
  function EffectiveBacklog(st: MatchState): seq<BacklogEntry> {
    if |st.plant.backlog| > 0 then st.plant.backlog else CustomerBacklogs(st.customers)
  }

  function SetBacklog(p: Phase, backlog: seq<BacklogEntry>): Phase {
    p.(st := p.st.(plant := p.st.plant.(backlog := backlog), customers := SyncCustomers(p.st.customers, backlog)))
  }

  // ---------------------------------------------------------------- procurement

  function CappedBudget(target: int): int {
    if target <= 0 then 0 else target + Quot(target, 10)
  }

  function AffordableQuantity(available: int, unitCost: int): int {
    if available <= 0 || unitCost <= 0 then 0 else Quot(available, unitCost)
  }

  function NormalizedTerms(t: ProcurementTerms): ProcurementTerms {
    t.(unitCost := if t.unitCost <= 0 then 1 else t.unitCost, leadTime := if t.leadTime <= 0 then 1 else t.leadTime)
  }

  /** The quantity an order is raised or trimmed to: minimum order, budget cap, spend capacity, minimum again. */
  function AllowedOrder(t: ProcurementTerms, quantity: int, hardCap: int, spent: int, affordable: int): int {
    var asked := if quantity < t.minimumOrder then t.minimumOrder else quantity;
    var budgeted :=
      if hardCap <= 0 then asked
      else if hardCap - spent <= 0 then 0
      else if asked * t.unitCost > hardCap - spent then AffordableQuantity(hardCap - spent, t.unitCost)
      else asked;
    var funded := if budgeted * t.unitCost > affordable then AffordableQuantity(affordable, t.unitCost) else budgeted;
    if 0 < funded < t.minimumOrder then 0 else funded
  }

  datatype Buying = Buying(p: Phase, spent: int)

  function CountOrder(suppliers: seq<Supplier>, id: SupplierID): seq<Supplier> {
    var i := SupplierIndex(suppliers, id);
    if i < |suppliers| then suppliers[i := suppliers[i].(placed := suppliers[i].placed + 1)] else suppliers
  }

  function NewLot(env: Env, action: ActionID, line: nat, order: PurchaseOrderIntent, t: ProcurementTerms, qty: int): SupplyLot {
    SupplyLot(LotID(action, line), order.supplier, order.part, qty, t.unitCost,
              env.round, env.round + t.leadTime, env.round + t.leadTime)
  }

  function BookLot(b: Buying, lot: SupplyLot): Buying {
    var plant := b.p.st.plant;
    var spend := lot.qty * lot.cost;
    var st := b.p.st.(suppliers := CountOrder(b.p.st.suppliers, lot.supplier),
                      plant := plant.(inTransit := plant.inTransit + [lot]));
    var p := b.p.(st := st, stats := b.p.stats.(procurementSpend := b.p.stats.procurementSpend + spend));
    Buying(p.Log(PurchaseOrderPlaced(lot)), b.spent + spend)
  }

  function PlaceOrder(env: Env, b: Buying, hardCap: int, action: ActionID, line: nat, order: PurchaseOrderIntent): Buying {
    if order.quantity <= 0 then b
    else
      var offered := env.cfg.terms(b.p.st, env.round, order);
      if !offered.known then b
      else
        var t := NormalizedTerms(offered);
        var allowed := AllowedOrder(t, order.quantity, hardCap, b.spent, ProjectedSpendCapacity(b.p.st.plant));
        if allowed <= 0 then b else BookLot(b, NewLot(env, action, line, order, t, allowed))
  }

  function PlaceOrders(env: Env, b: Buying, hardCap: int, action: ActionID, line: nat, orders: seq<PurchaseOrderIntent>): Buying
    decreases |orders|
  {
    if |orders| == 0 then b
    else PlaceOrders(env, PlaceOrder(env, b, hardCap, action, line, orders[0]), hardCap, action, line + 1, orders[1..])
  }

  function NewCommitment(kind: CommitmentKind, round: int, others: nat, amount: int, delay: int): CashCommitment {
    CashCommitment(CommitmentID(kind, round, others + 1), kind, amount, round + delay, round)
  }

  function AddPayable(p: Phase, item: CashCommitment): Phase {
    p.WithPlant(p.st.plant.(payables := p.st.plant.payables + [item])).Log(Scheduled(item))
  }

  function SchedulePayable(env: Env, p: Phase, amount: int): Phase {
    if amount <= 0 then p
    else if env.cfg.payableDelay == 0 then p.Disburse(amount)
    else AddPayable(p, NewCommitment(Payable, env.round, |p.st.plant.payables|, amount, env.cfg.payableDelay))
  }

  function ResolveProcurement(env: Env, p: Phase, action: Option<ActionSubmission>): Phase {
    if action.None? || action.value.action.procurement.None? then p
    else
      var cap := CappedBudget(p.st.targets.procurementBudget);
      var b := PlaceOrders(env, Buying(p, 0), cap, action.value.id, 1, action.value.action.procurement.value);
      if b.spent > 0 then SchedulePayable(env, b.p, b.spent) else b.p
  }

  // ---------------------------------------------------------------- supply

  /** Whether the source consults the random source for this lot at all. */
  function MayDelay(env: Env, suppliers: seq<Supplier>, lot: SupplyLot): bool {
    && lot.arrival == lot.promised == env.round
    && env.random.Random?
    && var i := SupplierIndex(suppliers, lot.supplier);
       i < |suppliers| && suppliers[i].lateRounds > 0 && suppliers[i].onTimePct < 100
  }

  function Delays(env: Env, p: Phase, lot: SupplyLot): bool {
    && MayDelay(env, p.st.suppliers, lot)
    && env.random.rolls(p.drawn) >= p.st.suppliers[SupplierIndex(p.st.suppliers, lot.supplier)].onTimePct
  }

  function LateRounds(suppliers: seq<Supplier>, id: SupplierID): int {
    var i := SupplierIndex(suppliers, id);
    if i < |suppliers| then Max(suppliers[i].lateRounds, 0) else 0
  }

  function CountDelay(suppliers: seq<Supplier>, id: SupplierID): seq<Supplier> {
    var i := SupplierIndex(suppliers, id);
    if i < |suppliers|
    then suppliers[i := suppliers[i].(late := suppliers[i].late + 1, score := Max(0, suppliers[i].score - 10))]
    else suppliers
  }

  function CountReceipt(suppliers: seq<Supplier>, id: SupplierID): seq<Supplier> {
    var i := SupplierIndex(suppliers, id);
    if i == |suppliers| then suppliers
    else
      var s := suppliers[i].(received := suppliers[i].received + 1);
      suppliers[i := if s.late == 0 || s.score >= s.onTimePct then s else s.(score := Min(100, s.score + 2))]
  }

  datatype Receiving = Receiving(p: Phase, arrivals: seq<SupplyLot>, remaining: seq<SupplyLot>)

  function SortLot(env: Env, r: Receiving, lot: SupplyLot): Receiving {
    if lot.promised > env.round then r.(remaining := r.remaining + [lot])
    else
      var p := r.p.(drawn := if MayDelay(env, r.p.st.suppliers, lot) then r.p.drawn + 1 else r.p.drawn);
      if Delays(env, r.p, lot) then
        var late := lot.(arrival := lot.promised + LateRounds(p.st.suppliers, lot.supplier));
        var q := p.(st := p.st.(suppliers := CountDelay(p.st.suppliers, lot.supplier)));
        Receiving(q.Log(SupplyDelayed(late)), r.arrivals, r.remaining + [late])
      else if lot.arrival <= env.round then Receiving(p, r.arrivals + [lot], r.remaining)
      else Receiving(p, r.arrivals, r.remaining + [lot])
  }

  function SortLots(env: Env, r: Receiving, lots: seq<SupplyLot>): Receiving
    decreases |lots|
  {
    if |lots| == 0 then r else SortLots(env, SortLot(env, r, lots[0]), lots[1..])
  }

  function StoreLot(p: Phase, lot: SupplyLot): Phase {
    var plant := p.st.plant;
    var st := p.st.(suppliers := CountReceipt(p.st.suppliers, lot.supplier),
                    plant := plant.(parts := Add(plant.parts, lot.part, lot.qty, lot.cost)));
    p.(st := st).Log(SupplyArrived(lot))
  }

  function StoreLots(p: Phase, lots: seq<SupplyLot>): Phase
    decreases |lots|
  {
    if |lots| == 0 then p else StoreLots(StoreLot(p, lots[0]), lots[1..])
  }

  function ReceiveSupply(env: Env, p: Phase): Phase {
    var r := SortLots(env, Receiving(p, [], []), p.st.plant.inTransit);
    StoreLots(r.p.WithPlant(r.p.st.plant.(inTransit := r.remaining)), r.arrivals)
  }

  // ---------------------------------------------------------------- holds and returns

  function HeldUntil(round: int): InspectionHold -> bool { (h: InspectionHold) => h.release > round }

  function ReleasedBy(round: int): InspectionHold -> bool { (h: InspectionHold) => h.release <= round }

  function ReleaseHold(p: Phase, h: InspectionHold): Phase {
    p.WithPlant(p.st.plant.(finished := Add(p.st.plant.finished, h.product, h.qty, h.cost))).Log(HoldReleased(h))
  }

  function ReleaseHolds(p: Phase, holds: seq<InspectionHold>): Phase
    decreases |holds|
  {
    if |holds| == 0 then p else ReleaseHolds(ReleaseHold(p, holds[0]), holds[1..])
  }

  function ReleaseInspectionHolds(env: Env, p: Phase): Phase {
    var holds := p.st.plant.holds;
    var q := ReleaseHolds(p, Filter(ReleasedBy(env.round), holds));
    q.WithPlant(q.st.plant.(holds := Filter(HeldUntil(env.round), holds)))
  }

  function HoldIndex(holds: seq<InspectionHold>, product: ProductID, release: int, reason: HoldReason): (i: nat)
    ensures i <= |holds|
    ensures i < |holds| ==> holds[i].product == product && holds[i].release == release && holds[i].reason == reason
    ensures forall j | 0 <= j < i :: !(holds[j].product == product && holds[j].release == release && holds[j].reason == reason)
  {
    if |holds| == 0 || (holds[0].product == product && holds[0].release == release && holds[0].reason == reason) then 0
    else 1 + HoldIndex(holds[1..], product, release, reason)
  }

  /** Merged holds keep the unit cost they had, unless they had none. */
  function AddHold(holds: seq<InspectionHold>, product: ProductID, qty: int, cost: int,
                   round: int, release: int, reason: HoldReason): seq<InspectionHold> {
    if qty <= 0 then holds
    else
      var i := HoldIndex(holds, product, release, reason);
      if i < |holds|
      then holds[i := holds[i].(qty := holds[i].qty + qty, cost := if holds[i].cost <= 0 then cost else holds[i].cost)]
      else holds + [InspectionHold(product, qty, cost, round, release, reason)]
  }

  /** Units held by final inspection come from a workstation, returned ones from none. */
  function PlaceHold(p: Phase, product: ProductID, qty: int, cost: int, round: int, release: int, reason: HoldReason,
                     origin: Option<WorkstationID>): Phase {
    var plant := p.st.plant;
    p.WithPlant(plant.(holds := AddHold(plant.holds, product, qty, cost, round, release, reason)))
     .Log(HoldPlaced(product, qty, release, origin))
  }

  function DueBy(round: int): CustomerReturn -> bool { (c: CustomerReturn) => c.due <= round }

  function DueAfter(round: int): CustomerReturn -> bool { (c: CustomerReturn) => c.due > round }

  function AcceptReturn(env: Env, p: Phase, item: CustomerReturn): Phase {
    var counted := p.(stats := p.stats.(customerReturnUnits := p.stats.customerReturnUnits + item.qty));
    var held := PlaceHold(counted, item.product, item.qty, item.cost, env.round, env.round + 1, CustomerReturned, None);
    var plant := held.st.plant;
    var entry := BacklogEntry(item.customer, item.product, item.qty, env.round, 0);
    var st := held.st.(plant := plant.(backlog := plant.backlog + [entry]),
                       customers := Disappoint(held.st.customers, item.customer));
    held.(st := st).Log(ReturnReceived(item)).Log(BacklogCreated(item.customer, item.product, item.qty))
  }

  function AcceptReturns(env: Env, p: Phase, items: seq<CustomerReturn>): Phase
    decreases |items|
  {
    if |items| == 0 then p else AcceptReturns(env, AcceptReturn(env, p, items[0]), items[1..])
  }

  function ProcessCustomerReturns(env: Env, p: Phase): Phase {
    var items := p.st.plant.pendingReturns;
    var due := Filter(DueBy(env.round), items);
    var q := AcceptReturns(env, p.WithPlant(p.st.plant.(pendingReturns := Filter(DueAfter(env.round), items))), due);
    if |due| > 0 then SetBacklog(q, q.st.plant.backlog) else q
  }

  // ---------------------------------------------------------------- production

  function RequestOvertime(requests: map<WorkstationID, int>, overtime: seq<OvertimeAllocation>): map<WorkstationID, int>
    decreases |overtime|
  {
    if |overtime| == 0 then requests
    else if overtime[0].capacity <= 0 then RequestOvertime(requests, overtime[1..])
    else
      var o := overtime[0];
      RequestOvertime(requests[o.station := At(requests, o.station) + o.capacity], overtime[1..])
  }

  function AcceptedRelease(parts: seq<Stock<PartID>>, bom: seq<BOMLine>, requested: int): int {
    if |bom| > 0 then Min(requested, MaxBuildable(parts, bom)) else requested
  }

  function ReleaseOne(env: Env, p: Phase, first: WorkstationID, release: ProductionRelease): Phase {
    if release.quantity <= 0 then p
    else
      var bom := env.cfg.bom(p.st, env.round, release.product);
      var plant := p.st.plant;
      var allowed := AcceptedRelease(plant.parts, bom.parts, release.quantity);
      if !bom.known || allowed <= 0 then p
      else
        var used := Consume(plant.parts, bom.parts, allowed, 0);
        var wip := Add(plant.wip, WipKey(release.product, first), allowed, PerUnitCost(used.cost, allowed));
        p.WithPlant(plant.(parts := used.parts, wip := wip))
         .Log(ProductionReleased(release.product, allowed, bom.parts, first))
  }

  function ReleaseAll(env: Env, p: Phase, first: WorkstationID, releases: seq<ProductionRelease>): Phase
    decreases |releases|
  {
    if |releases| == 0 then p else ReleaseAll(env, ReleaseOne(env, p, first, releases[0]), first, releases[1..])
  }

  datatype Producing = Producing(p: Phase, overtime: map<WorkstationID, int>, spent: int)

  /** Congestion is measured again before every allocation. */
  function MeasureStress(p: Phase, i: nat): Phase
    requires i < |p.st.plant.stations|
  {
    var plant := p.st.plant;
    var w := plant.stations[i];
    var c := StressedCapacity(w, Units(AtStation(w.id), plant.wip));
    var station := w.(effective := c.effective, stressLoss := c.loss);
    p.WithPlant(plant.(stations := plant.stations[i := station]))
     .(stressed := if c.loss > 0 then p.stressed + {w.id} else p.stressed)
  }

  datatype Plan = Plan(advance: int, unit: int)

  /** How far an allocation may go: request, capacity, work at hand, labour, then budget and cash. */
  function PlanAdvance(env: Env, p: Phase, i: nat, overtime: int, hardCap: int, spent: int, a: CapacityAllocation): Plan
    requires i < |p.st.plant.stations|
  {
    var plant := p.st.plant;
    var w := plant.stations[i];
    var base := BaseLaborLeft(w);
    var limit := Min(Min(Min(a.capacity, w.effective - w.capacityUsed),
                         QtyOf(plant.wip, WipKey(a.product, a.station))), LaborLeft(w, overtime));
    var quoted := env.cfg.productionCost(p.st, env.round, a.product, a.station, limit);
    var unit := if quoted <= 0 then 1 else quoted;
    var budgeted :=
      if hardCap <= 0 then limit
      else if hardCap - spent <= 0 then 0
      else AffordableAdvance(limit, base, overtime, unit, w.overtimeCost, hardCap - spent);
    var cash := SpendCapacity(Position(plant.cash, plant.debt), plant.debtCeiling);
    Plan(AffordableAdvance(budgeted, base, overtime, unit, w.overtimeCost, cash), unit)
  }

  function TakeWip(p: Phase, key: WipKey, qty: int): Phase {
    p.WithPlant(p.st.plant.(wip := Take(p.st.plant.wip, key, qty)))
  }

  function AddWip(p: Phase, key: WipKey, qty: int, cost: int): Phase {
    p.WithPlant(p.st.plant.(wip := Add(p.st.plant.wip, key, qty, cost)))
  }

  function AddFinished(p: Phase, product: ProductID, qty: int, cost: int): Phase {
    p.WithPlant(p.st.plant.(finished := Add(p.st.plant.finished, product, qty, cost)))
  }

  /** Labour, capacity and spend of an accepted advance. */
  function BookAdvance(s: Producing, i: nat, plan: Plan): Producing
    requires i < |s.p.st.plant.stations|
  {
    var plant := s.p.st.plant;
    var w := plant.stations[i];
    var requested := At(s.overtime, w.id);
    var used := OvertimeUsed(w, plan.advance, requested);
    var booked := ConsumeLabor(w, plan.advance, requested);
    var station := booked.(capacityUsed := booked.capacityUsed + plan.advance);
    var stats := s.p.stats.(productionSpend := s.p.stats.productionSpend + plan.advance * plan.unit,
                            overtimeUnits := s.p.stats.overtimeUnits + Max(used, 0));
    var p := s.p.WithPlant(plant.(stations := plant.stations[i := station])).(stats := stats);
    Producing(if used > 0 then p.Log(OvertimeApplied(w.id, used)) else p,
              s.overtime[w.id := Max(0, requested - used)],
              s.spent + plan.advance * plan.unit + used * w.overtimeCost)
  }

  function ScrapUnits(p: Phase, key: WipKey, qty: int): Phase {
    if qty <= 0 then p
    else p.(stats := p.stats.(scrapUnits := p.stats.scrapUnits + qty)).Log(Scrapped(key.product, qty, key.station))
  }

  function ReworkUnits(p: Phase, key: WipKey, qty: int, cost: int): Phase {
    if qty <= 0 then p
    else
      AddWip(p.(stats := p.stats.(reworkUnits := p.stats.reworkUnits + qty)), key, qty, cost)
        .Log(ReworkCreated(key.product, qty, key.station))
  }

  function HoldUnits(p: Phase, key: WipKey, qty: int, cost: int, round: int, release: int): Phase {
    if qty <= 0 then p else PlaceHold(p, key.product, qty, cost, round, release, ProductionQuality, Some(key.station))
  }

  function StockUnits(p: Phase, key: WipKey, qty: int, cost: int): Phase {
    if qty <= 0 then p
    else
      var q := AddFinished(p, key.product, qty, cost);
      q.(stats := q.stats.(producedUnits := q.stats.producedUnits + qty)).Log(FinishedProduced(key.product, qty, key.station))
  }

  /** `completeFinishedUnits`. */
  function CompleteUnits(env: Env, p: Phase, key: WipKey, qty: int, cost: int, overtime: bool): Phase {
    if qty <= 0 then p
    else
      var ctx := FinalInspection(key.product, key.station, qty, key.station in p.stressed, overtime);
      var profile := Normalized(env.cfg.quality(p.st, env.round, ctx));
      var split := FinishedSplit(qty, profile, env.random, p.drawn);
      var p0 := p.(drawn := Drawn(env.random, p.drawn, qty));
      var p1 := ScrapUnits(p0, key, split.scrap);
      var p2 := ReworkUnits(p1, key, split.rework, cost);
      var p3 := HoldUnits(p2, key, split.hold, cost, env.round, env.round + Max(profile.holdRounds, 1));
      StockUnits(p3, key, split.Good(qty), cost)
  }

  /** Where the advanced units go: to inspection, to the next station, or back for want of a route. */
  function MoveUnits(env: Env, p: Phase, key: WipKey, qty: int, cost: int, overtime: bool): Phase {
    var route := env.cfg.route(p.st, env.round, key.product, key.station);
    if route.finished then CompleteUnits(env, p, key, qty, cost, overtime)
    else if route.next == NO_STATION then AddWip(p, key, qty, cost).Log(AdvanceIgnored(key.product, qty, key.station))
    else AddWip(p, WipKey(key.product, route.next), qty, cost).Log(WorkAdvanced(key.product, qty, key.station, route.next))
  }

  function Advance(env: Env, s: Producing, hardCap: int, a: CapacityAllocation): Producing {
    if a.capacity <= 0 then s
    else
      var i := StationIndex(s.p.st.plant.stations, a.station);
      if i == |s.p.st.plant.stations| then s
      else
        var p := MeasureStress(s.p, i);
        var plan := PlanAdvance(env, p, i, At(s.overtime, a.station), hardCap, s.spent, a);
        if plan.advance <= 0 then s.(p := p)
        else
          var key := WipKey(a.product, a.station);
          var cost := PerUnitCost(TakeCost(p.st.plant.wip, key, plan.advance, 0), plan.advance);
          var overtime := OvertimeUsed(p.st.plant.stations[i], plan.advance, At(s.overtime, a.station)) > 0;
          var booked := BookAdvance(s.(p := TakeWip(p, key, plan.advance)), i, plan);
          booked.(p := MoveUnits(env, booked.p, key, plan.advance, cost, overtime))
  }

  function AdvanceAll(env: Env, s: Producing, hardCap: int, allocations: seq<CapacityAllocation>): Producing
    decreases |allocations|
  {
    if |allocations| == 0 then s else AdvanceAll(env, Advance(env, s, hardCap, allocations[0]), hardCap, allocations[1..])
  }

  function ResolveProduction(env: Env, p: Phase, action: Option<ActionSubmission>): Phase {
    if action.None? || action.value.action.production.None? || |p.st.plant.stations| == 0 then p
    else
      var todo := action.value.action.production.value;
      var overtime := RequestOvertime(map[], todo.overtime);
      var released := ReleaseAll(env, p, p.st.plant.stations[0].id, todo.releases);
      var cap := CappedBudget(released.st.targets.productionSpendBudget);
      var s := AdvanceAll(env, Producing(released, overtime, 0), cap, todo.allocations);
      if s.p.stats.productionSpend > 0 then s.p.Disburse(s.p.stats.productionSpend) else s.p
  }

  // ---------------------------------------------------------------- sales

  function OfferPrices(prices: map<ProductID, int>, offers: seq<ProductOffer>): map<ProductID, int>
    decreases |offers|
  {
    if |offers| == 0 then prices
    else if offers[0].unitPrice <= 0 then OfferPrices(prices, offers[1..])
    else OfferPrices(prices[offers[0].product := offers[0].unitPrice], offers[1..])
  }

  function Price(prices: map<ProductID, int>, product: ProductID): int {
    if At(prices, product) <= 0 then 1 else At(prices, product)
  }

  function PaymentDelay(env: Env, customers: seq<Customer>, id: CustomerID): int {
    var i := CustomerIndex(customers, id);
    if i == |customers| || customers[i].paymentDelay <= 0 then env.cfg.receivableDelay else customers[i].paymentDelay
  }

  function ScheduleReceivable(env: Env, p: Phase, amount: int, delay: int): Phase {
    if amount <= 0 then p
    else if Max(0, delay) == 0 then p.Receive(amount)
    else
      var plant := p.st.plant;
      var item := NewCommitment(Receivable, env.round, |plant.receivables|, amount, delay);
      p.WithPlant(plant.(receivables := plant.receivables + [item])).Log(Scheduled(item))
  }

  function ScheduleReturns(env: Env, p: Phase, customer: CustomerID, product: ProductID, qty: int, cost: int): Phase {
    if qty <= 0 then p
    else
      var profile := Normalized(env.cfg.quality(p.st, env.round, Shipment(product, customer, qty)));
      var returned := ReturnQuantity(qty, profile.returnPct, env.random, p.drawn);
      var q := p.(drawn := DrawnForReturns(env.random, p.drawn, qty, profile.returnPct));
      if returned <= 0 then q
      else
        var plant := q.st.plant;
        var item := CustomerReturn(ReturnID(env.round, |plant.pendingReturns| + 1), customer, product, returned, cost,
                                   env.round + Max(profile.returnDelay, 1), env.round);
        q.WithPlant(plant.(pendingReturns := plant.pendingReturns + [item])).Log(ReturnScheduled(item))
  }

  /** Takes the goods and books the revenue of one shipment. */
  function Ship(p: Phase, entry: BacklogEntry, qty: int, price: int): Phase {
    var plant := p.st.plant;
    p.WithPlant(plant.(finished := Take(plant.finished, entry.product, qty)))
     .(stats := p.stats.(revenue := p.stats.revenue + qty * price, shippedUnits := p.stats.shippedUnits + qty))
  }

  /** `shipped` is a history variable: what each entry got, in shipping order. */
  datatype Selling = Selling(p: Phase, remaining: seq<BacklogEntry>, shipped: seq<int>)

  function ShipEntry(env: Env, s: Selling, prices: map<ProductID, int>, entry: BacklogEntry): Selling {
    var finished := s.p.st.plant.finished;
    var qty := Min(entry.qty, QtyOf(finished, entry.product));
    if qty <= 0 then
      Selling(s.p, if entry.qty > 0 then s.remaining + [entry] else s.remaining, s.shipped + [0])
    else
      var price := Price(prices, entry.product);
      var sold := Ship(s.p, entry, qty, price);
      var due := ScheduleReceivable(env, sold, qty * price, PaymentDelay(env, sold.st.customers, entry.customer));
      var logged := due.Log(Shipped(entry.customer, entry.product, qty, price));
      var p := ScheduleReturns(env, logged, entry.customer, entry.product, qty, CostOf(finished, entry.product));
      var left := entry.(qty := entry.qty - qty);
      Selling(p, if left.qty > 0 then s.remaining + [left] else s.remaining, s.shipped + [qty])
  }

  function ShipAll(env: Env, s: Selling, prices: map<ProductID, int>, entries: seq<BacklogEntry>): Selling
    decreases |entries|
  {
    if |entries| == 0 then s else ShipAll(env, ShipEntry(env, s, prices, entries[0]), prices, entries[1..])
  }

  function SalesPrices(action: Option<ActionSubmission>): map<ProductID, int> {
    if action.None? || action.value.action.sales.None? then map[]
    else OfferPrices(map[], action.value.action.sales.value)
  }

  function ResolveSales(env: Env, p: Phase, action: Option<ActionSubmission>): Phase {
    var backlog := EffectiveBacklog(p.st);
    if |backlog| == 0 then SetBacklog(p, [])
    else
      var s := ShipAll(env, Selling(p, [], []), SalesPrices(action), env.cfg.sort(backlog));
      SetBacklog(s.p, s.remaining)
  }

  // ---------------------------------------------------------------- end of the round

  datatype Aging = Aging(p: Phase, aged: seq<BacklogEntry>)

  function AgeEntry(env: Env, a: Aging, entry: BacklogEntry): Aging {
    var older := entry.(age := entry.age + 1);
    if older.age > env.cfg.backlogExpiry then
      var p := a.p.(stats := a.p.stats.(lostSalesUnits := a.p.stats.lostSalesUnits + entry.qty),
                    st := a.p.st.(customers := Disappoint(a.p.st.customers, entry.customer)));
      Aging(p.Log(BacklogExpired(entry.customer, entry.product, entry.qty)), a.aged)
    else Aging(a.p, a.aged + [older])
  }

  function AgeAll(env: Env, a: Aging, entries: seq<BacklogEntry>): Aging
    decreases |entries|
  {
    if |entries| == 0 then a else AgeAll(env, AgeEntry(env, a, entries[0]), entries[1..])
  }

  function AgeBacklog(env: Env, p: Phase): Phase {
    var a := AgeAll(env, Aging(p, []), EffectiveBacklog(p.st));
    SetBacklog(a.p, a.aged)
  }

  function AdoptTargets(env: Env, p: Phase, action: Option<ActionSubmission>): Phase {
    if action.None? || action.value.action.finance.None? then p
    else
      var targets := action.value.action.finance.value.(effectiveRound := env.round + 1);
      p.(st := p.st.(targets := targets, plant := p.st.plant.(debtCeiling := targets.debtCeilingTarget)))
  }

  function Matured(round: int): CashCommitment -> bool { (c: CashCommitment) => c.due <= round }

  function Open(round: int): CashCommitment -> bool { (c: CashCommitment) => c.due > round }

  function CollectOne(p: Phase, item: CashCommitment): Phase { p.ApplyCash(item.amount).Log(Collected(item)) }

  function PayOne(p: Phase, item: CashCommitment): Phase { p.ApplyCash(-item.amount).Log(Paid(item)) }

  function CollectEach(p: Phase, items: seq<CashCommitment>): Phase
    decreases |items|
  {
    if |items| == 0 then p else CollectEach(CollectOne(p, items[0]), items[1..])
  }

  function PayEach(p: Phase, items: seq<CashCommitment>): Phase
    decreases |items|
  {
    if |items| == 0 then p else PayEach(PayOne(p, items[0]), items[1..])
  }

  function CollectReceivablesDue(env: Env, p: Phase): Phase {
    var items := p.st.plant.receivables;
    var due := Filter(Matured(env.round), items);
    var q := CollectEach(p.WithPlant(p.st.plant.(receivables := Filter(Open(env.round), items))), due);
    var collected := Sum(Amount(), due);
    if collected > 0 then q.(stats := q.stats.(cashReceipts := q.stats.cashReceipts + collected)) else q
  }

  function PayPayablesDue(env: Env, p: Phase): Phase {
    var items := p.st.plant.payables;
    var due := Filter(Matured(env.round), items);
    var q := PayEach(p.WithPlant(p.st.plant.(payables := Filter(Open(env.round), items))), due);
    var disbursed := Sum(Amount(), due);
    if disbursed > 0 then q.(stats := q.stats.(cashDisbursements := q.stats.cashDisbursements + disbursed)) else q
  }

  function StationLaborCost(): Workstation -> int {
    (w: Workstation) => if w.laborCost > 0 && EffectiveLabor(w) > 0 then EffectiveLabor(w) * w.laborCost else 0
  }

  function StationOvertimeCost(): Workstation -> int {
    (w: Workstation) => if w.overtimeCost > 0 && w.overtimeUsed > 0 then w.overtimeUsed * w.overtimeCost else 0
  }

  function StationIdle(): Workstation -> int {
    (w: Workstation) => if EffectiveLabor(w) > w.laborUsed then EffectiveLabor(w) - w.laborUsed else 0
  }

  function SchedulePayroll(env: Env, p: Phase, amount: int): Phase {
    if amount <= 0 then p
    else if env.cfg.payrollDelay == 0 then
      p.Disburse(amount)
    else AddPayable(p, NewCommitment(Payroll, env.round, |p.st.plant.payables|, amount, env.cfg.payrollDelay))
  }

  function ApplyLaborCosts(env: Env, p: Phase): Phase {
    var stations := p.st.plant.stations;
    var labor, overtime := Sum(StationLaborCost(), stations), Sum(StationOvertimeCost(), stations);
    var stats := p.stats.(idleLaborUnits := Sum(StationIdle(), stations), payrollExpense := labor + overtime,
                          laborCost := labor, overtimeCost := overtime);
    SchedulePayroll(env, p.(stats := stats), labor + overtime)
  }

  function CarryingCost(amount: int): int {
    if amount <= 0 then 0 else Max(1, Quot(amount + 9, 10))
  }

  function HoldingCost(env: Env, st: MatchState): int {
    var parts, wip, finished := Value(st.plant.parts), Value(st.plant.wip), Value(st.plant.finished);
    match env.cfg.inventoryCost
    case None => CarryingCost(parts + wip + finished)
    case Some(hook) =>
      hook(st, env.round, PartsClass, parts) + hook(st, env.round, WipClass, wip)
      + hook(st, env.round, FinishedClass, finished)
  }

  function ApplyOperatingCosts(env: Env, p: Phase): Phase {
    var holding, debt := HoldingCost(env, p.st), CarryingCost(p.st.plant.debt);
    var q := if holding + debt > 0 then p.Disburse(holding + debt) else p;
    q.(stats := q.stats.(holdingCost := holding, debtServiceCost := debt))
  }

  // ---------------------------------------------------------------- metrics

  function EntryQty(): BacklogEntry -> int { (e: BacklogEntry) => e.qty }

  function HoldQty(): InspectionHold -> int { (h: InspectionHold) => h.qty }

  function HoldValue(): InspectionHold -> int { (h: InspectionHold) => h.qty * h.cost }

  function StationLoss(): Workstation -> int { (w: Workstation) => w.stressLoss }

  function SupplierScore(): Supplier -> int { (s: Supplier) => s.score }

  function AverageReliability(suppliers: seq<Supplier>): int {
    if |suppliers| == 0 then 0 else Quot(Sum(SupplierScore(), suppliers), |suppliers|)
  }

  function Expense(s: Stats): int {
    s.procurementSpend + s.productionSpend + s.payrollExpense + s.holdingCost + s.debtServiceCost
  }

  function OnTimeRate(shipped: int, backlog: int, lost: int): int {
    if shipped + backlog + lost > 0 then Quot(shipped * 100, shipped + backlog + lost) else 100
  }

  function ComputeMetrics(env: Env, p: Phase): Metrics {
    var plant, s := p.st.plant, p.stats;
    var backlog := Sum(EntryQty(), plant.backlog);
    Metrics(
      s.revenue, Expense(s), s.procurementSpend, s.productionSpend, s.payrollExpense, s.laborCost, s.overtimeCost,
      s.holdingCost, s.debtServiceCost,
      Value(plant.parts) + Value(plant.wip) + Value(plant.finished) + Sum(HoldValue(), plant.holds),
      plant.cash - env.beginningCash, s.cashReceipts, s.cashDisbursements, plant.cash, s.revenue - Expense(s),
      OnTimeRate(s.shippedUnits, backlog, s.lostSalesUnits), backlog, s.lostSalesUnits,
      Units(AnyKey(), plant.parts), Units(AnyKey(), plant.finished), Sum(HoldQty(), plant.holds),
      s.producedUnits, Sum(StationLoss(), plant.stations), s.idleLaborUnits, s.overtimeUnits, s.scrapUnits,
      s.reworkUnits, s.customerReturnUnits, AverageReliability(p.st.suppliers))
  }

  function Finalize(env: Env, p: Phase, action: Option<ActionSubmission>): Phase {
    var aged := AdoptTargets(env, AgeBacklog(env, p), action);
    var settled := PayPayablesDue(env, CollectReceivablesDue(env, aged));
    ApplyOperatingCosts(env, ApplyLaborCosts(env, settled))
  }
}
