/**
 Double-entry bookkeeping of a round. Every account has a stock, read from the plant and the statistics,
 and movements, read from the event log. Each phase leaves the difference of the two unchanged, so over a
 round the log explains every change of stock exactly.
 */
module Ledger {
  import opened Seqs
  import opened Domain
  import opened Cash
  import opened Inventory
  import opened Phases

  datatype Account =
    | Accrual                                             // net position less the profit of the round so far
    | CashFlow                                            // cash less debt, less receipts, plus disbursements
    | ProductUnits(product: ProductID)                    // work in progress, finished goods and holds
    | WorkAt(work: WipKey)                                // work in progress of a product at one workstation
    | StationWork(worker: WorkstationID)                  // capacity used at a workstation
    | PartUnits(part: PartID)                             // parts on hand and in transit
    | BacklogUnits(customer: CustomerID, ordered: ProductID)
    | ReturnItem(item: CustomerReturn)                    // occurrences of one pending return
    | ReceivableItem(receivable: CashCommitment)
    | PayableItem(payable: CashCommitment)
    | CollectedItem(collected: CashCommitment)            // collections of one receivable, from the log alone
    | PaidItem(paid: CashCommitment)                      // payments of one payable, from the log alone
    | LotItem(lot: SupplyLot)                             // occurrences of one lot, whatever its arrival round
    | ArrivedLot(arrived: SupplyLot)                      // receipts of one order, from the log alone
    | ReceivedReturn(received: CustomerReturn)            // arrivals of one return, from the log alone
    | ReleasedHold(released: InspectionHold)              // releases of one hold, from the log alone
    | HoldUnitsDue(heldProduct: ProductID, dueRound: int) // units of a product on hold until one round
    | Negatives                                           // shipments or losses of a negative quantity: never any
    | ShippedTotal
    | LostTotal
    | ReturnTotal
    | ScrapTotal
    | ReworkTotal
    | ProducedTotal
    | OvertimeTotal
    | RevenueTotal
    | PurchaseTotal                                       // what the orders of the round cost
    | ProductionCost                                      // production spend booked so far
    | PayrollCost
    | HoldingCosts
    | DebtCost

  function HoldOf(product: ProductID): InspectionHold -> int {
    (h: InspectionHold) => if h.product == product then h.qty else 0
  }

  function DueHold(product: ProductID, round: int): InspectionHold -> int {
    (h: InspectionHold) => if h.product == product && h.release == round then h.qty else 0
  }

  function LotOf(part: PartID): SupplyLot -> int { (l: SupplyLot) => if l.part == part then l.qty else 0 }

  function EntryOf(customer: CustomerID, product: ProductID): BacklogEntry -> int {
    (e: BacklogEntry) => if e.customer == customer && e.product == product then e.qty else 0
  }

  function Same<T(==)>(x: T): T -> int { (y: T) => if y == x then 1 else 0 }

  /** The order behind a lot: a delay changes only the arrival round. */
  function Order(lot: SupplyLot): SupplyLot { lot.(arrival := lot.promised) }

  function SameOrder(lot: SupplyLot): SupplyLot -> int { (l: SupplyLot) => if Order(l) == Order(lot) then 1 else 0 }

  function NetWorth(plant: Plant): int {
    plant.cash - plant.debt + Sum(Amount(), plant.receivables) - Sum(Amount(), plant.payables)
  }

  function ProductStock(plant: Plant, product: ProductID): int {
    Units(OfProduct(product), plant.wip) + Units(IsKey(product), plant.finished) + Sum(HoldOf(product), plant.holds)
  }

  function PartStock(plant: Plant, part: PartID): int {
    Units(IsKey(part), plant.parts) + Sum(LotOf(part), plant.inTransit)
  }

  /** What the plant contributes to an account. */
  function PlantHeld(plant: Plant, k: Account): int {
    match k
    case Accrual => NetWorth(plant)
    case CashFlow => plant.cash - plant.debt
    case ProductUnits(product) => ProductStock(plant, product)
    case WorkAt(work) => Units(IsKey(work), plant.wip)
    case StationWork(id) => Sum(UsedAt(id), plant.stations)
    case PartUnits(part) => PartStock(plant, part)
    case BacklogUnits(c, product) => Sum(EntryOf(c, product), plant.backlog)
    case ReturnItem(item) => Sum(Same(item), plant.pendingReturns)
    case ReceivableItem(item) => Sum(Same(item), plant.receivables)
    case PayableItem(item) => Sum(Same(item), plant.payables)
    case LotItem(lot) => Sum(SameOrder(lot), plant.inTransit)
    case HoldUnitsDue(product, round) => Sum(DueHold(product, round), plant.holds)
    case _ => 0
  }

  /** What the statistics of the round contribute. */
  function StatHeld(s: Stats, k: Account): int {
    match k
    case Accrual => Expense(s) - s.revenue
    case CashFlow => s.cashDisbursements - s.cashReceipts
    case ShippedTotal => s.shippedUnits
    case LostTotal => s.lostSalesUnits
    case ReturnTotal => s.customerReturnUnits
    case ScrapTotal => s.scrapUnits
    case ReworkTotal => s.reworkUnits
    case ProducedTotal => s.producedUnits
    case OvertimeTotal => s.overtimeUnits
    case RevenueTotal => s.revenue
    case PurchaseTotal => s.procurementSpend
    case ProductionCost => s.productionSpend
    case PayrollCost => s.payrollExpense
    case HoldingCosts => s.holdingCost
    case DebtCost => s.debtServiceCost
    case _ => 0
  }

  function Held(p: Phase, k: Account): int { PlantHeld(p.st.plant, k) + StatHeld(p.stats, k) }

  /** Units that come to a workstation: released there, or sent on from another one. */
  function EntersAt(work: WipKey, e: Event): int {
    match e
    case ProductionReleased(x, q, _, station) => if work == WipKey(x, station) then q else 0
    case WorkAdvanced(x, q, _, next) => if work == WipKey(x, next) then q else 0
    case _ => 0
  }

  /** Units that leave a workstation: sent on, or finished there as scrap, held or good units. Rework stays. */
  function LeavesFrom(work: WipKey, e: Event): int {
    match e
    case WorkAdvanced(x, q, station, _) => if work == WipKey(x, station) then q else 0
    case Scrapped(x, q, station) => if work == WipKey(x, station) then q else 0
    case HoldPlaced(x, q, _, origin) => if origin.Some? && work == WipKey(x, origin.value) then q else 0
    case FinishedProduced(x, q, station) => if work == WipKey(x, station) then q else 0
    case _ => 0
  }

  /** Units a workstation worked on, whatever became of them. */
  function TreatedAt(id: WorkstationID, e: Event): int {
    match e
    case WorkAdvanced(_, q, station, _) => if station == id then q else 0
    case AdvanceIgnored(_, q, station) => if station == id then q else 0
    case Scrapped(_, q, station) => if station == id then q else 0
    case ReworkCreated(_, q, station) => if station == id then q else 0
    case HoldPlaced(_, q, _, origin) => if origin == Some(id) then q else 0
    case FinishedProduced(_, q, station) => if station == id then q else 0
    case _ => 0
  }

  function UsedAt(id: WorkstationID): Workstation -> int { (w: Workstation) => if w.id == id then w.capacityUsed else 0 }

  /** What one event adds to an account. */
  function Movement(k: Account, e: Event): int {
    match k
    case ProductUnits(product) =>
      (match e
       case ProductionReleased(x, q, _, _) => if x == product then q else 0
       case ReturnReceived(item) => if item.product == product then item.qty else 0
       case Shipped(_, x, q, _) => if x == product then -q else 0
       case Scrapped(x, q, _) => if x == product then -q else 0
       case _ => 0)
    case WorkAt(work) => EntersAt(work, e) - LeavesFrom(work, e)
    case StationWork(id) => TreatedAt(id, e)
    case PartUnits(part) =>
      (match e
       case PurchaseOrderPlaced(lot) => if lot.part == part then lot.qty else 0
       case ProductionReleased(_, q, bom, _) => -(Required(bom, part) * q)
       case _ => 0)
    case BacklogUnits(c, product) =>
      (match e
       case BacklogCreated(d, x, q) => if c == d && x == product then q else 0
       case Shipped(d, x, q, _) => if c == d && x == product then -q else 0
       case BacklogExpired(d, x, q) => if c == d && x == product then -q else 0
       case _ => 0)
    case ReturnItem(item) =>
      (match e
       case ReturnScheduled(x) => if x == item then 1 else 0
       case ReturnReceived(x) => if x == item then -1 else 0
       case _ => 0)
    case ReceivableItem(item) =>
      (match e
       case Scheduled(x) => if x == item && x.kind.Receivable? then 1 else 0
       case Collected(x) => if x == item then -1 else 0
       case _ => 0)
    case PayableItem(item) =>
      (match e
       case Scheduled(x) => if x == item && !x.kind.Receivable? then 1 else 0
       case Paid(x) => if x == item then -1 else 0
       case _ => 0)
    case CollectedItem(item) => if e == Collected(item) then 1 else 0
    case PaidItem(item) => if e == Paid(item) then 1 else 0
    case ArrivedLot(lot) => if e.SupplyArrived? then SameOrder(lot)(e.lot) else 0
    case ReleasedHold(hold) => if e == HoldReleased(hold) then 1 else 0
    case HoldUnitsDue(product, round) =>
      (match e
       case HoldPlaced(x, q, release, _) => if x == product && release == round then q else 0
       case HoldReleased(h) => -DueHold(product, round)(h)
       case _ => 0)
    case ReceivedReturn(item) => if e == ReturnReceived(item) then 1 else 0
    case LotItem(lot) =>
      (match e
       case PurchaseOrderPlaced(x) => SameOrder(lot)(x)
       case SupplyArrived(x) => -SameOrder(lot)(x)
       case _ => 0)
    case Negatives =>
      (match e
       case Shipped(_, _, q, _) => if q < 0 then 1 else 0
       case BacklogExpired(_, _, q) => if q < 0 then 1 else 0
       case _ => 0)
    case ShippedTotal => (match e case Shipped(_, _, q, _) => q case _ => 0)
    case LostTotal => (match e case BacklogExpired(_, _, q) => q case _ => 0)
    case ReturnTotal => (match e case ReturnReceived(item) => item.qty case _ => 0)
    case ScrapTotal => (match e case Scrapped(_, q, _) => q case _ => 0)
    case ReworkTotal => (match e case ReworkCreated(_, q, _) => q case _ => 0)
    case ProducedTotal => (match e case FinishedProduced(_, q, _) => q case _ => 0)
    case OvertimeTotal => (match e case OvertimeApplied(_, q) => q case _ => 0)
    case RevenueTotal => (match e case Shipped(_, _, q, price) => q * price case _ => 0)
    case PurchaseTotal => (match e case PurchaseOrderPlaced(lot) => lot.qty * lot.cost case _ => 0)
    case _ => 0
  }

  /** The cost accounts written only at the end of the round. */
  predicate Closing(k: Account) { k.PayrollCost? || k.HoldingCosts? || k.DebtCost? }

  /** The accounts that count settlements: they move only while receivables are collected and payables paid. */
  predicate Settling(k: Account) { k.CollectedItem? || k.PaidItem? }

  function Moved(k: Account): Event -> int { (e: Event) => Movement(k, e) }

  function Balance(p: Phase, k: Account): int { Held(p, k) - Sum(Moved(k), p.events) }

  // ---------------------------------------------------------------- tidiness

  ghost predicate TidyPlant(plant: Plant) {
    && Tidy(plant.parts) && Tidy(plant.wip) && Tidy(plant.finished)
    && (forall h | h in plant.holds :: h.qty > 0)
    && (forall l | l in plant.inTransit :: l.qty > 0)
    && (forall c | c in plant.pendingReturns :: c.qty > 0)
    && (forall c | c in plant.receivables :: c.amount > 0)
    && (forall c | c in plant.payables :: c.amount > 0)
    && (forall e | e in plant.backlog :: e.qty > 0)
  }

  /** A bill of material that lists each part once, with a quantity that is not negative. */
  ghost predicate SoundBill(bom: seq<BOMLine>) { DistinctParts(bom) && forall line | line in bom :: line.qty >= 0 }

  ghost predicate SoundBills(cfg: Config) {
    forall st: MatchState, round: int, product: ProductID :: SoundBill(cfg.bom(st, round, product).parts)
  }

  // ---------------------------------------------------------------- elementary steps

  lemma LogMoves(p: Phase, e: Event, k: Account)
    ensures Balance(p.Log(e), k) == Balance(p, k) - Movement(k, e)
    ensures Held(p.Log(e), k) == Held(p, k)
  {
    SumPush(Moved(k), p.events, e);
  }

  lemma PlantMoves(p: Phase, plant: Plant, k: Account)
    ensures Balance(p.WithPlant(plant), k) == Balance(p, k) + PlantHeld(plant, k) - PlantHeld(p.st.plant, k)
  {
    hide PlantHeld, StatHeld, Movement;
  }

  lemma CashMoves(p: Phase, delta: int, k: Account)
    ensures Held(p.ApplyCash(delta), k) == Held(p, k) + (if k.Accrual? || k.CashFlow? then delta else 0)
    ensures p.ApplyCash(delta).events == p.events
  {
    hide StatHeld;
    NetMoves(p.st.plant.cash, p.st.plant.debt, delta);
  }

  lemma ReceiveMoves(p: Phase, amount: int, k: Account)
    ensures Balance(p.Receive(amount), k) == Balance(p, k) + (if k.Accrual? then amount else 0)
  {
    NetMoves(p.st.plant.cash, p.st.plant.debt, amount);
  }

  lemma DisburseMoves(p: Phase, amount: int, k: Account)
    ensures Balance(p.Disburse(amount), k) == Balance(p, k) - (if k.Accrual? then amount else 0)
  {
    NetMoves(p.st.plant.cash, p.st.plant.debt, -amount);
  }

  lemma PayableHeld(plant: Plant, item: CashCommitment, k: Account)
    ensures PlantHeld(plant.(payables := plant.payables + [item]), k) ==
            PlantHeld(plant, k) + (if k.Accrual? then -item.amount else if k == PayableItem(item) then 1 else 0)
  {
    SumPush(Amount(), plant.payables, item);
    if k.PayableItem? {
      SumPush(Same(k.payable), plant.payables, item);
    }
  }

  lemma PayableMoves(p: Phase, item: CashCommitment, k: Account)
    requires !item.kind.Receivable?
    ensures Balance(AddPayable(p, item), k) == Balance(p, k) - (if k.Accrual? then item.amount else 0)
  {
    hide PlantHeld, StatHeld, Balance;
    var plant := p.st.plant.(payables := p.st.plant.payables + [item]);
    PayableHeld(p.st.plant, item, k);
    PlantMoves(p, plant, k);
    LogMoves(p.WithPlant(plant), Scheduled(item), k);
  }
}
