/**
 The records of a match. Identifiers are integers: only their equality and, for the shipping order,
 their relative order matters. Identifier 0 stands for the empty string. Money, units, capacity and
 round numbers are mathematical integers.
 */
module Domain {

  type MatchID = int
  type ProductID = int
  type PartID = int
  type CustomerID = int
  type SupplierID = int
  type WorkstationID = int

  const NO_STATION: WorkstationID := 0

  datatype Option<+T> = None | Some(value: T)

  datatype Result<+T> = Ok(value: T) | Err

  datatype RoleID =
    | ProcurementManager
    | ProductionManager
    | SalesManager
    | FinanceController
    | OtherRole(name: int)

  const CANONICAL_ROLES: seq<RoleID> :=
    [ProcurementManager, ProductionManager, SalesManager, FinanceController]

  datatype RoleAssignment = RoleAssignment(role: RoleID, playerID: int, provider: int)

  // ---------------------------------------------------------------- actions

  datatype ActionID = NoActionID | Named(name: int) | Generated(role: RoleID, round: int)

  datatype PurchaseOrderIntent = PurchaseOrderIntent(part: PartID, supplier: SupplierID, quantity: int)

  datatype ProductionRelease = ProductionRelease(product: ProductID, quantity: int)

  datatype CapacityAllocation = CapacityAllocation(station: WorkstationID, product: ProductID, capacity: int)

  datatype OvertimeAllocation = OvertimeAllocation(station: WorkstationID, capacity: int)

  datatype ProductionAction = ProductionAction(
    releases: seq<ProductionRelease>,
    allocations: seq<CapacityAllocation>,
    overtime: seq<OvertimeAllocation>)

  datatype ProductOffer = ProductOffer(product: ProductID, unitPrice: int)

  datatype BudgetTargets = BudgetTargets(
    effectiveRound: int,
    procurementBudget: int,
    productionSpendBudget: int,
    revenueTarget: int,
    cashFloorTarget: int,
    debtCeilingTarget: int)

  datatype RoleAction = RoleAction(
    procurement: Option<seq<PurchaseOrderIntent>>,
    production: Option<ProductionAction>,
    sales: Option<seq<ProductOffer>>,
    finance: Option<BudgetTargets>)

  datatype ActionSubmission = ActionSubmission(
    id: ActionID, matchID: MatchID, round: int, role: RoleID, action: RoleAction)

  // ---------------------------------------------------------------- plant

  /** One line of parts, work in progress or finished goods: they differ only in their key. */
  datatype Stock<K> = Stock(key: K, qty: int, cost: int)

  datatype WipKey = WipKey(product: ProductID, station: WorkstationID)

  datatype HoldReason = ProductionQuality | CustomerReturned

  datatype InspectionHold = InspectionHold(
    product: ProductID, qty: int, cost: int, holdRound: int, release: int, reason: HoldReason)

  datatype ReturnID = ReturnID(round: int, index: nat)

  datatype CustomerReturn = CustomerReturn(
    id: ReturnID, customer: CustomerID, product: ProductID, qty: int, cost: int, due: int, created: int)

  datatype LotID = LotID(action: ActionID, line: nat)

  datatype SupplyLot = SupplyLot(
    id: LotID, supplier: SupplierID, part: PartID, qty: int, cost: int,
    ordered: int, promised: int, arrival: int)

  datatype CommitmentKind = Receivable | Payable | Payroll

  datatype CommitmentID = CommitmentID(kind: CommitmentKind, round: int, index: nat)

  datatype CashCommitment = CashCommitment(
    id: CommitmentID, kind: CommitmentKind, amount: int, due: int, created: int)

  datatype Workstation = Workstation(
    id: WorkstationID,
    capacity: int,
    effective: int,
    stressLoss: int,
    stressBuffer: int,
    stressPenalty: int,
    labor: int,
    laborUsed: int,
    laborCost: int,
    overtimeUsed: int,
    overtimeCost: int,
    capacityUsed: int)

  datatype BacklogEntry = BacklogEntry(
    customer: CustomerID, product: ProductID, qty: int, origin: int, age: int)

  datatype BOMLine = BOMLine(part: PartID, qty: int)

  datatype Plant = Plant(
    cash: int,
    debt: int,
    debtCeiling: int,
    parts: seq<Stock<PartID>>,
    wip: seq<Stock<WipKey>>,
    finished: seq<Stock<ProductID>>,
    holds: seq<InspectionHold>,
    inTransit: seq<SupplyLot>,
    pendingReturns: seq<CustomerReturn>,
    receivables: seq<CashCommitment>,
    payables: seq<CashCommitment>,
    stations: seq<Workstation>,
    backlog: seq<BacklogEntry>)

  datatype Customer = Customer(id: CustomerID, sentiment: int, paymentDelay: int, backlog: seq<BacklogEntry>)

  datatype Supplier = Supplier(
    id: SupplierID, onTimePct: int, lateRounds: int, score: int, placed: int, received: int, late: int)

  // ---------------------------------------------------------------- round record

  /**
   The events that move units or money. An event carries the record it is about; in the program it carries
   a payload copied from that record.
   */
  datatype Event =
    | PurchaseOrderPlaced(lot: SupplyLot)
    | SupplyDelayed(lot: SupplyLot)
    | SupplyArrived(lot: SupplyLot)
    | HoldReleased(hold: InspectionHold)
    | HoldPlaced(product: ProductID, qty: int, release: int, origin: Option<WorkstationID>)
    | ReturnReceived(item: CustomerReturn)
    | ReturnScheduled(item: CustomerReturn)
    | DemandRealized(customer: CustomerID, product: ProductID, qty: int)
    | BacklogCreated(customer: CustomerID, product: ProductID, qty: int)
    | ProductionReleased(product: ProductID, qty: int, bom: seq<BOMLine>, station: WorkstationID)
    | OvertimeApplied(station: WorkstationID, qty: int)
    | Scrapped(product: ProductID, qty: int, station: WorkstationID)
    | ReworkCreated(product: ProductID, qty: int, station: WorkstationID)
    | FinishedProduced(product: ProductID, qty: int, station: WorkstationID)
    | WorkAdvanced(product: ProductID, qty: int, station: WorkstationID, next: WorkstationID)
    | AdvanceIgnored(product: ProductID, qty: int, station: WorkstationID)
    | Shipped(customer: CustomerID, product: ProductID, qty: int, price: int)
    | BacklogExpired(customer: CustomerID, product: ProductID, qty: int)
    | Scheduled(commitment: CashCommitment)
    | Collected(commitment: CashCommitment)
    | Paid(commitment: CashCommitment)

  datatype Commentary = Commentary(id: int, role: RoleID, body: int)

  datatype Metrics = Metrics(
    throughputRevenue: int,
    operatingExpense: int,
    procurementSpend: int,
    productionSpend: int,
    payrollExpense: int,
    laborCost: int,
    overtimeCost: int,
    holdingCost: int,
    debtServiceCost: int,
    inventoryValue: int,
    netCashChange: int,
    cashReceipts: int,
    cashDisbursements: int,
    endingCash: int,
    roundProfit: int,
    onTimeShipmentRate: int,
    backlogUnits: int,
    lostSalesUnits: int,
    partsOnHandUnits: int,
    finishedGoodsUnits: int,
    inspectionHoldUnits: int,
    productionOutputUnits: int,
    capacityLossUnits: int,
    idleLaborUnits: int,
    overtimeUnits: int,
    scrapUnits: int,
    reworkUnits: int,
    customerReturnUnits: int,
    supplierReliability: int)

  datatype RoundRecord = RoundRecord(
    round: int,
    actions: seq<ActionSubmission>,
    events: seq<Event>,
    commentary: seq<Commentary>,
    metrics: Option<Metrics>)

  datatype MatchState = MatchState(
    matchID: MatchID,
    currentRound: int,
    roles: seq<RoleAssignment>,
    plant: Plant,
    customers: seq<Customer>,
    suppliers: seq<Supplier>,
    targets: BudgetTargets,
    metrics: Option<Metrics>,
    history: seq<RoundRecord>)

  // ---------------------------------------------------------------- arithmetic of the source

  /** Go's integer division truncates toward zero. */
  function Quot(a: int, b: int): (q: int)
    requires b != 0
    ensures a >= 0 && b > 0 ==> q == a / b
  {
    if a >= 0 then a / b else -((-a) / b)
  }

  function PerUnitCost(total: int, qty: int): int {
    if qty <= 0 then 0 else Quot(total, qty)
  }

  /** A map read that yields zero for an absent key. */
  function At<K>(m: map<K, int>, key: K): int {
    if key in m then m[key] else 0
  }

  /** What remains of the last `limit` items; a limit that is not positive keeps all of them. */
  function Tail<T>(items: seq<T>, limit: int): seq<T> {
    if limit <= 0 || |items| <= limit then items else items[|items| - limit..]
  }
}
