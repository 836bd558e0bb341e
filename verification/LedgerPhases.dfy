/** Every phase of a round keeps every account balanced, and keeps the plant tidy. */
module LedgerPhases {
  import opened Seqs
  import opened Domain
  import opened Cash
  import opened Inventory
  import opened Labor
  import opened Quality
  import opened Phases
  import opened Ledger

  // ---------------------------------------------------------------- procurement

  lemma PlantStocks(plant: Plant)
    requires TidyPlant(plant)
    ensures Tidy(plant.parts) && Tidy(plant.wip) && Tidy(plant.finished)
  {
  }

  /** What an account counts on a lot, on whichever side of the receipt it is. */
  function LotMeasure(k: Account): SupplyLot -> int {
    match k
    case PartUnits(part) => LotOf(part)
    case LotItem(lot) => SameOrder(lot)
    case _ => NoLot()
  }

  function NoLot(): SupplyLot -> int { (l: SupplyLot) => 0 }

  /** What storing a lot adds to an account. */
  function StoreMeasure(k: Account): SupplyLot -> int {
    if k.ArrivedLot? then Received(k.arrived) else LotMeasure(k)
  }

  function Received(lot: SupplyLot): SupplyLot -> int { (l: SupplyLot) => -SameOrder(lot)(l) }

  lemma TransitHeld(plant: Plant, lot: SupplyLot, k: Account)
    ensures PlantHeld(plant.(inTransit := plant.inTransit + [lot]), k) == PlantHeld(plant, k) + LotMeasure(k)(lot)
  {
    if k.PartUnits? {
      SumPush(LotOf(k.part), plant.inTransit, lot);
    } else if k.LotItem? {
      SumPush(SameOrder(k.lot), plant.inTransit, lot);
    }
  }

  lemma SpendOnParts(s: Stats, spend: int, k: Account)
    ensures StatHeld(s.(procurementSpend := s.procurementSpend + spend), k) == StatHeld(s, k) + (if k.Accrual? || k.PurchaseTotal? then spend else 0)
  {
  }

  lemma BookLotTidy(b: Buying, lot: SupplyLot)
    requires TidyPlant(b.p.st.plant) && lot.qty > 0
    ensures TidyPlant(BookLot(b, lot).p.st.plant)
  {
    hide CountOrder, Tidy;
  }

  lemma BookLotMoves(b: Buying, lot: SupplyLot, k: Account)
    ensures Balance(BookLot(b, lot).p, k) == Balance(b.p, k) + (if k.Accrual? then BookLot(b, lot).spent - b.spent else 0)
  {
    hide CountOrder, PlantHeld, StatHeld;
    var plant, spend := b.p.st.plant, lot.qty * lot.cost;
    TransitHeld(plant, lot, k);
    SpendOnParts(b.p.stats, spend, k);
    var st := b.p.st.(suppliers := CountOrder(b.p.st.suppliers, lot.supplier),
                      plant := plant.(inTransit := plant.inTransit + [lot]));
    var q := b.p.(st := st, stats := b.p.stats.(procurementSpend := b.p.stats.procurementSpend + spend));
    LogMoves(q, PurchaseOrderPlaced(lot), k);
  }

  lemma {:induction false} PlaceOrdersMove(env: Env, b: Buying, cap: int, action: ActionID, line: nat,
                                           orders: seq<PurchaseOrderIntent>, k: Account)
    requires TidyPlant(b.p.st.plant)
    ensures var c := PlaceOrders(env, b, cap, action, line, orders);
            && Balance(c.p, k) == Balance(b.p, k) + (if k.Accrual? then c.spent - b.spent else 0)
            && TidyPlant(c.p.st.plant)
    decreases |orders|
  {
    hide Balance, BookLot, AllowedOrder, TidyPlant;
    if |orders| > 0 {
      var c := PlaceOrder(env, b, cap, action, line, orders[0]);
      if c != b {
        var t := NormalizedTerms(env.cfg.terms(b.p.st, env.round, orders[0]));
        var allowed := AllowedOrder(t, orders[0].quantity, cap, b.spent, ProjectedSpendCapacity(b.p.st.plant));
        BookLotMoves(b, NewLot(env, action, line, orders[0], t, allowed), k);
        BookLotTidy(b, NewLot(env, action, line, orders[0], t, allowed));
      }
      PlaceOrdersMove(env, c, cap, action, line + 1, orders[1..], k);
    }
  }

  lemma PayableTidy(env: Env, p: Phase, amount: int, k: Account)
    requires TidyPlant(p.st.plant)
    ensures TidyPlant(SchedulePayable(env, p, amount).st.plant)
    ensures Balance(SchedulePayable(env, p, amount), k) ==
            Balance(p, k) - (if k.Accrual? && amount > 0 then amount else 0)
  {
    hide Balance;
    if amount > 0 {
      if env.cfg.payableDelay == 0 {
        DisburseMoves(p, amount, k);
      } else {
        PayableMoves(p, NewCommitment(Payable, env.round, |p.st.plant.payables|, amount, env.cfg.payableDelay), k);
      }
    }
  }

  lemma {:induction false} SpendingGrows(env: Env, b: Buying, cap: int, action: ActionID, line: nat, orders: seq<PurchaseOrderIntent>)
    ensures b.spent <= PlaceOrders(env, b, cap, action, line, orders).spent
    decreases |orders|
  {
    hide AllowedOrder;
    if |orders| > 0 {
      var c := PlaceOrder(env, b, cap, action, line, orders[0]);
      if c != b {
        var t := NormalizedTerms(env.cfg.terms(b.p.st, env.round, orders[0]));
        var allowed := AllowedOrder(t, orders[0].quantity, cap, b.spent, ProjectedSpendCapacity(b.p.st.plant));
        ProductNonNegative(allowed, t.unitCost);
      }
      SpendingGrows(env, c, cap, action, line + 1, orders[1..]);
    }
  }

  lemma ProcurementBalances(env: Env, p: Phase, action: Option<ActionSubmission>, k: Account)
    requires TidyPlant(p.st.plant)
    ensures Balance(ResolveProcurement(env, p, action), k) == Balance(p, k)
    ensures TidyPlant(ResolveProcurement(env, p, action).st.plant)
  {
    hide Balance, TidyPlant, PlaceOrders, SchedulePayable;
    if action.Some? && action.value.action.procurement.Some? {
      var cap, id, orders := CappedBudget(p.st.targets.procurementBudget), action.value.id,
                             action.value.action.procurement.value;
      PlaceOrdersMove(env, Buying(p, 0), cap, id, 1, orders, k);
      SpendingGrows(env, Buying(p, 0), cap, id, 1, orders);
      var b := PlaceOrders(env, Buying(p, 0), cap, id, 1, orders);
      PayableTidy(env, b.p, b.spent, k);
    }
  }

  // ---------------------------------------------------------------- supply

  /** Measures of a lot that a delay does not change. */
  ghost predicate BlindToArrival(f: SupplyLot -> int) {
    forall lot: SupplyLot, round: int :: f(lot.(arrival := round)) == f(lot)
  }

  lemma {:induction false} SortLotsMove(env: Env, r: Receiving, lots: seq<SupplyLot>, f: SupplyLot -> int, k: Account)
    requires BlindToArrival(f)
    requires forall l | l in r.arrivals + r.remaining + lots :: l.qty > 0
    ensures var s := SortLots(env, r, lots);
            && s.p.st.plant == r.p.st.plant
            && Balance(s.p, k) == Balance(r.p, k)
            && (forall l | l in s.arrivals + s.remaining :: l.qty > 0)
            && Sum(f, s.arrivals) + Sum(f, s.remaining) == Sum(f, r.arrivals) + Sum(f, r.remaining) + Sum(f, lots)
    decreases |lots|
  {
    hide SortLot, Balance, BlindToArrival;
    if |lots| > 0 {
      SortLotMoves(env, r, lots[0], k);
      SortLotKeepsLots(env, r, lots[0], f);
      SortLotsMove(env, SortLot(env, r, lots[0]), lots[1..], f, k);
    }
  }

  lemma SortLotMoves(env: Env, r: Receiving, lot: SupplyLot, k: Account)
    ensures SortLot(env, r, lot).p.st.plant == r.p.st.plant
    ensures Balance(SortLot(env, r, lot).p, k) == Balance(r.p, k)
    ensures forall l | l in SortLot(env, r, lot).arrivals + SortLot(env, r, lot).remaining ::
              l in r.arrivals + r.remaining || l == lot.(arrival := l.arrival)
  {
    hide CountDelay, MayDelay, Delays, PlantHeld, StatHeld;
    var late := lot.(arrival := lot.promised + LateRounds(r.p.st.suppliers, lot.supplier));
    var p := r.p.(drawn := SortLot(env, r, lot).p.drawn,
                  st := r.p.st.(suppliers := CountDelay(r.p.st.suppliers, lot.supplier)));
    LogMoves(p, SupplyDelayed(late), k);
  }

  lemma SortLotKeepsLots(env: Env, r: Receiving, lot: SupplyLot, f: SupplyLot -> int)
    requires BlindToArrival(f)
    ensures var s := SortLot(env, r, lot);
            Sum(f, s.arrivals) + Sum(f, s.remaining) == Sum(f, r.arrivals) + Sum(f, r.remaining) + f(lot)
  {
    hide CountDelay, MayDelay, Delays, LateRounds;
    SumPush(f, r.arrivals, lot);
    SumPush(f, r.remaining, lot);
    SumPush(f, r.remaining, lot.(arrival := lot.promised + LateRounds(r.p.st.suppliers, lot.supplier)));
  }

  lemma StoreLotTidy(p: Phase, lot: SupplyLot)
    requires TidyPlant(p.st.plant)
    ensures TidyPlant(StoreLot(p, lot).st.plant)
  {
    hide CountReceipt, Add, Tidy;
    PlantStocks(p.st.plant);
    AddTidy(p.st.plant.parts, lot.part, lot.qty, lot.cost);
  }

  lemma PartsHeld(plant: Plant, parts: seq<Stock<PartID>>, k: Account)
    ensures PlantHeld(plant.(parts := parts), k) == PlantHeld(plant, k) +
              (if k.PartUnits? then Units(IsKey(k.part), parts) - Units(IsKey(k.part), plant.parts) else 0)
  {
    hide Units;
  }

  lemma ArrivalEvent(k: Account, lot: SupplyLot)
    ensures Movement(k, SupplyArrived(lot)) ==
            if k.ArrivedLot? then SameOrder(k.arrived)(lot) else if k.LotItem? then -SameOrder(k.lot)(lot) else 0
  {
    hide Order, SameOrder;
  }

  lemma StoreLotMoves(p: Phase, lot: SupplyLot, k: Account)
    requires lot.qty > 0
    ensures Balance(StoreLot(p, lot), k) == Balance(p, k) + StoreMeasure(k)(lot)
  {
    hide CountReceipt, Add, PlantHeld, StatHeld, Units, Movement, Order;
    ArrivalEvent(k, lot);
    var plant := p.st.plant;
    PartsHeld(plant, Add(plant.parts, lot.part, lot.qty, lot.cost), k);
    if k.PartUnits? {
      AddUnits(IsKey(k.part), plant.parts, lot.part, lot.qty, lot.cost);
    }
    var st := p.st.(suppliers := CountReceipt(p.st.suppliers, lot.supplier),
                    plant := plant.(parts := Add(plant.parts, lot.part, lot.qty, lot.cost)));
    LogMoves(p.(st := st), SupplyArrived(lot), k);
  }

  lemma {:induction false} StoreLotsMove(p: Phase, lots: seq<SupplyLot>, k: Account)
    requires TidyPlant(p.st.plant) && forall l | l in lots :: l.qty > 0
    ensures var q := StoreLots(p, lots);
            && TidyPlant(q.st.plant)
            && Balance(q, k) == Balance(p, k) + Sum(StoreMeasure(k), lots)
    decreases |lots|
  {
    hide StoreLot, Balance, TidyPlant, StoreMeasure;
    if |lots| > 0 {
      StoreLotMoves(p, lots[0], k);
      StoreLotTidy(p, lots[0]);
      StoreLotsMove(StoreLot(p, lots[0]), lots[1..], k);
    }
  }

  lemma {:induction false} NoLots(lots: seq<SupplyLot>)
    ensures Sum(NoLot(), lots) == 0
  {
    if |lots| > 0 {
      NoLots(lots[1..]);
    }
  }

  lemma InTransitHeld(plant: Plant, lots: seq<SupplyLot>, k: Account)
    ensures PlantHeld(plant.(inTransit := lots), k) ==
            PlantHeld(plant, k) + Sum(LotMeasure(k), lots) - Sum(LotMeasure(k), plant.inTransit)
  {
    NoLots(lots);
    NoLots(plant.inTransit);
  }

  lemma InTransitMoves(p: Phase, lots: seq<SupplyLot>, k: Account)
    requires TidyPlant(p.st.plant) && forall l | l in lots :: l.qty > 0
    ensures var q := p.WithPlant(p.st.plant.(inTransit := lots));
            && TidyPlant(q.st.plant)
            && Balance(q, k) == Balance(p, k) + Sum(LotMeasure(k), lots) - Sum(LotMeasure(k), p.st.plant.inTransit)
  {
    hide PlantHeld, StatHeld, Balance, Tidy, LotMeasure;
    InTransitHeld(p.st.plant, lots, k);
    PlantMoves(p, p.st.plant.(inTransit := lots), k);
  }

  /** The lots that arrive when a phase state receives its supply. */
  function Arrivals(env: Env, p: Phase): seq<SupplyLot> {
    SortLots(env, Receiving(p, [], []), p.st.plant.inTransit).arrivals
  }

  function ArrivalGap(env: Env, p: Phase, k: Account): int {
    if k.ArrivedLot? then Sum(SameOrder(k.arrived), Arrivals(env, p)) else 0
  }

  function ReturnGap(env: Env, p: Phase, k: Account): int {
    if k.ReceivedReturn? then Sum(Same(k.received), Filter(DueBy(env.round), p.st.plant.pendingReturns)) else 0
  }

  function HoldGap(env: Env, p: Phase, k: Account): int {
    if k.ReleasedHold? then Sum(Same(k.released), Filter(ReleasedBy(env.round), p.st.plant.holds)) else 0
  }

  /** What the log alone counts, of lots and returns received and of holds released. */
  function SupplyGap(env: Env, p: Phase, k: Account): int {
    ArrivalGap(env, p, k) + ReturnGap(env, p, k) + HoldGap(env, p, k)
  }

  lemma {:induction false} ReceivedSum(lots: seq<SupplyLot>, lot: SupplyLot)
    ensures Sum(Received(lot), lots) == -Sum(SameOrder(lot), lots)
  {
    if |lots| > 0 {
      ReceivedSum(lots[1..], lot);
    }
  }

  lemma SupplyBalances(env: Env, p: Phase, k: Account)
    requires TidyPlant(p.st.plant)
    ensures Balance(ReceiveSupply(env, p), k) == Balance(p, k) - ArrivalGap(env, p, k)
    ensures TidyPlant(ReceiveSupply(env, p).st.plant)
  {
    hide SortLots, StoreLots, Balance, TidyPlant;
    LotsPositive(p.st.plant);
    var r := SortLots(env, Receiving(p, [], []), p.st.plant.inTransit);
    SortLotsMove(env, Receiving(p, [], []), p.st.plant.inTransit, LotMeasure(k), k);
    InTransitMoves(r.p, r.remaining, k);
    StoreLotsMove(r.p.WithPlant(r.p.st.plant.(inTransit := r.remaining)), r.arrivals, k);
    if k.ArrivedLot? {
      ReceivedSum(r.arrivals, k.arrived);
      NoLots(r.arrivals);
    }
    NoLots(r.remaining);
    NoLots(p.st.plant.inTransit);
  }

  lemma LotsPositive(plant: Plant)
    requires TidyPlant(plant)
    ensures forall l | l in plant.inTransit :: l.qty > 0
  {
  }

  // ---------------------------------------------------------------- holds and returns

  lemma FinishedTidy(plant: Plant, finished: seq<Stock<ProductID>>)
    requires TidyPlant(plant) && Tidy(finished)
    ensures TidyPlant(plant.(finished := finished))
  {
    hide Tidy;
  }

  lemma FinishedBalance(p: Phase, finished: seq<Stock<ProductID>>, k: Account)
    ensures Balance(p.WithPlant(p.st.plant.(finished := finished)), k) == Balance(p, k) +
              (if k.ProductUnits? then Units(IsKey(k.product), finished) - Units(IsKey(k.product), p.st.plant.finished) else 0)
  {
    hide StatHeld, Units;
  }

  lemma WipTidy(plant: Plant, wip: seq<Stock<WipKey>>)
    requires TidyPlant(plant) && Tidy(wip)
    ensures TidyPlant(plant.(wip := wip))
  {
    hide Tidy;
  }

  lemma WipBalance(p: Phase, wip: seq<Stock<WipKey>>, k: Account)
    ensures Balance(p.WithPlant(p.st.plant.(wip := wip)), k) == Balance(p, k) +
              (if k.ProductUnits? then Units(OfProduct(k.product), wip) - Units(OfProduct(k.product), p.st.plant.wip)
               else if k.WorkAt? then Units(IsKey(k.work), wip) - Units(IsKey(k.work), p.st.plant.wip) else 0)
  {
    hide StatHeld, Units;
  }

  lemma AddFinishedMoves(p: Phase, product: ProductID, qty: int, cost: int, k: Account)
    requires TidyPlant(p.st.plant) && qty > 0
    ensures TidyPlant(AddFinished(p, product, qty, cost).st.plant)
    ensures Balance(AddFinished(p, product, qty, cost), k) == Balance(p, k) + (if k == ProductUnits(product) then qty else 0)
  {
    hide Add, Balance, TidyPlant, Tidy, Units;
    PlantStocks(p.st.plant);
    AddTidy(p.st.plant.finished, product, qty, cost);
    if k.ProductUnits? {
      AddUnits(IsKey(k.product), p.st.plant.finished, product, qty, cost);
    }
    FinishedTidy(p.st.plant, Add(p.st.plant.finished, product, qty, cost));
    FinishedBalance(p, Add(p.st.plant.finished, product, qty, cost), k);
  }

  lemma {:induction false} ReleaseHoldsMove(p: Phase, holds: seq<InspectionHold>, k: Account)
    requires TidyPlant(p.st.plant) && forall h | h in holds :: h.qty > 0
    ensures var q := ReleaseHolds(p, holds);
            && TidyPlant(q.st.plant)
            && q.st.plant.holds == p.st.plant.holds
            && Balance(q, k) == Balance(p, k) + (if k.ProductUnits? then Sum(HoldOf(k.product), holds)
                                                 else if k.ReleasedHold? then -Sum(Same(k.released), holds)
                                                 else if k.HoldUnitsDue? then Sum(DueHold(k.heldProduct, k.dueRound), holds)
                                                 else 0)
    decreases |holds|
  {
    hide Add, Balance, TidyPlant, Movement;
    if |holds| > 0 {
      var h := holds[0];
      HoldEvents(k, h.product, h.qty, h.release, None, h);
      AddFinishedMoves(p, h.product, h.qty, h.cost, k);
      LogMoves(AddFinished(p, h.product, h.qty, h.cost), HoldReleased(h), k);
      ReleaseHoldsMove(ReleaseHold(p, h), holds[1..], k);
    }
  }

  lemma HoldsBalance(env: Env, p: Phase, k: Account)
    requires TidyPlant(p.st.plant)
    ensures Balance(ReleaseInspectionHolds(env, p), k) == Balance(p, k) - HoldGap(env, p, k)
    ensures TidyPlant(ReleaseInspectionHolds(env, p).st.plant)
  {
    hide ReleaseHolds, StatHeld, PlantHeld, Filter, Balance, TidyPlant;
    var holds := p.st.plant.holds;
    FilterMembers(ReleasedBy(env.round), holds);
    FilterMembers(HeldUntil(env.round), holds);
    HoldsHeld(p.st.plant, holds, k);
    ReleaseHoldsMove(p, Filter(ReleasedBy(env.round), holds), k);
    var q := ReleaseHolds(p, Filter(ReleasedBy(env.round), holds));
    HoldsHeld(q.st.plant, Filter(HeldUntil(env.round), holds), k);
    PlantMoves(q, q.st.plant.(holds := Filter(HeldUntil(env.round), holds)), k);
    if k.ProductUnits? {
      SumSplit(HoldOf(k.product), HeldUntil(env.round), ReleasedBy(env.round), holds);
    } else if k.HoldUnitsDue? {
      SumSplit(DueHold(k.heldProduct, k.dueRound), HeldUntil(env.round), ReleasedBy(env.round), holds);
    }
  }

  /** The accounts that see the work in progress of a product at a workstation. */
  predicate SeesWork(k: Account, key: WipKey) { k == ProductUnits(key.product) || k == WorkAt(key) }

  /** What an account gains when units come from a workstation: they were work there, and the station worked on them. */
  function Shifted(k: Account, key: WipKey, qty: int): int {
    if SeesWork(k, key) then qty else if k == StationWork(key.station) then -qty else 0
  }

  /** What the events of production add to an account. */
  lemma ProductionEvents(k: Account, key: WipKey, qty: int)
    ensures Movement(k, Scrapped(key.product, qty, key.station)) ==
            if k.ScrapTotal? then qty else -Shifted(k, key, qty)
    ensures Movement(k, ReworkCreated(key.product, qty, key.station)) ==
            if k.ReworkTotal? || k == StationWork(key.station) then qty else 0
    ensures Movement(k, FinishedProduced(key.product, qty, key.station)) ==
            if k == WorkAt(key) then -qty else if k.ProducedTotal? || k == StationWork(key.station) then qty else 0
  {
    hide Movement;
    ScrapEvent(k, key, qty);
    ReworkEvent(k, key, qty);
    StockEvent(k, key, qty);
  }

  lemma ScrapEvent(k: Account, key: WipKey, qty: int)
    ensures Movement(k, Scrapped(key.product, qty, key.station)) ==
            if k.ScrapTotal? then qty else -Shifted(k, key, qty)
  {
    hide Required, SameOrder, DueHold;
  }

  lemma ReworkEvent(k: Account, key: WipKey, qty: int)
    ensures Movement(k, ReworkCreated(key.product, qty, key.station)) ==
            if k.ReworkTotal? || k == StationWork(key.station) then qty else 0
  {
    hide Required, SameOrder, DueHold;
  }

  lemma StockEvent(k: Account, key: WipKey, qty: int)
    ensures Movement(k, FinishedProduced(key.product, qty, key.station)) ==
            if k == WorkAt(key) then -qty else if k.ProducedTotal? || k == StationWork(key.station) then qty else 0
  {
    hide Required, SameOrder, DueHold;
  }

  lemma WorkEvents(k: Account, product: ProductID, qty: int, station: WorkstationID, next: WorkstationID)
    ensures Movement(k, WorkAdvanced(product, qty, station, next)) ==
            (if k == WorkAt(WipKey(product, next)) || k == StationWork(station) then qty else 0)
            - (if k == WorkAt(WipKey(product, station)) then qty else 0)
  {
    hide Required, SameOrder, DueHold;
  }

  lemma UnmovedEvents(k: Account, product: ProductID, qty: int, station: WorkstationID)
    ensures Movement(k, AdvanceIgnored(product, qty, station)) == if k == StationWork(station) then qty else 0
    ensures Movement(k, OvertimeApplied(station, qty)) == if k.OvertimeTotal? then qty else 0
  {
    hide Required, SameOrder, DueHold;
  }

  /** Holding units takes them off the work of the workstation they come from. */
  function FromOrigin(k: Account, product: ProductID, origin: Option<WorkstationID>, qty: int): int {
    if origin.None? then if k == ProductUnits(product) then qty else 0
    else Shifted(k, WipKey(product, origin.value), qty)
  }

  lemma HoldEvents(k: Account, product: ProductID, qty: int, release: int, origin: Option<WorkstationID>, h: InspectionHold)
    ensures Movement(k, HoldPlaced(product, qty, release, origin)) ==
            if k == HoldUnitsDue(product, release) then qty
            else if k == ProductUnits(product) then 0 else -FromOrigin(k, product, origin, qty)
    ensures Movement(k, HoldReleased(h)) == if k == ReleasedHold(h) then 1 else if k == HoldUnitsDue(h.product, h.release) then -h.qty else 0
  {
  }

  lemma ReleaseEvent(k: Account, product: ProductID, qty: int, bom: seq<BOMLine>, first: WorkstationID)
    ensures Movement(k, ProductionReleased(product, qty, bom, first)) ==
            if SeesWork(k, WipKey(product, first)) then qty else if k.PartUnits? then -(Required(bom, k.part) * qty) else 0
  {
  }

  lemma AddHoldUnits(holds: seq<InspectionHold>, product: ProductID, qty: int, cost: int, round: int, release: int,
                     reason: HoldReason, other: ProductID, due: int)
    ensures Sum(HoldOf(other), AddHold(holds, product, qty, cost, round, release, reason)) ==
            Sum(HoldOf(other), holds) + (if other == product then Max(qty, 0) else 0)
    ensures Sum(DueHold(other, due), AddHold(holds, product, qty, cost, round, release, reason)) ==
            Sum(DueHold(other, due), holds) + (if other == product && due == release then Max(qty, 0) else 0)
    ensures (forall h | h in holds :: h.qty > 0) ==>
            forall h | h in AddHold(holds, product, qty, cost, round, release, reason) :: h.qty > 0
  {
    if qty > 0 {
      var i := HoldIndex(holds, product, release, reason);
      if i < |holds| {
        var h := holds[i].(qty := holds[i].qty + qty, cost := if holds[i].cost <= 0 then cost else holds[i].cost);
        SumUpdate(HoldOf(other), holds, i, h);
        SumUpdate(DueHold(other, due), holds, i, h);
      } else {
        SumPush(HoldOf(other), holds, InspectionHold(product, qty, cost, round, release, reason));
        SumPush(DueHold(other, due), holds, InspectionHold(product, qty, cost, round, release, reason));
      }
    }
  }

  /** Which accounts see the holds of the plant. */
  lemma HoldsHeld(plant: Plant, holds: seq<InspectionHold>, k: Account)
    ensures PlantHeld(plant.(holds := holds), k) == PlantHeld(plant, k) +
              (if k.ProductUnits? then Sum(HoldOf(k.product), holds) - Sum(HoldOf(k.product), plant.holds)
               else if k.HoldUnitsDue? then Sum(DueHold(k.heldProduct, k.dueRound), holds)
                                            - Sum(DueHold(k.heldProduct, k.dueRound), plant.holds)
               else 0)
    ensures TidyPlant(plant) && (forall h | h in holds :: h.qty > 0) ==> TidyPlant(plant.(holds := holds))
    ensures TidyPlant(plant) ==> forall h | h in plant.holds :: h.qty > 0
  {
    hide Tidy, Units;
  }

  lemma PlaceHoldMoves(p: Phase, product: ProductID, qty: int, cost: int, round: int, release: int, reason: HoldReason,
                       origin: Option<WorkstationID>, k: Account)
    requires TidyPlant(p.st.plant) && qty > 0
    ensures var q := PlaceHold(p, product, qty, cost, round, release, reason, origin);
            && TidyPlant(q.st.plant)
            && Balance(q, k) == Balance(p, k) + FromOrigin(k, product, origin, qty)
  {
    hide AddHold, StatHeld, PlantHeld, Movement, Units, Sum, Balance;
    HoldEvents(k, product, qty, release, origin, InspectionHold(product, qty, cost, round, release, reason));
    var plant := p.st.plant;
    AddHoldUnits(plant.holds, product, qty, cost, round, release, reason,
                 if k.ProductUnits? then k.product else if k.HoldUnitsDue? then k.heldProduct else 0,
                 if k.HoldUnitsDue? then k.dueRound else 0);
    var holds := AddHold(plant.holds, product, qty, cost, round, release, reason);
    HoldsHeld(plant, holds, k);
    PlantMoves(p, plant.(holds := holds), k);
    LogMoves(p.WithPlant(plant.(holds := AddHold(plant.holds, product, qty, cost, round, release, reason))),
             HoldPlaced(product, qty, release, origin), k);
  }

  lemma BacklogGrows(p: Phase, entry: BacklogEntry, customers: seq<Customer>, k: Account)
    requires TidyPlant(p.st.plant) && entry.qty > 0
    ensures var q := p.(st := p.st.(plant := p.st.plant.(backlog := p.st.plant.backlog + [entry]), customers := customers));
            && TidyPlant(q.st.plant)
            && Balance(q, k) == Balance(p, k) + (if k == BacklogUnits(entry.customer, entry.product) then entry.qty else 0)
  {
    hide StatHeld;
    if k.BacklogUnits? {
      SumPush(EntryOf(k.customer, k.ordered), p.st.plant.backlog, entry);
    }
  }

  lemma ReturnCounted(p: Phase, qty: int, k: Account)
    ensures var q := p.(stats := p.stats.(customerReturnUnits := p.stats.customerReturnUnits + qty));
            Balance(q, k) == Balance(p, k) + (if k.ReturnTotal? then qty else 0)
  {
    hide PlantHeld;
  }

  lemma AcceptReturnMoves(env: Env, p: Phase, item: CustomerReturn, k: Account)
    requires TidyPlant(p.st.plant) && item.qty > 0
    ensures TidyPlant(AcceptReturn(env, p, item).st.plant)
    ensures AcceptReturn(env, p, item).st.plant.pendingReturns == p.st.plant.pendingReturns
    ensures Balance(AcceptReturn(env, p, item), k) ==
            Balance(p, k) + (if k == ReturnItem(item) then 1 else if k == ReceivedReturn(item) then -1 else 0)
  {
    hide AddHold, Disappoint, Balance, TidyPlant;
    ReturnCounted(p, item.qty, k);
    var counted := p.(stats := p.stats.(customerReturnUnits := p.stats.customerReturnUnits + item.qty));
    PlaceHoldMoves(counted, item.product, item.qty, item.cost, env.round, env.round + 1, CustomerReturned, None, k);
    var held := PlaceHold(counted, item.product, item.qty, item.cost, env.round, env.round + 1, CustomerReturned, None);
    var entry := BacklogEntry(item.customer, item.product, item.qty, env.round, 0);
    var customers := Disappoint(held.st.customers, item.customer);
    BacklogGrows(held, entry, customers, k);
    var q := held.(st := held.st.(plant := held.st.plant.(backlog := held.st.plant.backlog + [entry]),
                                  customers := customers));
    LogMoves(q, ReturnReceived(item), k);
    LogMoves(q.Log(ReturnReceived(item)), BacklogCreated(item.customer, item.product, item.qty), k);
  }

  lemma {:induction false} AcceptReturnsMove(env: Env, p: Phase, items: seq<CustomerReturn>, k: Account)
    requires TidyPlant(p.st.plant) && forall c | c in items :: c.qty > 0
    ensures var q := AcceptReturns(env, p, items);
            && TidyPlant(q.st.plant)
            && Balance(q, k) == Balance(p, k) + (if k.ReturnItem? then Sum(Same(k.item), items)
                                                 else if k.ReceivedReturn? then -Sum(Same(k.received), items) else 0)
    decreases |items|
  {
    hide AcceptReturn, Balance, TidyPlant;
    if |items| > 0 {
      AcceptReturnMoves(env, p, items[0], k);
      AcceptReturnsMove(env, AcceptReturn(env, p, items[0]), items[1..], k);
    }
  }

  /** Which accounts see the pending returns of the plant. */
  lemma PendingHeld(plant: Plant, items: seq<CustomerReturn>, k: Account)
    ensures PlantHeld(plant.(pendingReturns := items), k) == PlantHeld(plant, k) +
              (if k.ReturnItem? then Sum(Same(k.item), items) - Sum(Same(k.item), plant.pendingReturns) else 0)
    ensures TidyPlant(plant) && (forall c | c in items :: c.qty > 0) ==> TidyPlant(plant.(pendingReturns := items))
    ensures TidyPlant(plant) ==> forall c | c in plant.pendingReturns :: c.qty > 0
  {
    hide Tidy, Units;
  }

  lemma CopiesMove(p: Phase, k: Account)
    ensures var q := SetBacklog(p, p.st.plant.backlog);
            Balance(q, k) == Balance(p, k) && (TidyPlant(p.st.plant) ==> TidyPlant(q.st.plant))
  {
    hide SyncCustomers;
  }

  lemma ReturnsBalance(env: Env, p: Phase, k: Account)
    requires TidyPlant(p.st.plant)
    ensures Balance(ProcessCustomerReturns(env, p), k) == Balance(p, k) - ReturnGap(env, p, k)
    ensures TidyPlant(ProcessCustomerReturns(env, p).st.plant)
  {
    hide AcceptReturns, SyncCustomers, StatHeld, PlantHeld, Balance, TidyPlant, Filter;
    var items := p.st.plant.pendingReturns;
    PendingHeld(p.st.plant, items, k);
    PendingHeld(p.st.plant, Filter(DueAfter(env.round), items), k);
    PlantMoves(p, p.st.plant.(pendingReturns := Filter(DueAfter(env.round), items)), k);
    FilterMembers(DueBy(env.round), items);
    FilterMembers(DueAfter(env.round), items);
    AcceptReturnsMove(env, p.WithPlant(p.st.plant.(pendingReturns := Filter(DueAfter(env.round), items))),
                      Filter(DueBy(env.round), items), k);
    CopiesMove(AcceptReturns(env, p.WithPlant(p.st.plant.(pendingReturns := Filter(DueAfter(env.round), items))),
                             Filter(DueBy(env.round), items)), k);
    if k.ReturnItem? {
      SumSplit(Same(k.item), DueAfter(env.round), DueBy(env.round), items);
    }
  }

  // ---------------------------------------------------------------- production

  lemma AddWipMoves(p: Phase, key: WipKey, qty: int, cost: int, k: Account)
    requires TidyPlant(p.st.plant) && qty > 0
    ensures TidyPlant(AddWip(p, key, qty, cost).st.plant)
    ensures Balance(AddWip(p, key, qty, cost), k) == Balance(p, k) + (if SeesWork(k, key) then qty else 0)
  {
    hide Add, Balance, TidyPlant, Tidy, Units;
    PlantStocks(p.st.plant);
    AddTidy(p.st.plant.wip, key, qty, cost);
    if k.ProductUnits? {
      AddUnits(OfProduct(k.product), p.st.plant.wip, key, qty, cost);
    } else if k.WorkAt? {
      AddUnits(IsKey(k.work), p.st.plant.wip, key, qty, cost);
    }
    WipTidy(p.st.plant, Add(p.st.plant.wip, key, qty, cost));
    WipBalance(p, Add(p.st.plant.wip, key, qty, cost), k);
  }

  lemma TakeWipMoves(p: Phase, key: WipKey, qty: int, k: Account)
    requires TidyPlant(p.st.plant) && 0 < qty <= QtyOf(p.st.plant.wip, key)
    ensures TidyPlant(TakeWip(p, key, qty).st.plant)
    ensures Balance(TakeWip(p, key, qty), k) == Balance(p, k) - (if SeesWork(k, key) then qty else 0)
  {
    hide Take, QtyOf, Balance, TidyPlant, Tidy, Units;
    PlantStocks(p.st.plant);
    TakeTidy(p.st.plant.wip, key, qty);
    if k.ProductUnits? {
      TakeUnits(OfProduct(k.product), p.st.plant.wip, key, qty);
    } else if k.WorkAt? {
      TakeUnits(IsKey(k.work), p.st.plant.wip, key, qty);
    }
    WipTidy(p.st.plant, Take(p.st.plant.wip, key, qty));
    WipBalance(p, Take(p.st.plant.wip, key, qty), k);
  }

  /** Raw material leaves by the bill: what the log says was consumed is what left the stock. */
  lemma ConsumeMoves(parts: seq<Stock<PartID>>, bom: seq<BOMLine>, requested: int, part: PartID)
    requires Tidy(parts) && DistinctParts(bom) && forall line | line in bom :: line.qty >= 0
    ensures var q := AcceptedRelease(parts, bom, requested);
            q > 0 ==> Units(IsKey(part), Consume(parts, bom, q, 0).parts) ==
                      Units(IsKey(part), parts) - Required(bom, part) * q
  {
    hide MaxBuildable, Consume;
    var q := AcceptedRelease(parts, bom, requested);
    if q > 0 {
      ConsumeTidy(parts, bom, q, 0);
      QtyIsUnits(parts, part);
      QtyIsUnits(Consume(parts, bom, q, 0).parts, part);
      if |bom| > 0 {
        BuildableReleaseIsExact(parts, bom, q, part);
      } else {
        ConsumeNothing(parts, bom, q, 0);
      }
    }
  }

  lemma ConsumeNothing(parts: seq<Stock<PartID>>, bom: seq<BOMLine>, q: int, cost: int)
    requires |bom| == 0
    ensures Consume(parts, bom, q, cost) == Consumed(parts, cost)
  {
  }

  lemma MaterialMoves(p: Phase, parts: seq<Stock<PartID>>, k: Account)
    requires TidyPlant(p.st.plant) && Tidy(parts)
    ensures var q := p.WithPlant(p.st.plant.(parts := parts));
            && TidyPlant(q.st.plant)
            && Balance(q, k) == Balance(p, k) +
                 (if k.PartUnits? then Units(IsKey(k.part), parts) - Units(IsKey(k.part), p.st.plant.parts) else 0)
  {
    hide PlantHeld, StatHeld, Balance, Tidy, Units;
    PartsHeld(p.st.plant, parts, k);
    PlantMoves(p, p.st.plant.(parts := parts), k);
  }

  lemma BillIsSound(cfg: Config, st: MatchState, round: int, product: ProductID)
    requires SoundBills(cfg)
    ensures SoundBill(cfg.bom(st, round, product).parts)
  {
  }

  lemma ReleaseOneMoves(env: Env, p: Phase, first: WorkstationID, release: ProductionRelease, k: Account)
    requires TidyPlant(p.st.plant)
    requires k.PartUnits? ==> SoundBills(env.cfg)
    ensures TidyPlant(ReleaseOne(env, p, first, release).st.plant)
    ensures Balance(ReleaseOne(env, p, first, release), k) == Balance(p, k)
  {
    hide Balance, Consume, AcceptedRelease, TakeCost, Add, Take, TidyPlant, Tidy, Movement, PlantHeld, StatHeld, SoundBills;
    PlantStocks(p.st.plant);
    var bom := env.cfg.bom(p.st, env.round, release.product);
    var plant := p.st.plant;
    var allowed := AcceptedRelease(plant.parts, bom.parts, release.quantity);
    if release.quantity > 0 && bom.known && allowed > 0 {
      var used := Consume(plant.parts, bom.parts, allowed, 0);
      var cost := PerUnitCost(used.cost, allowed);
      ConsumeTidy(plant.parts, bom.parts, allowed, 0);
      if k.PartUnits? {
        assert SoundBill(bom.parts) by { BillIsSound(env.cfg, p.st, env.round, release.product); }
        ConsumeMoves(plant.parts, bom.parts, release.quantity, k.part);
      }
      MaterialMoves(p, used.parts, k);
      var q := p.WithPlant(plant.(parts := used.parts));
      AddWipMoves(q, WipKey(release.product, first), allowed, cost, k);
      ReleaseEvent(k, release.product, allowed, bom.parts, first);
      LogMoves(AddWip(q, WipKey(release.product, first), allowed, cost),
               ProductionReleased(release.product, allowed, bom.parts, first), k);
    }
  }

  lemma {:induction false} ReleaseAllMoves(env: Env, p: Phase, first: WorkstationID, releases: seq<ProductionRelease>, k: Account)
    requires TidyPlant(p.st.plant)
    requires k.PartUnits? ==> SoundBills(env.cfg)
    ensures TidyPlant(ReleaseAll(env, p, first, releases).st.plant)
    ensures Balance(ReleaseAll(env, p, first, releases), k) == Balance(p, k)
    decreases |releases|
  {
    hide Balance, TidyPlant, ReleaseOne, SoundBills;
    if |releases| > 0 {
      ReleaseOneMoves(env, p, first, releases[0], k);
      ReleaseAllMoves(env, ReleaseOne(env, p, first, releases[0]), first, releases[1..], k);
    }
  }

  lemma MeasureMoves(p: Phase, i: nat, k: Account)
    requires i < |p.st.plant.stations|
    ensures Balance(MeasureStress(p, i), k) == Balance(p, k)
    ensures TidyPlant(p.st.plant) ==> TidyPlant(MeasureStress(p, i).st.plant)
  {
    hide StressedCapacity, StatHeld, PlantHeld, TidyPlant, Movement, Units;
    var plant := p.st.plant;
    var w := plant.stations[i];
    var c := StressedCapacity(w, Units(AtStation(w.id), plant.wip));
    var measured := w.(effective := c.effective, stressLoss := c.loss);
    StationsHeld(plant, plant.stations[i := measured], k);
    if k.StationWork? {
      SumUpdate(UsedAt(k.worker), plant.stations, i, measured);
    }
  }

  /** Only the account of their own work sees the workstations. */
  lemma StationsHeld(plant: Plant, stations: seq<Workstation>, k: Account)
    ensures PlantHeld(plant.(stations := stations), k) == PlantHeld(plant, k) +
              (if k.StationWork? then Sum(UsedAt(k.worker), stations) - Sum(UsedAt(k.worker), plant.stations) else 0)
    ensures TidyPlant(plant) ==> TidyPlant(plant.(stations := stations))
  {
    hide Tidy;
  }

  lemma SpendHeld(s: Stats, spend: int, overtime: int, k: Account)
    ensures StatHeld(s.(productionSpend := s.productionSpend + spend, overtimeUnits := s.overtimeUnits + overtime), k) ==
            StatHeld(s, k) + (if k.Accrual? || k.ProductionCost? then spend else if k.OvertimeTotal? then overtime else 0)
  {
  }

  lemma SpendBooked(p: Phase, stations: seq<Workstation>, spend: int, overtime: int, k: Account)
    requires TidyPlant(p.st.plant)
    ensures var q := p.WithPlant(p.st.plant.(stations := stations))
                      .(stats := p.stats.(productionSpend := p.stats.productionSpend + spend,
                                          overtimeUnits := p.stats.overtimeUnits + overtime));
            && TidyPlant(q.st.plant)
            && Balance(q, k) == Balance(p, k) +
                 (if k.Accrual? || k.ProductionCost? then spend
                  else if k.OvertimeTotal? then overtime
                  else if k.StationWork? then Sum(UsedAt(k.worker), stations) - Sum(UsedAt(k.worker), p.st.plant.stations)
                  else 0)
  {
    hide PlantHeld, StatHeld, TidyPlant;
    StationsHeld(p.st.plant, stations, k);
    SpendHeld(p.stats, spend, overtime, k);
  }

  lemma BookedStation(w: Workstation, quantity: int, overtime: int)
    ensures ConsumeLabor(w, quantity, overtime).id == w.id && ConsumeLabor(w, quantity, overtime).capacityUsed == w.capacityUsed
  {
  }

  lemma BookAdvanceMoves(s: Producing, i: nat, plan: Plan, k: Account)
    requires i < |s.p.st.plant.stations| && TidyPlant(s.p.st.plant)
    ensures var t := BookAdvance(s, i, plan);
            && TidyPlant(t.p.st.plant)
            && t.p.st.plant.wip == s.p.st.plant.wip
            && Balance(t.p, k) == Balance(s.p, k) +
                 (if k.Accrual? || k.ProductionCost? then plan.advance * plan.unit
                  else if k == StationWork(s.p.st.plant.stations[i].id) then plan.advance else 0)
            && t.p.stats.productionSpend == s.p.stats.productionSpend + plan.advance * plan.unit
  {
    hide ConsumeLabor, OvertimeUsed, Balance, TidyPlant, Movement, PlantHeld, StatHeld;
    var plant := s.p.st.plant;
    var w := plant.stations[i];
    var used := OvertimeUsed(w, plan.advance, At(s.overtime, w.id));
    var booked := ConsumeLabor(w, plan.advance, At(s.overtime, w.id));
    var station := booked.(capacityUsed := booked.capacityUsed + plan.advance);
    UnmovedEvents(k, 0, used, w.id);
    BookedStation(w, plan.advance, At(s.overtime, w.id));
    if k.StationWork? {
      SumUpdate(UsedAt(k.worker), plant.stations, i, station);
    }
    SpendBooked(s.p, plant.stations[i := station], plan.advance * plan.unit, Max(used, 0), k);
    var stats := s.p.stats.(productionSpend := s.p.stats.productionSpend + plan.advance * plan.unit,
                            overtimeUnits := s.p.stats.overtimeUnits + Max(used, 0));
    LogMoves(s.p.WithPlant(plant.(stations := plant.stations[i := station])).(stats := stats),
             OvertimeApplied(w.id, used), k);
  }

  lemma ScrapMoves(p: Phase, key: WipKey, qty: int, k: Account)
    requires TidyPlant(p.st.plant) && qty >= 0
    ensures TidyPlant(ScrapUnits(p, key, qty).st.plant)
    ensures Balance(ScrapUnits(p, key, qty), k) == Balance(p, k) + Shifted(k, key, qty)
    ensures ScrapUnits(p, key, qty).stats.productionSpend == p.stats.productionSpend
  {
    hide Balance, TidyPlant, Movement, PlantHeld, StatHeld;
    ProductionEvents(k, key, qty);
    if qty > 0 {
      ScrapCounted(p, qty, k);
      LogMoves(p.(stats := p.stats.(scrapUnits := p.stats.scrapUnits + qty)), Scrapped(key.product, qty, key.station), k);
    }
  }

  lemma ScrapCounted(p: Phase, qty: int, k: Account)
    ensures var q := p.(stats := p.stats.(scrapUnits := p.stats.scrapUnits + qty));
            Balance(q, k) == Balance(p, k) + (if k.ScrapTotal? then qty else 0)
  {
    hide PlantHeld;
  }

  lemma CountMoves(p: Phase, rework: int, produced: int, k: Account)
    ensures var q := p.(stats := p.stats.(reworkUnits := p.stats.reworkUnits + rework,
                                          producedUnits := p.stats.producedUnits + produced));
            Balance(q, k) == Balance(p, k) + (if k.ReworkTotal? then rework else if k.ProducedTotal? then produced else 0)
  {
    hide PlantHeld;
  }

  lemma ReworkMoves(p: Phase, key: WipKey, qty: int, cost: int, k: Account)
    requires TidyPlant(p.st.plant) && qty >= 0
    ensures TidyPlant(ReworkUnits(p, key, qty, cost).st.plant)
    ensures Balance(ReworkUnits(p, key, qty, cost), k) == Balance(p, k) + Shifted(k, key, qty)
    ensures ReworkUnits(p, key, qty, cost).stats.productionSpend == p.stats.productionSpend
  {
    hide Add, Balance, TidyPlant, Movement, PlantHeld, StatHeld;
    ProductionEvents(k, key, qty);
    if qty > 0 {
      var q := p.(stats := p.stats.(reworkUnits := p.stats.reworkUnits + qty));
      CountMoves(p, qty, 0, k);
      AddWipMoves(q, key, qty, cost, k);
      LogMoves(AddWip(q, key, qty, cost), ReworkCreated(key.product, qty, key.station), k);
    }
  }

  lemma HoldMoves(p: Phase, key: WipKey, qty: int, cost: int, round: int, release: int, k: Account)
    requires TidyPlant(p.st.plant) && qty >= 0
    ensures TidyPlant(HoldUnits(p, key, qty, cost, round, release).st.plant)
    ensures Balance(HoldUnits(p, key, qty, cost, round, release), k) == Balance(p, k) + Shifted(k, key, qty)
    ensures HoldUnits(p, key, qty, cost, round, release).stats.productionSpend == p.stats.productionSpend
  {
    hide AddHold, Balance;
    if qty > 0 {
      PlaceHoldMoves(p, key.product, qty, cost, round, release, ProductionQuality, Some(key.station), k);
    }
  }

  lemma StockMoves(p: Phase, key: WipKey, qty: int, cost: int, k: Account)
    requires TidyPlant(p.st.plant) && qty >= 0
    ensures TidyPlant(StockUnits(p, key, qty, cost).st.plant)
    ensures Balance(StockUnits(p, key, qty, cost), k) == Balance(p, k) + Shifted(k, key, qty)
    ensures StockUnits(p, key, qty, cost).stats.productionSpend == p.stats.productionSpend
  {
    hide Add, Balance, TidyPlant, Movement, PlantHeld, StatHeld;
    ProductionEvents(k, key, qty);
    if qty > 0 {
      AddFinishedMoves(p, key.product, qty, cost, k);
      var q := AddFinished(p, key.product, qty, cost);
      CountMoves(q, 0, qty, k);
      LogMoves(q.(stats := q.stats.(producedUnits := q.stats.producedUnits + qty)),
               FinishedProduced(key.product, qty, key.station), k);
    }
  }

  lemma DrawMoves(p: Phase, drawn: nat, k: Account)
    ensures Balance(p.(drawn := drawn), k) == Balance(p, k)
  {
  }

  /** A completed batch reappears in full: as scrap in the log, as rework, on hold, and as finished goods. */
  lemma CompleteMoves(env: Env, p: Phase, key: WipKey, qty: int, cost: int, overtime: bool, k: Account)
    requires TidyPlant(p.st.plant) && qty > 0
    ensures TidyPlant(CompleteUnits(env, p, key, qty, cost, overtime).st.plant)
    ensures Balance(CompleteUnits(env, p, key, qty, cost, overtime), k) ==
            Balance(p, k) + Shifted(k, key, qty)
    ensures CompleteUnits(env, p, key, qty, cost, overtime).stats.productionSpend == p.stats.productionSpend
  {
    hide Balance, TidyPlant, ScrapUnits, ReworkUnits, HoldUnits, StockUnits, FinishedSplit, Normalized;
    var ctx := FinalInspection(key.product, key.station, qty, key.station in p.stressed, overtime);
    var raw := env.cfg.quality(p.st, env.round, ctx);
    var split := FinishedSplit(qty, Normalized(raw), env.random, p.drawn);
    SplitConserves(qty, raw, env.random, p.drawn);
    var release := env.round + Max(Normalized(raw).holdRounds, 1);
    var p0 := p.(drawn := Drawn(env.random, p.drawn, qty));
    DrawMoves(p, Drawn(env.random, p.drawn, qty), k);
    assert p0.st == p.st && p0.stats == p.stats;
    var p1 := ScrapUnits(p0, key, split.scrap);
    ScrapMoves(p0, key, split.scrap, k);
    var p2 := ReworkUnits(p1, key, split.rework, cost);
    ReworkMoves(p1, key, split.rework, cost, k);
    var p3 := HoldUnits(p2, key, split.hold, cost, env.round, release);
    HoldMoves(p2, key, split.hold, cost, env.round, release, k);
    StockMoves(p3, key, split.Good(qty), cost, k);
  }

  lemma MoveUnitsMove(env: Env, p: Phase, key: WipKey, qty: int, cost: int, overtime: bool, k: Account)
    requires TidyPlant(p.st.plant) && qty > 0
    ensures TidyPlant(MoveUnits(env, p, key, qty, cost, overtime).st.plant)
    ensures Balance(MoveUnits(env, p, key, qty, cost, overtime), k) ==
            Balance(p, k) + Shifted(k, key, qty)
    ensures MoveUnits(env, p, key, qty, cost, overtime).stats.productionSpend == p.stats.productionSpend
  {
    hide Balance, CompleteUnits, Add, TidyPlant, Movement, PlantHeld, StatHeld;
    UnmovedEvents(k, key.product, qty, key.station);
    WorkEvents(k, key.product, qty, key.station, env.cfg.route(p.st, env.round, key.product, key.station).next);
    var route := env.cfg.route(p.st, env.round, key.product, key.station);
    if route.finished {
      CompleteMoves(env, p, key, qty, cost, overtime, k);
    } else if route.next == NO_STATION {
      AddWipMoves(p, key, qty, cost, k);
      LogMoves(AddWip(p, key, qty, cost), AdvanceIgnored(key.product, qty, key.station), k);
    } else {
      AddWipMoves(p, WipKey(key.product, route.next), qty, cost, k);
      LogMoves(AddWip(p, WipKey(key.product, route.next), qty, cost),
               WorkAdvanced(key.product, qty, key.station, route.next), k);
    }
  }

  lemma PlanWithinLimits(env: Env, p: Phase, i: nat, overtime: int, cap: int, spent: int, a: CapacityAllocation)
    requires i < |p.st.plant.stations|
    ensures var plan := PlanAdvance(env, p, i, overtime, cap, spent, a);
            var w := p.st.plant.stations[i];
            && plan.unit > 0
            && (plan.advance > 0 ==>
                  && plan.advance <= a.capacity
                  && plan.advance <= QtyOf(p.st.plant.wip, WipKey(a.product, a.station))
                  && plan.advance <= w.effective - w.capacityUsed
                  && plan.advance <= LaborLeft(w, overtime))
  {
    hide AffordableAdvance, QtyOf, SpendCapacity, LaborLeft, BaseLaborLeft;
    var plant := p.st.plant;
    var w := plant.stations[i];
    var base := BaseLaborLeft(w);
    var limit := Min(Min(Min(a.capacity, w.effective - w.capacityUsed),
                         QtyOf(plant.wip, WipKey(a.product, a.station))), LaborLeft(w, overtime));
    var plan := PlanAdvance(env, p, i, overtime, cap, spent, a);
    AdvanceStaysBelow(limit, base, overtime, plan.unit, w.overtimeCost, cap - spent);
    var budgeted := if cap <= 0 then limit else if cap - spent <= 0 then 0
                    else AffordableAdvance(limit, base, overtime, plan.unit, w.overtimeCost, cap - spent);
    AdvanceStaysBelow(budgeted, base, overtime, plan.unit, w.overtimeCost,
                      SpendCapacity(Position(plant.cash, plant.debt), plant.debtCeiling));
  }

  lemma AdvanceMoves(env: Env, s: Producing, cap: int, a: CapacityAllocation, k: Account)
    requires TidyPlant(s.p.st.plant)
    ensures var t := Advance(env, s, cap, a);
            && TidyPlant(t.p.st.plant)
            && t.p.stats.productionSpend >= s.p.stats.productionSpend
            && Balance(t.p, k) == Balance(s.p, k) + (if k.Accrual? || k.ProductionCost?
                                                     then t.p.stats.productionSpend - s.p.stats.productionSpend else 0)
  {
    hide Balance, TidyPlant, PlanAdvance, BookAdvance, MoveUnits, Take, TakeCost, QtyOf, StressedCapacity, OvertimeUsed;
    var i := StationIndex(s.p.st.plant.stations, a.station);
    if a.capacity > 0 && i < |s.p.st.plant.stations| {
      var p := MeasureStress(s.p, i);
      MeasureMoves(s.p, i, k);
      var plan := PlanAdvance(env, p, i, At(s.overtime, a.station), cap, s.spent, a);
      PlanWithinLimits(env, p, i, At(s.overtime, a.station), cap, s.spent, a);
      if plan.advance > 0 {
        var key := WipKey(a.product, a.station);
        var cost := PerUnitCost(TakeCost(p.st.plant.wip, key, plan.advance, 0), plan.advance);
        var overtime := OvertimeUsed(p.st.plant.stations[i], plan.advance, At(s.overtime, a.station)) > 0;
        TakeWipMoves(p, key, plan.advance, k);
        var taken := s.(p := TakeWip(p, key, plan.advance));
        BookAdvanceMoves(taken, i, plan, k);
        var booked := BookAdvance(taken, i, plan);
        MoveUnitsMove(env, booked.p, key, plan.advance, cost, overtime, k);
        ProductNonNegative(plan.advance, plan.unit);
      }
    }
  }

  lemma {:induction false} AdvanceAllMove(env: Env, s: Producing, cap: int, allocations: seq<CapacityAllocation>, k: Account)
    requires TidyPlant(s.p.st.plant)
    ensures var t := AdvanceAll(env, s, cap, allocations);
            && TidyPlant(t.p.st.plant)
            && t.p.stats.productionSpend >= s.p.stats.productionSpend
            && Balance(t.p, k) == Balance(s.p, k) + (if k.Accrual? || k.ProductionCost?
                                                     then t.p.stats.productionSpend - s.p.stats.productionSpend else 0)
    decreases |allocations|
  {
    hide Balance, TidyPlant, Advance;
    if |allocations| > 0 {
      AdvanceMoves(env, s, cap, allocations[0], k);
      AdvanceAllMove(env, Advance(env, s, cap, allocations[0]), cap, allocations[1..], k);
    }
  }

  lemma ReleaseKeepsSpend(env: Env, p: Phase, first: WorkstationID, releases: seq<ProductionRelease>)
    requires TidyPlant(p.st.plant)
    ensures ReleaseAll(env, p, first, releases).stats.productionSpend == p.stats.productionSpend
  {
    hide ReleaseAll;
    ReleaseAllMoves(env, p, first, releases, ProductionCost);
    CostsAreStats(p);
    CostsAreStats(ReleaseAll(env, p, first, releases));
  }

  /** The cost accounts have no movements, so their balance is the statistic itself. */
  lemma CostsAreStats(p: Phase)
    ensures Balance(p, ProductionCost) == p.stats.productionSpend
    ensures Balance(p, PayrollCost) == p.stats.payrollExpense
    ensures Balance(p, HoldingCosts) == p.stats.holdingCost
    ensures Balance(p, DebtCost) == p.stats.debtServiceCost
  {
    hide Balance;
    CostIsStat(p, ProductionCost);
    CostIsStat(p, PayrollCost);
    CostIsStat(p, HoldingCosts);
    CostIsStat(p, DebtCost);
  }

  lemma CostIsStat(p: Phase, k: Account)
    requires k.ProductionCost? || Closing(k)
    ensures Balance(p, k) == StatHeld(p.stats, k)
  {
    hide Sum, Movement, NetWorth, ProductStock, PartStock;
    SumZero(k, p.events);
  }

  lemma {:induction false} SumZero(k: Account, events: seq<Event>)
    requires k.ProductionCost? || Closing(k) || k.Accrual? || k.CashFlow?
    ensures Sum(Moved(k), events) == 0
  {
    if |events| > 0 {
      SumZero(k, events[1..]);
    }
  }

  lemma ProductionBalances(env: Env, p: Phase, action: Option<ActionSubmission>, k: Account)
    requires TidyPlant(p.st.plant) && p.stats.productionSpend == 0
    requires k.PartUnits? ==> SoundBills(env.cfg)
    requires !k.ProductionCost?
    ensures Balance(ResolveProduction(env, p, action), k) == Balance(p, k)
    ensures TidyPlant(ResolveProduction(env, p, action).st.plant)
  {
    hide Balance, TidyPlant, ReleaseAll, AdvanceAll, RequestOvertime, SoundBills, ProjectCashDelta;
    if action.Some? && action.value.action.production.Some? && |p.st.plant.stations| > 0 {
      var todo := action.value.action.production.value;
      var first, overtime := p.st.plant.stations[0].id, RequestOvertime(map[], todo.overtime);
      ReleaseAllMoves(env, p, first, todo.releases, k);
      ReleaseKeepsSpend(env, p, first, todo.releases);
      var released := ReleaseAll(env, p, first, todo.releases);
      var cap := CappedBudget(released.st.targets.productionSpendBudget);
      AdvanceAllMove(env, Producing(released, overtime, 0), cap, todo.allocations, k);
      var s := AdvanceAll(env, Producing(released, overtime, 0), cap, todo.allocations);
      DisburseMoves(s.p, s.p.stats.productionSpend, k);
      DisburseTidy(s.p, s.p.stats.productionSpend);
    }
  }

  lemma DisburseTidy(p: Phase, amount: int)
    requires TidyPlant(p.st.plant)
    ensures TidyPlant(p.Disburse(amount).st.plant)
  {
    hide ProjectCashDelta;
  }
}
