/**
 Lots in transit. A lot arrives in its promised round or, after a single delay, the supplier's late rounds
 later; it is received once; and the counters of a supplier keep step with its lots.
 */
module SupplyPipeline {
  import opened Seqs
  import opened Domain
  import opened Cash
  import opened Inventory
  import opened Quality
  import opened Phases
  import opened Actions
  import opened Resolver
  import opened Ledger
  import opened LedgerPhases
  import opened LedgerClosing
  import opened Frames
  import opened Accounting
  import opened Settlement

  // ---------------------------------------------------------------- suppliers

  /** The delivery terms of suppliers do not change; counters and scores may. */
  ghost predicate SameTerms(a: seq<Supplier>, b: seq<Supplier>) {
    && |a| == |b|
    && forall i | 0 <= i < |a| :: a[i].id == b[i].id && a[i].lateRounds == b[i].lateRounds && a[i].onTimePct == b[i].onTimePct
  }

  ghost predicate ScoresInRange(suppliers: seq<Supplier>) { forall s | s in suppliers :: 0 <= s.score <= 100 }

  lemma SameIndex(a: seq<Supplier>, b: seq<Supplier>, id: SupplierID)
    requires SameTerms(a, b)
    ensures SupplierIndex(a, id) == SupplierIndex(b, id)
    ensures LateRounds(a, id) == LateRounds(b, id)
  {
  }

  /** Orders placed and not yet received, as the supplier's own counters see it. */
  function Lag(suppliers: seq<Supplier>, id: SupplierID): int {
    var i := SupplierIndex(suppliers, id);
    if i < |suppliers| then suppliers[i].placed - suppliers[i].received else 0
  }

  /** What holds between a round's supplier list and an earlier one. */
  ghost predicate Kept(a: seq<Supplier>, b: seq<Supplier>) {
    SameTerms(a, b) && (ScoresInRange(a) ==> ScoresInRange(b))
  }

  lemma OrderCounted(suppliers: seq<Supplier>, who: SupplierID, id: SupplierID)
    ensures Kept(suppliers, CountOrder(suppliers, who))
    ensures SupplierIndex(suppliers, id) < |suppliers| ==>
            Lag(CountOrder(suppliers, who), id) == Lag(suppliers, id) + (if who == id then 1 else 0)
  {
    hide SupplierIndex;
    SameIndex(suppliers, CountOrder(suppliers, who), id);
  }

  lemma ReceiptCounted(suppliers: seq<Supplier>, who: SupplierID, id: SupplierID)
    ensures Kept(suppliers, CountReceipt(suppliers, who))
    ensures SupplierIndex(suppliers, id) < |suppliers| ==>
            Lag(CountReceipt(suppliers, who), id) == Lag(suppliers, id) - (if who == id then 1 else 0)
  {
    hide SupplierIndex;
    SameIndex(suppliers, CountReceipt(suppliers, who), id);
  }

  lemma DelayCounted(suppliers: seq<Supplier>, who: SupplierID, id: SupplierID)
    ensures Kept(suppliers, CountDelay(suppliers, who))
    ensures SupplierIndex(suppliers, id) < |suppliers| ==>
            Lag(CountDelay(suppliers, who), id) == Lag(suppliers, id)
  {
    hide SupplierIndex;
    SameIndex(suppliers, CountDelay(suppliers, who), id);
  }

  function LotsBy(id: SupplierID): SupplyLot -> int { (l: SupplyLot) => if l.supplier == id then 1 else 0 }

  lemma {:induction false} OrdersCount(env: Env, b: Buying, cap: int, action: ActionID, line: nat,
                                       orders: seq<PurchaseOrderIntent>, id: SupplierID)
    ensures var c := PlaceOrders(env, b, cap, action, line, orders);
            && Kept(b.p.st.suppliers, c.p.st.suppliers)
            && b.p.st.plant.inTransit <= c.p.st.plant.inTransit
            && (forall i | |b.p.st.plant.inTransit| <= i < |c.p.st.plant.inTransit| ::
                  var lot := c.p.st.plant.inTransit[i];
                  lot.ordered == env.round < lot.promised == lot.arrival)
            && (SupplierIndex(b.p.st.suppliers, id) < |b.p.st.suppliers| ==>
                  Lag(c.p.st.suppliers, id) - Sum(LotsBy(id), c.p.st.plant.inTransit) ==
                  Lag(b.p.st.suppliers, id) - Sum(LotsBy(id), b.p.st.plant.inTransit))
    decreases |orders|
  {
    hide AllowedOrder, CountOrder, ProjectedSpendCapacity, Lag, ScoresInRange, SupplierIndex;
    if |orders| > 0 {
      var c := PlaceOrder(env, b, cap, action, line, orders[0]);
      OrderCounted(b.p.st.suppliers, orders[0].supplier, id);
      SameIndex(b.p.st.suppliers, CountOrder(b.p.st.suppliers, orders[0].supplier), id);
      if c != b {
        var t := NormalizedTerms(env.cfg.terms(b.p.st, env.round, orders[0]));
        var allowed := AllowedOrder(t, orders[0].quantity, cap, b.spent, ProjectedSpendCapacity(b.p.st.plant));
        var lot := NewLot(env, action, line, orders[0], t, allowed);
        SumPush(LotsBy(id), b.p.st.plant.inTransit, lot);
      }
      OrdersCount(env, c, cap, action, line + 1, orders[1..], id);
    }
  }

  // ---------------------------------------------------------------- arrival rounds

  /** Before its promised round a lot is undelayed; after it, it is late by exactly the supplier's late rounds, and not overdue. */
  ghost predicate LotOnTime(lot: SupplyLot, suppliers: seq<Supplier>, round: int) {
    || round <= lot.promised == lot.arrival
    || (lot.promised < round <= lot.arrival && lot.arrival == lot.promised + LateRounds(suppliers, lot.supplier))
  }

  /** A lot that arrives does so in its arrival round. */
  ghost predicate Arriving(lot: SupplyLot, suppliers: seq<Supplier>, round: int) {
    lot.arrival == round && (lot.promised == round || round == lot.promised + LateRounds(suppliers, lot.supplier))
  }

  lemma SortLotOnTime(env: Env, r: Receiving, lot: SupplyLot)
    requires LotOnTime(lot, r.p.st.suppliers, env.round)
    ensures var s := SortLot(env, r, lot);
            && Kept(r.p.st.suppliers, s.p.st.suppliers)
            && (forall l | l in s.arrivals :: l in r.arrivals || (l == lot && Arriving(l, r.p.st.suppliers, env.round)))
            && (forall l | l in s.remaining :: l in r.remaining ||
                  (LotOnTime(l, r.p.st.suppliers, env.round + 1) && Order(l) == Order(lot) &&
                   (l == lot || (lot.arrival == lot.promised == env.round))))
  {
    hide CountDelay, ScoresInRange;
    DelayCounted(r.p.st.suppliers, lot.supplier, 0);
  }

  lemma OnTimeUnder(lot: SupplyLot, a: seq<Supplier>, b: seq<Supplier>, round: int)
    requires SameTerms(a, b)
    ensures LotOnTime(lot, a, round) == LotOnTime(lot, b, round)
    ensures Arriving(lot, a, round) == Arriving(lot, b, round)
  {
    SameIndex(a, b, lot.supplier);
  }

  lemma {:induction false} SortLotsOnTime(env: Env, r: Receiving, lots: seq<SupplyLot>, suppliers: seq<Supplier>)
    requires Kept(suppliers, r.p.st.suppliers)
    requires forall l | l in lots :: LotOnTime(l, suppliers, env.round)
    requires forall l | l in r.arrivals :: Arriving(l, suppliers, env.round)
    requires forall l | l in r.remaining :: LotOnTime(l, suppliers, env.round + 1)
    ensures var s := SortLots(env, r, lots);
            && Kept(suppliers, s.p.st.suppliers)
            && (forall l | l in s.arrivals :: Arriving(l, suppliers, env.round))
            && (forall l | l in s.remaining :: LotOnTime(l, suppliers, env.round + 1))
            && (forall l | l in s.remaining :: l in r.remaining || exists o :: o in lots && Order(o) == Order(l))
    decreases |lots|
  {
    hide SortLot, LotOnTime, Arriving, ScoresInRange;
    if |lots| > 0 {
      var now := r.p.st.suppliers;
      OnTimeUnder(lots[0], suppliers, now, env.round);
      SortLotOnTime(env, r, lots[0]);
      var s := SortLot(env, r, lots[0]);
      forall l | l in s.arrivals ensures Arriving(l, suppliers, env.round) {
        OnTimeUnder(l, suppliers, now, env.round);
      }
      forall l | l in s.remaining ensures LotOnTime(l, suppliers, env.round + 1) {
        OnTimeUnder(l, suppliers, now, env.round + 1);
      }
      SortLotsOnTime(env, s, lots[1..], suppliers);
      assert lots[0] in lots;
    }
  }

  lemma {:induction false} StoreLotsKeep(p: Phase, lots: seq<SupplyLot>, id: SupplierID)
    ensures var q := StoreLots(p, lots);
            && Kept(p.st.suppliers, q.st.suppliers)
            && (SupplierIndex(p.st.suppliers, id) < |p.st.suppliers| ==>
                  Lag(q.st.suppliers, id) == Lag(p.st.suppliers, id) - Sum(LotsBy(id), lots))
    decreases |lots|
  {
    hide Add, CountReceipt, Lag, ScoresInRange, SupplierIndex;
    if |lots| > 0 {
      ReceiptCounted(p.st.suppliers, lots[0].supplier, id);
      SameIndex(p.st.suppliers, CountReceipt(p.st.suppliers, lots[0].supplier), id);
      StoreLotsKeep(StoreLot(p, lots[0]), lots[1..], id);
    }
  }

  lemma {:induction false} SortLotsKeepLag(env: Env, r: Receiving, lots: seq<SupplyLot>, id: SupplierID)
    ensures var s := SortLots(env, r, lots);
            SupplierIndex(r.p.st.suppliers, id) < |r.p.st.suppliers| ==>
              SupplierIndex(s.p.st.suppliers, id) < |s.p.st.suppliers| && Lag(s.p.st.suppliers, id) == Lag(r.p.st.suppliers, id)
    decreases |lots|
  {
    hide CountDelay, Lag, MayDelay, Delays, SupplierIndex;
    if |lots| > 0 {
      DelayCounted(r.p.st.suppliers, lots[0].supplier, id);
      SameIndex(r.p.st.suppliers, CountDelay(r.p.st.suppliers, lots[0].supplier), id);
      SortLotsKeepLag(env, SortLot(env, r, lots[0]), lots[1..], id);
    }
  }

  // ---------------------------------------------------------------- the round

  /** Every lot of the state is on time and was ordered in an earlier round. */
  ghost predicate PipelineOnTime(st: MatchState) {
    forall l | l in st.plant.inTransit :: l.ordered < st.currentRound && LotOnTime(l, st.suppliers, st.currentRound)
  }

  /** Receiving the supply of a round, from what procurement left in transit. */
  lemma SupplyOnTime(env: Env, p: Phase, id: SupplierID)
    requires forall l | l in p.st.plant.inTransit :: LotOnTime(l, p.st.suppliers, env.round)
    ensures var q := ReceiveSupply(env, p);
            && Kept(p.st.suppliers, q.st.suppliers)
            && (forall l | l in Arrivals(env, p) :: Arriving(l, p.st.suppliers, env.round))
            && (forall l | l in q.st.plant.inTransit :: LotOnTime(l, p.st.suppliers, env.round + 1))
            && (forall l | l in q.st.plant.inTransit :: exists o :: o in p.st.plant.inTransit && Order(o) == Order(l))
            && (SupplierIndex(p.st.suppliers, id) < |p.st.suppliers| ==>
                  Lag(q.st.suppliers, id) - Sum(LotsBy(id), q.st.plant.inTransit) ==
                  Lag(p.st.suppliers, id) - Sum(LotsBy(id), p.st.plant.inTransit))
  {
    hide SortLots, StoreLots, LotOnTime, Arriving, ScoresInRange, Lag, Order, SupplierIndex;
    var lots := p.st.plant.inTransit;
    var r := SortLots(env, Receiving(p, [], []), lots);
    SortLotsOnTime(env, Receiving(p, [], []), lots, p.st.suppliers);
    SortLotsKeepLag(env, Receiving(p, [], []), lots, id);
    SortLotsSum(env, Receiving(p, [], []), lots, LotsBy(id));
    var stored := r.p.WithPlant(r.p.st.plant.(inTransit := r.remaining));
    StoreLotsKeep(stored, r.arrivals, id);
    StoreLotsFrame(stored, r.arrivals);
  }

  lemma {:induction false} SortLotsSum(env: Env, r: Receiving, lots: seq<SupplyLot>, f: SupplyLot -> int)
    requires BlindToArrival(f)
    ensures var s := SortLots(env, r, lots);
            Sum(f, s.arrivals) + Sum(f, s.remaining) == Sum(f, r.arrivals) + Sum(f, r.remaining) + Sum(f, lots)
    decreases |lots|
  {
    hide SortLot, BlindToArrival;
    if |lots| > 0 {
      SortLotKeepsLots(env, r, lots[0], f);
      SortLotsSum(env, SortLot(env, r, lots[0]), lots[1..], f);
    }
  }

  lemma AfterSupply(env: Env, p: Phase, actions: seq<ActionSubmission>)
    ensures var q, supplied := BeforeWorld(env, p, actions), ReceiveSupply(env, Bought(env, p, actions));
            q.st.suppliers == supplied.st.suppliers && q.st.plant.inTransit == supplied.st.plant.inTransit
  {
    hide ResolveProcurement, ReceiveSupply, ReleaseInspectionHolds, ProcessCustomerReturns, ResolveProduction, ResolveSales;
    var p2 := ReceiveSupply(env, Bought(env, p, actions));
    var p3 := ReleaseInspectionHolds(env, p2);
    HoldsFrame(env, p2);
    var p4 := ProcessCustomerReturns(env, p3);
    ReturnsFrame(env, p3);
    ProductionFrame(env, p4, ActionFor(actions, ProductionManager));
    SalesFrame(env, ResolveProduction(env, p4, ActionFor(actions, ProductionManager)), ActionFor(actions, SalesManager));
  }

  function RoundBought(cfg: Config, random: Random, drawn: nat, st: MatchState, actions: seq<ActionSubmission>): Phase
    requires NormalizeActions(st, actions).Ok?
  {
    Bought(EnvOf(cfg, random, st), Begin(st, drawn), NormalizeActions(st, actions).value)
  }

  function RoundArrivals(cfg: Config, random: Random, drawn: nat, st: MatchState, actions: seq<ActionSubmission>): seq<SupplyLot>
    requires NormalizeActions(st, actions).Ok?
  {
    Arrivals(EnvOf(cfg, random, st), RoundBought(cfg, random, drawn, st, actions))
  }

  lemma RoundSupply(cfg: Config, random: Random, drawn: nat, st: MatchState, actions: seq<ActionSubmission>, r: RoundResult)
    requires OrderlyWorld(cfg) && Resolved(cfg, random, drawn, st, actions, r)
    ensures NormalizeActions(st, actions).Ok?
    ensures var supplied := ReceiveSupply(EnvOf(cfg, random, st), RoundBought(cfg, random, drawn, st, actions));
            r.next.suppliers == supplied.st.suppliers && r.next.plant.inTransit == supplied.st.plant.inTransit
  {
    hide BeforeWorld, Finalize, ApplyWorld, NormalizeActions, ComputeMetrics, ReceiveSupply, Bought, OrderlyWorld;
    var env, ordered := EnvOf(cfg, random, st), NormalizeActions(st, actions).value;
    var p1 := BeforeWorld(env, Begin(st, drawn), ordered);
    AfterSupply(env, Begin(st, drawn), ordered);
    WorldMatures(env, p1, ordered);
    FinalizeFrame(env, ApplyWorld(env, p1, ordered).value, ActionFor(ordered, FinanceController));
  }

  lemma BoughtOnTime(env: Env, p: Phase, actions: seq<ActionSubmission>, id: SupplierID)
    requires forall l | l in p.st.plant.inTransit :: LotOnTime(l, p.st.suppliers, env.round)
    ensures var b := Bought(env, p, actions);
            && Kept(p.st.suppliers, b.st.suppliers)
            && p.st.plant.inTransit <= b.st.plant.inTransit
            && (forall i | |p.st.plant.inTransit| <= i < |b.st.plant.inTransit| ::
                  b.st.plant.inTransit[i].ordered == env.round < b.st.plant.inTransit[i].promised)
            && (forall l | l in b.st.plant.inTransit :: LotOnTime(l, b.st.suppliers, env.round))
            && (SupplierIndex(p.st.suppliers, id) < |p.st.suppliers| ==>
                  Lag(b.st.suppliers, id) - Sum(LotsBy(id), b.st.plant.inTransit) ==
                  Lag(p.st.suppliers, id) - Sum(LotsBy(id), p.st.plant.inTransit))
  {
    hide PlaceOrders, ProjectCashDelta, Lag, ScoresInRange, SupplierIndex, LateRounds, Sum;
    var action := ActionFor(actions, ProcurementManager);
    if action.Some? && action.value.action.procurement.Some? {
      OrdersCount(env, Buying(p, 0), CappedBudget(p.st.targets.procurementBudget), action.value.id, 1,
                  action.value.action.procurement.value, id);
    }
    var b := Bought(env, p, actions);
    forall l | l in b.st.plant.inTransit ensures LotOnTime(l, b.st.suppliers, env.round) {
      var i :| 0 <= i < |b.st.plant.inTransit| && b.st.plant.inTransit[i] == l;
      if i < |p.st.plant.inTransit| {
        assert p.st.plant.inTransit[i] == l;
        OnTimeUnder(l, p.st.suppliers, b.st.suppliers, env.round);
      }
    }
  }

  /**
   One round of the pipeline: what arrives does so in its arrival round, which is the promised one or late by
   the supplier's rounds; what stays is still on time for the next round; scores stay a percentage; and the
   counters of every known supplier move with its lots.
   */
  lemma RoundPipeline(cfg: Config, random: Random, drawn: nat, st: MatchState, actions: seq<ActionSubmission>,
                      r: RoundResult, id: SupplierID)
    requires ValidConfig(cfg) && OrderlyWorld(cfg) && Resolved(cfg, random, drawn, st, actions, r) && PipelineOnTime(st)
    ensures NormalizeActions(st, actions).Ok?
    ensures forall l | l in RoundArrivals(cfg, random, drawn, st, actions) :: Arriving(l, st.suppliers, st.currentRound)
    ensures PipelineOnTime(r.next)
    ensures SameTerms(st.suppliers, r.next.suppliers) && (ScoresInRange(st.suppliers) ==> ScoresInRange(r.next.suppliers))
    ensures SupplierIndex(st.suppliers, id) < |st.suppliers| ==>
            Lag(r.next.suppliers, id) - Sum(LotsBy(id), r.next.plant.inTransit) ==
            Lag(st.suppliers, id) - Sum(LotsBy(id), st.plant.inTransit)
  {
    hide Resolved, OrderlyWorld, NormalizeActions, Bought, ReceiveSupply, Arrivals, LotOnTime, Arriving, ScoresInRange, Lag;
    hide SupplierIndex, Sum, ResetCapacity, Rolled, Maturing, SameTerms;
    RoundSupply(cfg, random, drawn, st, actions, r);
    RoundRolls(cfg, random, drawn, st, actions, r);
    PhasePipeline(EnvOf(cfg, random, st), Begin(st, drawn), NormalizeActions(st, actions).value, id);
  }

  /** The same between the opening of a round and what is in transit after its supply. */
  lemma PhasePipeline(env: Env, p: Phase, actions: seq<ActionSubmission>, id: SupplierID)
    requires forall l | l in p.st.plant.inTransit :: l.ordered < env.round && LotOnTime(l, p.st.suppliers, env.round)
    ensures var b := Bought(env, p, actions);
            var q := ReceiveSupply(env, b);
            && (forall l | l in Arrivals(env, b) :: Arriving(l, p.st.suppliers, env.round))
            && (forall l | l in q.st.plant.inTransit :: l.ordered < env.round + 1 && LotOnTime(l, q.st.suppliers, env.round + 1))
            && SameTerms(p.st.suppliers, q.st.suppliers)
            && (ScoresInRange(p.st.suppliers) ==> ScoresInRange(q.st.suppliers))
            && (SupplierIndex(p.st.suppliers, id) < |p.st.suppliers| ==>
                  Lag(q.st.suppliers, id) - Sum(LotsBy(id), q.st.plant.inTransit) ==
                  Lag(p.st.suppliers, id) - Sum(LotsBy(id), p.st.plant.inTransit))
  {
    hide Bought, ReceiveSupply, Arrivals, LotOnTime, Arriving, ScoresInRange, Lag, SupplierIndex, Sum, Order;
    BoughtOnTime(env, p, actions, id);
    var b := Bought(env, p, actions);
    SameIndex(p.st.suppliers, b.st.suppliers, id);
    SupplyOnTime(env, b, id);
    var q := ReceiveSupply(env, b);
    TermsUnder(Arrivals(env, b), p.st.suppliers, b.st.suppliers, env.round);
    TermsUnder(q.st.plant.inTransit, b.st.suppliers, q.st.suppliers, env.round + 1);
    OrderedBefore(p.st.plant.inTransit, b.st.plant.inTransit, q.st.plant.inTransit, env.round);
  }

  lemma TermsUnder(lots: seq<SupplyLot>, a: seq<Supplier>, b: seq<Supplier>, round: int)
    requires SameTerms(a, b)
    ensures forall l | l in lots :: LotOnTime(l, a, round) == LotOnTime(l, b, round)
    ensures forall l | l in lots :: Arriving(l, a, round) == Arriving(l, b, round)
  {
    hide SameTerms, LotOnTime, Arriving;
    forall l | l in lots ensures LotOnTime(l, a, round) == LotOnTime(l, b, round) && Arriving(l, a, round) == Arriving(l, b, round) {
      OnTimeUnder(l, a, b, round);
    }
  }

  /** What is left in transit after a round was ordered in it or before. */
  lemma OrderedBefore(opening: seq<SupplyLot>, bought: seq<SupplyLot>, left: seq<SupplyLot>, round: int)
    requires opening <= bought && forall l | l in opening :: l.ordered < round
    requires forall i | |opening| <= i < |bought| :: bought[i].ordered == round
    requires forall l | l in left :: exists o :: o in bought && Order(o) == Order(l)
    ensures forall l | l in left :: l.ordered <= round
  {
    hide Order;
    forall l | l in left ensures l.ordered <= round {
      var o :| o in bought && Order(o) == Order(l);
      SameOrdered(o, l);
      var i :| 0 <= i < |bought| && bought[i] == o;
      assert i < |opening| ==> opening[i] == o && o in opening;
    }
  }

  lemma SameOrdered(a: SupplyLot, b: SupplyLot)
    requires Order(a) == Order(b)
    ensures a.ordered == b.ordered
  {
    assert Order(a).ordered == a.ordered && Order(b).ordered == b.ordered;
  }

  // ---------------------------------------------------------------- exactly once, over runs

  /** How many lots of one order are in transit, and how many of them a round received. */
  function InTransit(plant: Plant, lot: SupplyLot): int { Sum(SameOrder(lot), plant.inTransit) }

  function Receipts(record: RoundRecord, lot: SupplyLot): int { Sum(Moved(ArrivedLot(lot)), record.events) }

  lemma {:induction false} NoneOf(lots: seq<SupplyLot>, lot: SupplyLot)
    requires forall l | l in lots :: Order(l) != Order(lot)
    ensures Sum(SameOrder(lot), lots) == 0
  {
    if |lots| > 0 {
      NoneOf(lots[1..], lot);
    }
  }

  /**
   An earlier order, over one round: what left the pipeline is what the log received; nothing is received
   before the promised round, and nothing is left after the last possible arrival round.
   */
  lemma DeliveryInRound(cfg: Config, random: Random, drawn: nat, st: MatchState, actions: seq<ActionSubmission>,
                        r: RoundResult, lot: SupplyLot)
    requires ValidConfig(cfg) && ValidState(st) && SoundHooks(cfg) && PipelineOnTime(st)
    requires Resolved(cfg, random, drawn, st, actions, r) && lot.ordered < st.currentRound
    ensures InTransit(r.next.plant, lot) + Receipts(r.record, lot) == InTransit(st.plant, lot)
    ensures st.currentRound < lot.promised ==> Receipts(r.record, lot) == 0
    ensures st.currentRound >= lot.promised + LateRounds(st.suppliers, lot.supplier) ==> InTransit(r.next.plant, lot) == 0
  {
    hide Resolved, ValidState, OrderlyWorld, PermutingSort, NormalizeActions, LateRounds, Movement, PipelineOnTime, Sum;
    hide Bought, Arrivals, ReceiveSupply, ScoresInRange, Arriving;
    ReceiptsAreArrivals(cfg, random, drawn, st, actions, r, lot);
    RoundPipeline(cfg, random, drawn, st, actions, r, 0);
    ArrivalsLeave(cfg, random, drawn, st, actions, r, lot);
    NoneEarly(RoundArrivals(cfg, random, drawn, st, actions), st.suppliers, st.currentRound, lot);
    RoundRolls(cfg, random, drawn, st, actions, r);
    SameIndex(st.suppliers, r.next.suppliers, lot.supplier);
    GoneWhenLate(r.next, lot);
  }

  lemma NoneEarly(lots: seq<SupplyLot>, suppliers: seq<Supplier>, round: int, lot: SupplyLot)
    requires forall l | l in lots :: Arriving(l, suppliers, round)
    ensures round < lot.promised ==> Sum(SameOrder(lot), lots) == 0
  {
    hide LateRounds;
    if round < lot.promised {
      forall l | l in lots ensures Order(l) != Order(lot) {
        assert Arriving(l, suppliers, round);
        LateNotNegative(suppliers, l.supplier);
        assert l.promised == Order(l).promised;
      }
      NoneOf(lots, lot);
    }
  }

  /** An order is received in no round but its promised one and the one that is late by the supplier's late rounds. */
  lemma ReceivedInItsRound(cfg: Config, random: Random, drawn: nat, st: MatchState, actions: seq<ActionSubmission>,
                           r: RoundResult, lot: SupplyLot)
    requires ValidConfig(cfg) && ValidState(st) && SoundHooks(cfg) && PipelineOnTime(st)
    requires Resolved(cfg, random, drawn, st, actions, r)
    ensures Receipts(r.record, lot) != 0 ==>
              st.currentRound == lot.promised || st.currentRound == lot.promised + LateRounds(st.suppliers, lot.supplier)
  {
    hide Resolved, ValidState, OrderlyWorld, PermutingSort, NormalizeActions, LateRounds, Movement;
    hide Bought, Arrivals, ReceiveSupply, ScoresInRange;
    ReceiptsAreArrivals(cfg, random, drawn, st, actions, r, lot);
    RoundPipeline(cfg, random, drawn, st, actions, r, 0);
    var round := st.currentRound;
    if round != lot.promised && round != lot.promised + LateRounds(st.suppliers, lot.supplier) {
      forall l | l in RoundArrivals(cfg, random, drawn, st, actions) ensures Order(l) != Order(lot) {
        assert Arriving(l, st.suppliers, round);
        assert l.promised == Order(l).promised && l.supplier == Order(l).supplier;
      }
      NoneOf(RoundArrivals(cfg, random, drawn, st, actions), lot);
    }
  }

  lemma LateNotNegative(suppliers: seq<Supplier>, id: SupplierID)
    ensures LateRounds(suppliers, id) >= 0
  {
  }

  lemma ReceiptsAreArrivals(cfg: Config, random: Random, drawn: nat, st: MatchState, actions: seq<ActionSubmission>,
                            r: RoundResult, lot: SupplyLot)
    requires ValidState(st) && SoundHooks(cfg) && Resolved(cfg, random, drawn, st, actions, r)
    ensures NormalizeActions(st, actions).Ok?
    ensures Receipts(r.record, lot) == Sum(SameOrder(lot), RoundArrivals(cfg, random, drawn, st, actions))
  {
    hide Resolve, ValidState, OrderlyWorld, PermutingSort, Settlers, NormalizeActions, Movement, ComputeMetrics, Begin, Arrivals;
    hide Bought, Sum;
    var k := ArrivedLot(lot);
    var q := RoundAccount(cfg, random, drawn, st, actions, r, k);
    OpeningBooks(st, drawn, k);
  }

  lemma ArrivalsLeave(cfg: Config, random: Random, drawn: nat, st: MatchState, actions: seq<ActionSubmission>,
                      r: RoundResult, lot: SupplyLot)
    requires ValidConfig(cfg) && OrderlyWorld(cfg) && Resolved(cfg, random, drawn, st, actions, r) && PipelineOnTime(st)
    requires lot.ordered < st.currentRound
    ensures NormalizeActions(st, actions).Ok?
    ensures InTransit(r.next.plant, lot) + Sum(SameOrder(lot), RoundArrivals(cfg, random, drawn, st, actions)) ==
            InTransit(st.plant, lot)
  {
    hide Resolved, OrderlyWorld, NormalizeActions, Bought, LotOnTime, ScoresInRange, SortLots, StoreLots, ResetCapacity, Sum;
    RoundSupply(cfg, random, drawn, st, actions, r);
    var env, begin := EnvOf(cfg, random, st), Begin(st, drawn);
    var b := Bought(env, begin, NormalizeActions(st, actions).value);
    BoughtOnTime(env, begin, NormalizeActions(st, actions).value, 0);
    var added := b.st.plant.inTransit[|st.plant.inTransit|..];
    assert b.st.plant.inTransit == st.plant.inTransit + added;
    forall l | l in added ensures Order(l) != Order(lot) {
      assert l.ordered == Order(l).ordered;
    }
    NoneOf(added, lot);
    SumConcat(SameOrder(lot), st.plant.inTransit, added);
    var s := SortLots(env, Receiving(b, [], []), b.st.plant.inTransit);
    SortLotsSum(env, Receiving(b, [], []), b.st.plant.inTransit, SameOrder(lot));
    SumNothing(SameOrder(lot));
    SortLotsFrame(env, Receiving(b, [], []), b.st.plant.inTransit);
    StoreLotsFrame(s.p.WithPlant(s.p.st.plant.(inTransit := s.remaining)), s.arrivals);
  }

  lemma SumNothing(f: SupplyLot -> int)
    ensures Sum(f, []) == 0
  {
  }

  function RunReceipts(lot: SupplyLot): RoundResult -> int { (r: RoundResult) => Receipts(r.record, lot) }

  /**
   Over any run an order is delivered exactly once: receipts and what is still in transit always add up to what
   was in transit, nothing comes before the promised round, and all of it has come by the last possible round.
   */
  lemma {:induction false} DeliveredOnceOverRun(cfg: Config, random: Random, drawn: nat, st: MatchState,
                                                inputs: seq<seq<ActionSubmission>>, lot: SupplyLot)
    requires ValidConfig(cfg) && ValidState(st) && SoundHooks(cfg) && PipelineOnTime(st) && lot.ordered < st.currentRound
    ensures var run := Play(cfg, random, drawn, st, inputs);
            && PipelineOnTime(run.st)
            && InTransit(run.st.plant, lot) + Sum(RunReceipts(lot), run.results) == InTransit(st.plant, lot)
            && (run.st.currentRound <= lot.promised ==> Sum(RunReceipts(lot), run.results) == 0)
            && (run.st.currentRound > lot.promised + LateRounds(st.suppliers, lot.supplier) ==> InTransit(run.st.plant, lot) == 0)
            && run.st.currentRound >= st.currentRound
    decreases |inputs|
  {
    hide Resolve, ValidState, SoundHooks, PipelineOnTime, Receipts, InTransit, ValidConfig, LateRounds;
    if |inputs| > 0 && Resolve(cfg, random, drawn, st, inputs[0]).Ok? {
      var r := Resolve(cfg, random, drawn, st, inputs[0]).value;
      PipelineStep(cfg, random, drawn, st, inputs[0], r, lot);
      DeliveredOnceOverRun(cfg, random, r.drawn, r.next, inputs[1..], lot);
      var rest := Play(cfg, random, r.drawn, r.next, inputs[1..]);
      assert ([r] + rest.results)[1..] == rest.results;
    } else {
      GoneWhenLate(st, lot);
    }
  }

  lemma PipelineStep(cfg: Config, random: Random, drawn: nat, st: MatchState, actions: seq<ActionSubmission>, r: RoundResult, lot: SupplyLot)
    requires ValidConfig(cfg) && ValidState(st) && SoundHooks(cfg) && PipelineOnTime(st) && lot.ordered < st.currentRound
    requires Resolve(cfg, random, drawn, st, actions) == Ok(r)
    ensures ValidState(r.next) && PipelineOnTime(r.next) && r.next.currentRound == st.currentRound + 1
    ensures LateRounds(r.next.suppliers, lot.supplier) == LateRounds(st.suppliers, lot.supplier)
    ensures InTransit(r.next.plant, lot) + Receipts(r.record, lot) == InTransit(st.plant, lot)
    ensures st.currentRound < lot.promised ==> Receipts(r.record, lot) == 0
    ensures r.next.currentRound > lot.promised + LateRounds(st.suppliers, lot.supplier) ==> InTransit(r.next.plant, lot) == 0
  {
    hide Resolve, ValidState, OrderlyWorld, PermutingSort, PipelineOnTime, Receipts, InTransit, LateRounds, ValidConfig;
    hide RoundArrivals, ScoresInRange, NormalizeActions;
    DeliveryInRound(cfg, random, drawn, st, actions, r, lot);
    RoundPipeline(cfg, random, drawn, st, actions, r, 0);
    RoundRolls(cfg, random, drawn, st, actions, r);
    ProfitExplainsNetWorth(cfg, random, drawn, st, actions, r);
    SameIndex(st.suppliers, r.next.suppliers, lot.supplier);
  }

  lemma GoneWhenLate(st: MatchState, lot: SupplyLot)
    requires PipelineOnTime(st)
    ensures st.currentRound > lot.promised + LateRounds(st.suppliers, lot.supplier) ==> InTransit(st.plant, lot) == 0
  {
    if st.currentRound > lot.promised + LateRounds(st.suppliers, lot.supplier) {
      LateNotNegative(st.suppliers, lot.supplier);
      forall l | l in st.plant.inTransit ensures Order(l) != Order(lot) {
        assert LotOnTime(l, st.suppliers, st.currentRound);
        assert l.promised == Order(l).promised && l.supplier == Order(l).supplier;
      }
      NoneOf(st.plant.inTransit, lot);
    }
  }

  // ---------------------------------------------------------------- from the order to its delivery

  function OrderPlaced(lot: SupplyLot): Event -> int { (e: Event) => if e.PurchaseOrderPlaced? then SameOrder(lot)(e.lot) else 0 }

  function RunOrders(lot: SupplyLot): RoundResult -> int { (r: RoundResult) => Sum(OrderPlaced(lot), r.record.events) }

  lemma {:induction false} LotMovements(events: seq<Event>, lot: SupplyLot)
    ensures Sum(Moved(LotItem(lot)), events) == Sum(OrderPlaced(lot), events) - Sum(Moved(ArrivedLot(lot)), events)
  {
    if |events| > 0 {
      LotMovement(events[0], lot);
      hide Movement;
      LotMovements(events[1..], lot);
    }
  }

  lemma LotMovement(e: Event, lot: SupplyLot)
    ensures Movement(LotItem(lot), e) == OrderPlaced(lot)(e) - Movement(ArrivedLot(lot), e)
  {
    hide Order;
  }

  lemma TransitBalance(cfg: Config, random: Random, drawn: nat, st: MatchState, actions: seq<ActionSubmission>,
                       r: RoundResult, lot: SupplyLot)
    requires ValidState(st) && SoundHooks(cfg) && Resolved(cfg, random, drawn, st, actions, r)
    ensures InTransit(r.next.plant, lot) == InTransit(st.plant, lot) + RunOrders(lot)(r) - RunReceipts(lot)(r)
  {
    hide Resolve, ValidState, SoundHooks, Settlers, NormalizeActions, Movement, ComputeMetrics, Begin, Arrivals, Bought;
    var q := RoundAccount(cfg, random, drawn, st, actions, r, LotItem(lot));
    OpeningBooks(st, drawn, LotItem(lot));
    LotMovements(r.record.events, lot);
  }

  /** One round in the life of an order, placed already or not. */
  lemma RoundOrders(cfg: Config, random: Random, drawn: nat, st: MatchState, actions: seq<ActionSubmission>,
                    r: RoundResult, lot: SupplyLot)
    requires ValidConfig(cfg) && ValidState(st) && SoundHooks(cfg) && PipelineOnTime(st)
    requires Resolved(cfg, random, drawn, st, actions, r)
    ensures InTransit(r.next.plant, lot) == InTransit(st.plant, lot) + RunOrders(lot)(r) - RunReceipts(lot)(r)
    ensures RunReceipts(lot)(r) != 0 ==> r.record.round == lot.promised
                                         || r.record.round == lot.promised + LateRounds(st.suppliers, lot.supplier)
    ensures ValidState(r.next) && PipelineOnTime(r.next)
    ensures LateRounds(r.next.suppliers, lot.supplier) == LateRounds(st.suppliers, lot.supplier)
  {
    hide Resolve, ValidState, OrderlyWorld, PermutingSort, PipelineOnTime, Receipts, InTransit, LateRounds, ValidConfig;
    hide RoundArrivals, ScoresInRange, NormalizeActions, ComputeMetrics, RunOrders;
    TransitBalance(cfg, random, drawn, st, actions, r, lot);
    ReceivedInItsRound(cfg, random, drawn, st, actions, r, lot);
    RoundPipeline(cfg, random, drawn, st, actions, r, 0);
    ProfitExplainsNetWorth(cfg, random, drawn, st, actions, r);
    SameIndex(st.suppliers, r.next.suppliers, lot.supplier);
    FinalState(cfg, random, drawn, st, actions, r);
  }

  /**
   Over any run, for every order whatever: it was in transit at the start and placed during the run as often as it was
   received and is still in transit. It is received in its promised round, or late by the supplier's late rounds, and
   in no other round; once that last round has been played nothing of it is in transit.
   */
  lemma {:induction false} OrderedIsDeliveredOnce(cfg: Config, random: Random, drawn: nat, st: MatchState,
                                                  inputs: seq<seq<ActionSubmission>>, lot: SupplyLot)
    requires ValidConfig(cfg) && ValidState(st) && SoundHooks(cfg) && PipelineOnTime(st)
    ensures var run, late := Play(cfg, random, drawn, st, inputs), lot.promised + LateRounds(st.suppliers, lot.supplier);
            && PipelineOnTime(run.st)
            && InTransit(st.plant, lot) + Sum(RunOrders(lot), run.results) ==
               Sum(RunReceipts(lot), run.results) + InTransit(run.st.plant, lot)
            && (forall r | r in run.results && r.record.round != lot.promised && r.record.round != late :: RunReceipts(lot)(r) == 0)
            && (run.st.currentRound > late ==> InTransit(run.st.plant, lot) == 0)
    decreases |inputs|
  {
    hide Resolve, ValidState, SoundHooks, PipelineOnTime, Receipts, InTransit, ValidConfig, LateRounds;
    if |inputs| > 0 && Resolve(cfg, random, drawn, st, inputs[0]).Ok? {
      var r := Resolve(cfg, random, drawn, st, inputs[0]).value;
      RoundOrders(cfg, random, drawn, st, inputs[0], r, lot);
      OrderedIsDeliveredOnce(cfg, random, r.drawn, r.next, inputs[1..], lot);
      var rest := Play(cfg, random, r.drawn, r.next, inputs[1..]);
      assert ([r] + rest.results)[1..] == rest.results;
    } else {
      GoneWhenLate(st, lot);
    }
  }
}
