/**
 What becomes of every lot in transit, lot by lot. Which lots are received, which are delayed and which wait follows
 from the lots, the delivery terms of the suppliers and the rolls alone; a lot's own roll is found by counting the
 lots before it for which one was drawn.
 */
module SupplyFate {
  import opened Seqs
  import opened Domain
  import opened Cash
  import opened Inventory
  import opened Quality
  import opened Phases
  import opened Actions
  import opened Resolver
  import opened LedgerPhases
  import opened Frames
  import opened Accounting
  import opened SupplyPipeline

  // ---------------------------------------------------------------- the terms of a supplier

  ghost predicate IsFirst(suppliers: seq<Supplier>, i: nat, id: SupplierID) {
    i < |suppliers| && suppliers[i].id == id && forall j | 0 <= j < i :: suppliers[j].id != id
  }

  ghost predicate Known(suppliers: seq<Supplier>, id: SupplierID) { exists i: nat :: IsFirst(suppliers, i, id) }

  ghost function SupplierOf(suppliers: seq<Supplier>, id: SupplierID): Supplier
    requires Known(suppliers, id)
  {
    var i: nat :| IsFirst(suppliers, i, id);
    suppliers[i]
  }

  lemma SupplierIs(suppliers: seq<Supplier>, id: SupplierID)
    ensures Known(suppliers, id) <==> SupplierIndex(suppliers, id) < |suppliers|
    ensures Known(suppliers, id) ==> SupplierOf(suppliers, id) == suppliers[SupplierIndex(suppliers, id)]
  {
    var i := SupplierIndex(suppliers, id);
    assert i < |suppliers| ==> IsFirst(suppliers, i, id);
  }

  // ---------------------------------------------------------------- fates

  /** A lot promised for this round and not delayed yet, from a known supplier that is neither certain nor prompt. */
  ghost predicate DrawsRoll(env: Env, suppliers: seq<Supplier>, lot: SupplyLot) {
    && lot.promised == lot.arrival == env.round
    && env.random.Random?
    && Known(suppliers, lot.supplier)
    && SupplierOf(suppliers, lot.supplier).lateRounds > 0
    && SupplierOf(suppliers, lot.supplier).onTimePct < 100
  }

  ghost function Drawers(env: Env, suppliers: seq<Supplier>, lots: seq<SupplyLot>, k: nat): set<nat>
    requires k <= |lots|
  {
    set j: nat | j < k && DrawsRoll(env, suppliers, lots[j])
  }

  /** A lot is late exactly when its own roll does not stay below the on-time rate of its supplier. */
  ghost predicate Late(env: Env, suppliers: seq<Supplier>, lots: seq<SupplyLot>, drawn: nat, k: nat)
    requires k < |lots|
  {
    && DrawsRoll(env, suppliers, lots[k])
    && env.random.rolls(drawn + |Drawers(env, suppliers, lots, k)|) >= SupplierOf(suppliers, lots[k].supplier).onTimePct
  }

  ghost predicate Comes(env: Env, suppliers: seq<Supplier>, lots: seq<SupplyLot>, drawn: nat, k: nat)
    requires k < |lots|
  {
    !Late(env, suppliers, lots, drawn, k) && lots[k].promised <= env.round && lots[k].arrival <= env.round
  }

  /** The lot as it is after a delay: expected the late rounds of its supplier after the promised round. */
  ghost function LateLot(suppliers: seq<Supplier>, lot: SupplyLot): SupplyLot
    requires Known(suppliers, lot.supplier)
  {
    lot.(arrival := lot.promised + SupplierOf(suppliers, lot.supplier).lateRounds)
  }

  ghost function Coming(env: Env, suppliers: seq<Supplier>, lots: seq<SupplyLot>, drawn: nat, k: nat): seq<SupplyLot>
    requires k <= |lots|
  {
    if k == 0 then []
    else Coming(env, suppliers, lots, drawn, k - 1) + if Comes(env, suppliers, lots, drawn, k - 1) then [lots[k - 1]] else []
  }

  ghost function Staying(env: Env, suppliers: seq<Supplier>, lots: seq<SupplyLot>, drawn: nat, k: nat): seq<SupplyLot>
    requires k <= |lots|
  {
    if k == 0 then []
    else
      Staying(env, suppliers, lots, drawn, k - 1) +
      if Late(env, suppliers, lots, drawn, k - 1) then [LateLot(suppliers, lots[k - 1])]
      else if Comes(env, suppliers, lots, drawn, k - 1) then []
      else [lots[k - 1]]
  }

  ghost function Delayed(env: Env, suppliers: seq<Supplier>, lots: seq<SupplyLot>, drawn: nat, k: nat): seq<Event>
    requires k <= |lots|
  {
    if k == 0 then []
    else
      Delayed(env, suppliers, lots, drawn, k - 1) +
      if Late(env, suppliers, lots, drawn, k - 1) then [SupplyDelayed(LateLot(suppliers, lots[k - 1]))] else []
  }

  function Arrived(lots: seq<SupplyLot>): seq<Event> { seq(|lots|, i requires 0 <= i < |lots| => SupplyArrived(lots[i])) }

  // ---------------------------------------------------------------- the sorting loop

  /** The loop of `receiveSupply` after k lots, seen from its start. */
  ghost predicate Sorted(env: Env, p: Phase, lots: seq<SupplyLot>, k: nat, r: Receiving)
    requires k <= |lots|
  {
    && SameTerms(p.st.suppliers, r.p.st.suppliers)
    && r.p.drawn == p.drawn + |Drawers(env, p.st.suppliers, lots, k)|
    && r.arrivals == Coming(env, p.st.suppliers, lots, p.drawn, k)
    && r.remaining == Staying(env, p.st.suppliers, lots, p.drawn, k)
    && r.p.events == p.events + Delayed(env, p.st.suppliers, lots, p.drawn, k)
  }

  lemma TermsOf(a: seq<Supplier>, b: seq<Supplier>, id: SupplierID)
    requires SameTerms(a, b)
    ensures Known(a, id) <==> SupplierIndex(b, id) < |b|
    ensures Known(a, id) ==> SupplierOf(a, id).lateRounds == b[SupplierIndex(b, id)].lateRounds
                             && SupplierOf(a, id).onTimePct == b[SupplierIndex(b, id)].onTimePct
  {
    SupplierIs(a, id);
    SameIndex(a, b, id);
  }

  lemma DrawersGrow(env: Env, suppliers: seq<Supplier>, lots: seq<SupplyLot>, k: nat)
    requires k < |lots|
    ensures |Drawers(env, suppliers, lots, k + 1)| ==
            |Drawers(env, suppliers, lots, k)| + (if DrawsRoll(env, suppliers, lots[k]) then 1 else 0)
  {
    hide DrawsRoll;
    var before, after := Drawers(env, suppliers, lots, k), Drawers(env, suppliers, lots, k + 1);
    assert after == if DrawsRoll(env, suppliers, lots[k]) then before + {k} else before;
  }

  lemma OneMoreSorted(env: Env, p: Phase, lots: seq<SupplyLot>, k: nat, r: Receiving)
    requires k < |lots| && Sorted(env, p, lots, k, r)
    ensures Sorted(env, p, lots, k + 1, SortLot(env, r, lots[k]))
  {
    hide CountDelay, SameTerms, SupplierIndex, Known, SupplierOf, Drawers;
    var lot := lots[k];
    TermsOf(p.st.suppliers, r.p.st.suppliers, lot.supplier);
    DrawersGrow(env, p.st.suppliers, lots, k);
    DelayCounted(r.p.st.suppliers, lot.supplier, 0);
    TermsFollow(p.st.suppliers, r.p.st.suppliers, CountDelay(r.p.st.suppliers, lot.supplier));
  }

  lemma TermsFollow(a: seq<Supplier>, b: seq<Supplier>, c: seq<Supplier>)
    requires SameTerms(a, b) && SameTerms(b, c)
    ensures SameTerms(a, c)
  {
  }

  lemma {:induction false} AllSorted(env: Env, p: Phase, lots: seq<SupplyLot>, k: nat, r: Receiving)
    requires k <= |lots| && Sorted(env, p, lots, k, r)
    ensures Sorted(env, p, lots, |lots|, SortLots(env, r, lots[k..]))
    decreases |lots| - k
  {
    hide Sorted, SortLot;
    if k < |lots| {
      OneMoreSorted(env, p, lots, k, r);
      assert lots[k..][1..] == lots[k + 1..];
      AllSorted(env, p, lots, k + 1, SortLot(env, r, lots[k]));
    } else {
      assert lots[k..] == [];
    }
  }

  lemma {:induction false} StoredLog(p: Phase, lots: seq<SupplyLot>)
    ensures StoreLots(p, lots).events == p.events + Arrived(lots) && StoreLots(p, lots).drawn == p.drawn
    decreases |lots|
  {
    hide CountReceipt, Add;
    if |lots| > 0 {
      StoredLog(StoreLot(p, lots[0]), lots[1..]);
      assert Arrived(lots) == [SupplyArrived(lots[0])] + Arrived(lots[1..]);
    }
  }

  /**
   Receiving the supply of a round, whatever is in transit: the lots that come are stored and logged after the delays,
   late ones stay with their new arrival round, the others stay as they are, all in their order; and one roll is used
   for each lot that could be late.
   */
  lemma FateOfSupply(env: Env, p: Phase)
    ensures var q, lots, terms := ReceiveSupply(env, p), p.st.plant.inTransit, p.st.suppliers;
            && q.st.plant.inTransit == Staying(env, terms, lots, p.drawn, |lots|)
            && q.events == p.events + Delayed(env, terms, lots, p.drawn, |lots|)
                                    + Arrived(Coming(env, terms, lots, p.drawn, |lots|))
            && q.drawn == p.drawn + |Drawers(env, terms, lots, |lots|)|
            && Arrivals(env, p) == Coming(env, terms, lots, p.drawn, |lots|)
  {
    hide SortLots, StoreLots, Drawers;
    var lots := p.st.plant.inTransit;
    NothingSorted(env, p);
    AllSorted(env, p, lots, 0, Receiving(p, [], []));
    assert lots[0..] == lots;
    var r := SortLots(env, Receiving(p, [], []), lots);
    SortLotsFrame(env, Receiving(p, [], []), lots);
    var stored := r.p.WithPlant(r.p.st.plant.(inTransit := r.remaining));
    StoredLog(stored, r.arrivals);
    StoreLotsFrame(stored, r.arrivals);
  }

  lemma NothingSorted(env: Env, p: Phase)
    ensures Sorted(env, p, p.st.plant.inTransit, 0, Receiving(p, [], []))
  {
    assert Drawers(env, p.st.suppliers, p.st.plant.inTransit, 0) == {};
  }

  /**
   A lot promised for this round that was not delayed before: without rolls, or from a supplier that is unknown, never
   late or always on time, it comes now. Otherwise it comes now if and only if its own roll is below the supplier's
   on-time rate, the roll being the one after those of the earlier lots that could be late.
   */
  lemma DueLotComes(env: Env, suppliers: seq<Supplier>, lots: seq<SupplyLot>, drawn: nat, k: nat, i: nat)
    requires k < |lots| && lots[k].promised == lots[k].arrival == env.round
    ensures env.random.NoRandom? || !Known(suppliers, lots[k].supplier) ==> Comes(env, suppliers, lots, drawn, k)
    ensures IsFirst(suppliers, i, lots[k].supplier) && env.random.Random? ==>
              (Comes(env, suppliers, lots, drawn, k) <==>
                 || suppliers[i].lateRounds <= 0
                 || suppliers[i].onTimePct >= 100
                 || env.random.rolls(drawn + |Drawers(env, suppliers, lots, k)|) < suppliers[i].onTimePct)
  {
    hide Drawers;
    SupplierIs(suppliers, lots[k].supplier);
  }

  // ---------------------------------------------------------------- what it does to the suppliers

  function DelayBy(id: SupplierID): Event -> int { (e: Event) => if e.SupplyDelayed? && e.lot.supplier == id then 1 else 0 }

  /** Lots are counted at the first supplier with their identifier, and at no other. */
  function CountedAt<T>(suppliers: seq<Supplier>, i: nat, measure: SupplierID -> T -> int, items: seq<T>): int
    requires i < |suppliers|
  {
    if SupplierIndex(suppliers, suppliers[i].id) == i then Sum(measure(suppliers[i].id), items) else 0
  }

  /** A supplier after some delays: each costs ten points, and the score stops at zero. */
  function Slower(w: Supplier, delays: nat): Supplier {
    w.(late := w.late + delays, score := if delays == 0 then w.score else Max(0, w.score - 10 * delays))
  }

  /** A supplier after some receipts: one that was ever late regains two points each, up to its on-time rate. */
  function Steadier(w: Supplier, receipts: nat): Supplier {
    w.(received := w.received + receipts,
       score := if receipts == 0 || w.late == 0 || w.score >= w.onTimePct then w.score
                else Min(100, w.score + 2 * Min(receipts, (w.onTimePct - w.score + 1) / 2)))
  }

  lemma OneSlower(suppliers: seq<Supplier>, id: SupplierID, i: nat)
    requires i < |suppliers|
    ensures var after := CountDelay(suppliers, id);
            && |after| == |suppliers|
            && after[i] == Slower(suppliers[i], if i == SupplierIndex(suppliers, id) then 1 else 0)
            && SupplierIndex(after, suppliers[i].id) == SupplierIndex(suppliers, suppliers[i].id)
  {
    DelayCounted(suppliers, id, 0);
    SameIndex(suppliers, CountDelay(suppliers, id), suppliers[i].id);
  }

  lemma SlowerTwice(w: Supplier, n: nat, m: nat)
    ensures Slower(Slower(w, n), m) == Slower(w, n + m)
  {
  }

  lemma CountedHere(suppliers: seq<Supplier>, i: nat, id: SupplierID)
    requires i < |suppliers|
    ensures (SupplierIndex(suppliers, suppliers[i].id) == i && suppliers[i].id == id) <==> i == SupplierIndex(suppliers, id)
  {
  }

  lemma SortingOneSlows(env: Env, r: Receiving, lot: SupplyLot, i: nat)
    requires i < |r.p.st.suppliers|
    ensures var s, before := SortLot(env, r, lot), r.p.st.suppliers;
            var n := CountedAt(before, i, DelayBy, s.p.events) - CountedAt(before, i, DelayBy, r.p.events);
            && |s.p.st.suppliers| == |before| && n >= 0
            && s.p.st.suppliers[i] == Slower(before[i], n)
            && SupplierIndex(s.p.st.suppliers, before[i].id) == SupplierIndex(before, before[i].id)
  {
    hide CountDelay, MayDelay, Delays, Slower, LateRounds, Sum;
    var before := r.p.st.suppliers;
    var late := lot.(arrival := lot.promised + LateRounds(before, lot.supplier));
    OneSlower(before, lot.supplier, i);
    CountedHere(before, i, lot.supplier);
    SumPush(DelayBy(before[i].id), r.p.events, SupplyDelayed(late));
    SlowerNone(before[i]);
  }

  lemma {:induction false} SortingSlows(env: Env, r: Receiving, lots: seq<SupplyLot>, i: nat)
    requires i < |r.p.st.suppliers|
    ensures var s, before := SortLots(env, r, lots), r.p.st.suppliers;
            var n := CountedAt(before, i, DelayBy, s.p.events) - CountedAt(before, i, DelayBy, r.p.events);
            && |s.p.st.suppliers| == |before| && n >= 0
            && s.p.st.suppliers[i] == Slower(before[i], n)
            && SupplierIndex(s.p.st.suppliers, before[i].id) == SupplierIndex(before, before[i].id)
    decreases |lots|
  {
    hide SortLot, SupplierIndex, Slower, Sum;
    SlowerNone(r.p.st.suppliers[i]);
    if |lots| > 0 {
      var t, before := SortLot(env, r, lots[0]), r.p.st.suppliers;
      SortingOneSlows(env, r, lots[0], i);
      SortingSlows(env, t, lots[1..], i);
      SlowerTwice(before[i], CountedAt(before, i, DelayBy, t.p.events) - CountedAt(before, i, DelayBy, r.p.events),
                  CountedAt(before, i, DelayBy, SortLots(env, t, lots[1..]).p.events) - CountedAt(before, i, DelayBy, t.p.events));
    }
  }

  lemma SlowerNone(w: Supplier)
    ensures Slower(w, 0) == w
    ensures forall n: nat :: Slower(w, n).id == w.id
  {
  }

  lemma OneSteadier(suppliers: seq<Supplier>, id: SupplierID, i: nat)
    requires i < |suppliers|
    ensures var after := CountReceipt(suppliers, id);
            && |after| == |suppliers|
            && after[i] == Steadier(suppliers[i], if i == SupplierIndex(suppliers, id) then 1 else 0)
            && SupplierIndex(after, suppliers[i].id) == SupplierIndex(suppliers, suppliers[i].id)
  {
    ReceiptCounted(suppliers, id, 0);
    SameIndex(suppliers, CountReceipt(suppliers, id), suppliers[i].id);
  }

  lemma SteadierTwice(w: Supplier, n: nat)
    ensures Steadier(Steadier(w, 1), n) == Steadier(w, n + 1)
  {
  }

  lemma SteadierNone(w: Supplier)
    ensures Steadier(w, 0) == w
    ensures forall n: nat :: Steadier(w, n).id == w.id
  {
  }

  lemma {:induction false} StoringSteadies(p: Phase, lots: seq<SupplyLot>, i: nat)
    requires i < |p.st.suppliers|
    ensures var q, before := StoreLots(p, lots), p.st.suppliers;
            && |q.st.suppliers| == |before| && CountedAt(before, i, LotsBy, lots) >= 0
            && q.st.suppliers[i] == Steadier(before[i], CountedAt(before, i, LotsBy, lots))
            && SupplierIndex(q.st.suppliers, before[i].id) == SupplierIndex(before, before[i].id)
    decreases |lots|
  {
    hide CountReceipt, Add, SupplierIndex, Steadier;
    var before := p.st.suppliers;
    SteadierNone(before[i]);
    if |lots| > 0 {
      OneSteadier(before, lots[0].supplier, i);
      CountedHere(before, i, lots[0].supplier);
      StoringSteadies(StoreLot(p, lots[0]), lots[1..], i);
      if CountedAt(before, i, LotsBy, lots) != CountedAt(before, i, LotsBy, lots[1..]) {
        SteadierTwice(before[i], CountedAt(before, i, LotsBy, lots[1..]));
      }
    }
  }

  /** Every supplier after the supply of a round: slower by its delays, then steadier by its receipts. */
  lemma SuppliersAfterSupply(env: Env, p: Phase, i: nat)
    requires i < |p.st.suppliers|
    ensures var terms, lots := p.st.suppliers, p.st.plant.inTransit;
            var delays := CountedAt(terms, i, DelayBy, Delayed(env, terms, lots, p.drawn, |lots|));
            var receipts := CountedAt(terms, i, LotsBy, Coming(env, terms, lots, p.drawn, |lots|));
            && delays >= 0 && receipts >= 0
            && |ReceiveSupply(env, p).st.suppliers| == |terms|
            && ReceiveSupply(env, p).st.suppliers[i] == Steadier(Slower(terms[i], delays), receipts)
  {
    hide SortLots, StoreLots, Drawers, Slower, Steadier, SupplierIndex, Coming, Staying, Delayed, Sum;
    var terms, lots := p.st.suppliers, p.st.plant.inTransit;
    NothingSorted(env, p);
    AllSorted(env, p, lots, 0, Receiving(p, [], []));
    assert lots[0..] == lots;
    SortingSlows(env, Receiving(p, [], []), lots, i);
    var r := SortLots(env, Receiving(p, [], []), lots);
    SumConcat(DelayBy(terms[i].id), p.events, Delayed(env, terms, lots, p.drawn, |lots|));
    SlowerNone(terms[i]);
    var stored := r.p.WithPlant(r.p.st.plant.(inTransit := r.remaining));
    StoringSteadies(stored, r.arrivals, i);
  }

  // ---------------------------------------------------------------- the round

  lemma TermsAgree(env: Env, a: seq<Supplier>, b: seq<Supplier>, lot: SupplyLot)
    requires SameTerms(a, b)
    ensures DrawsRoll(env, a, lot) <==> DrawsRoll(env, b, lot)
    ensures Known(a, lot.supplier) <==> Known(b, lot.supplier)
    ensures Known(a, lot.supplier) ==> LateLot(a, lot) == LateLot(b, lot)
                                       && SupplierOf(a, lot.supplier).onTimePct == SupplierOf(b, lot.supplier).onTimePct
  {
    hide SupplierOf, Known;
    SupplierIs(a, lot.supplier);
    SupplierIs(b, lot.supplier);
    SameIndex(a, b, lot.supplier);
  }

  /** The fates of the lots that were in transit before do not depend on counters, nor on lots ordered since. */
  lemma {:induction false} FatesAgree(env: Env, a: seq<Supplier>, b: seq<Supplier>, earlier: seq<SupplyLot>,
                                      lots: seq<SupplyLot>, drawn: nat, k: nat)
    requires SameTerms(a, b) && earlier <= lots && k <= |earlier|
    ensures Drawers(env, a, earlier, k) == Drawers(env, b, lots, k)
    ensures Coming(env, a, earlier, drawn, k) == Coming(env, b, lots, drawn, k)
    ensures Staying(env, a, earlier, drawn, k) == Staying(env, b, lots, drawn, k)
    ensures Delayed(env, a, earlier, drawn, k) == Delayed(env, b, lots, drawn, k)
  {
    hide DrawsRoll, SupplierOf, Known, SameTerms, LateLot;
    forall j | 0 <= j < k ensures DrawsRoll(env, a, earlier[j]) == DrawsRoll(env, b, lots[j]) {
      TermsAgree(env, a, b, lots[j]);
    }
    if k > 0 {
      FatesAgree(env, a, b, earlier, lots, drawn, k - 1);
      TermsAgree(env, a, b, lots[k - 1]);
      DrawersAreKnown(env, a, lots[k - 1]);
      DrawersAreKnown(env, b, lots[k - 1]);
    }
  }

  lemma DrawersAreKnown(env: Env, suppliers: seq<Supplier>, lot: SupplyLot)
    ensures DrawsRoll(env, suppliers, lot) ==> env.random.Random? && Known(suppliers, lot.supplier)
  {
  }

  lemma {:induction false} NewLotsWait(env: Env, suppliers: seq<Supplier>, lots: seq<SupplyLot>, drawn: nat, n: nat, k: nat)
    requires n <= k <= |lots| && forall i | n <= i < |lots| :: lots[i].promised > env.round
    ensures Coming(env, suppliers, lots, drawn, k) == Coming(env, suppliers, lots, drawn, n)
    ensures Staying(env, suppliers, lots, drawn, k) == Staying(env, suppliers, lots, drawn, n) + lots[n..k]
    ensures Delayed(env, suppliers, lots, drawn, k) == Delayed(env, suppliers, lots, drawn, n)
    ensures Drawers(env, suppliers, lots, k) == Drawers(env, suppliers, lots, n)
    decreases k
  {
    hide Known, SupplierOf;
    if k > n {
      NewLotsWait(env, suppliers, lots, drawn, n, k - 1);
      assert lots[n..k] == lots[n..k - 1] + [lots[k - 1]];
      assert !DrawsRoll(env, suppliers, lots[k - 1]);
    }
  }

  lemma {:induction false} OrdersDrawNothing(env: Env, b: Buying, cap: int, action: ActionID, line: nat, orders: seq<PurchaseOrderIntent>)
    ensures PlaceOrders(env, b, cap, action, line, orders).p.drawn == b.p.drawn
    decreases |orders|
  {
    hide AllowedOrder, CountOrder, ProjectedSpendCapacity;
    if |orders| > 0 {
      OrdersDrawNothing(env, PlaceOrder(env, b, cap, action, line, orders[0]), cap, action, line + 1, orders[1..]);
    }
  }

  lemma BoughtLots(env: Env, p: Phase, actions: seq<ActionSubmission>)
    ensures var b, n := Bought(env, p, actions), |p.st.plant.inTransit|;
            && b.drawn == p.drawn
            && SameTerms(p.st.suppliers, b.st.suppliers)
            && p.st.plant.inTransit <= b.st.plant.inTransit
            && forall i | n <= i < |b.st.plant.inTransit| ::
                 b.st.plant.inTransit[i].ordered == env.round && b.st.plant.inTransit[i].promised > env.round
  {
    hide PlaceOrders, ProjectCashDelta, Lag, ScoresInRange, SupplierIndex, Sum;
    var action := ActionFor(actions, ProcurementManager);
    if action.Some? && action.value.action.procurement.Some? {
      var cap, orders := CappedBudget(p.st.targets.procurementBudget), action.value.action.procurement.value;
      OrdersCount(env, Buying(p, 0), cap, action.value.id, 1, orders, 0);
      OrdersDrawNothing(env, Buying(p, 0), cap, action.value.id, 1, orders);
    }
  }

  /**
   Every round: of the lots in transit when it opens, those that come now are received, the late ones stay with their
   new arrival round and the others stay as they were, in their order; the lots ordered in the round come last.
   */
  lemma RoundFates(cfg: Config, random: Random, drawn: nat, st: MatchState, actions: seq<ActionSubmission>, r: RoundResult)
    requires OrderlyWorld(cfg) && Resolved(cfg, random, drawn, st, actions, r)
    ensures NormalizeActions(st, actions).Ok?
    ensures var env, lots := EnvOf(cfg, random, st), st.plant.inTransit;
            var stay := Staying(env, st.suppliers, lots, drawn, |lots|);
            && RoundArrivals(cfg, random, drawn, st, actions) == Coming(env, st.suppliers, lots, drawn, |lots|)
            && stay <= r.next.plant.inTransit
            && forall i | |stay| <= i < |r.next.plant.inTransit| :: r.next.plant.inTransit[i].ordered == st.currentRound
  {
    hide Resolved, OrderlyWorld, NormalizeActions, Bought, ReceiveSupply, Arrivals, Known, SupplierOf, ResetCapacity, SameTerms;
    RoundSupply(cfg, random, drawn, st, actions, r);
    var env, lots := EnvOf(cfg, random, st), st.plant.inTransit;
    var begin := Begin(st, drawn);
    var b := Bought(env, begin, NormalizeActions(st, actions).value);
    BoughtLots(env, begin, NormalizeActions(st, actions).value);
    FateOfSupply(env, b);
    var all := b.st.plant.inTransit;
    FatesAgree(env, st.suppliers, b.st.suppliers, lots, all, drawn, |lots|);
    NewLotsWait(env, b.st.suppliers, all, drawn, |lots|, |all|);
    assert all[|lots|..|all|] == all[|lots|..];
  }
}
