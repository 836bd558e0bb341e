/**
 The rolls of a round, in the order in which its log tells of them: each lot that could be late, each inspected unit and each
 shipped unit that could come back uses one roll of its own, and none is used twice.
 */
module Rolls {
  import opened Seqs
  import opened Domain
  import opened Cash
  import opened Inventory
  import opened Labor
  import opened Quality
  import opened Phases
  import opened Actions
  import opened Resolver
  import opened Accounting
  import opened SupplyPipeline
  import opened SupplyFate
  import opened Reasons
  import opened OneMore
  import Chapters

  /** What one shipment logs: what is owed for it, the shipment, and what is promised to come back. */
  datatype Sale = Sale(price: int, owed: seq<Event>, returned: int, promise: CustomerReturn)

  ghost predicate SaleTold(env: Env, lot: Consignment, sale: Sale, log: seq<Event>) {
    && log == ShipmentLog(sale.owed, Shipped(lot.customer, lot.product, lot.units, sale.price),
                          if sale.returned > 0 then [ReturnScheduled(sale.promise)] else [])
    && (forall e | e in sale.owed :: e.Scheduled?)
    && ComesBack(env, lot, sale.returned)
    && (sale.returned > 0 ==> Promises(env, lot, sale.promise) && sale.promise.qty == sale.returned)
  }

  ghost predicate SaleLog(env: Env, lot: Consignment, log: seq<Event>) { exists sale: Sale :: SaleTold(env, lot, sale, log) }

  /** A piece of the log of production or sales: an event that needs no rolls, a batch inspected, or a lot sold. */
  datatype Piece = Plain(e: Event) | Inspected(batch: Batch, log: seq<Event>) | Sold(lot: Consignment, log: seq<Event>)

  function LogOf(x: Piece): seq<Event> { if x.Plain? then [x.e] else x.log }

  function Told(pieces: seq<Piece>): seq<Event> { if |pieces| == 0 then [] else LogOf(pieces[0]) + Told(pieces[1..]) }

  /** One roll for every unit judged; a product that never comes back needs none for its shipments. */
  function RollsOf(env: Env, x: Piece): nat {
    match x
    case Plain(_) => 0
    case Inspected(b, _) => if env.random.Random? then Max(b.units, 0) else 0
    case Sold(lot, _) => if env.random.Random? && ReturnProfile(env, lot).returnPct > 0 then Max(lot.units, 0) else 0
  }

  function AllRolls(env: Env, pieces: seq<Piece>): nat {
    if |pieces| == 0 then 0 else RollsOf(env, pieces[0]) + AllRolls(env, pieces[1..])
  }

  /** The piece is judged by the rolls that begin at `from`. */
  ghost predicate JudgedFrom(env: Env, from: nat, x: Piece) {
    match x
    case Plain(e) => e.ProductionReleased? || e.OvertimeApplied? || e.WorkAdvanced? || e.AdvanceIgnored?
    case Inspected(b, log) => b.units > 0 && b.from == from && InspectionLog(env, b, log)
    case Sold(lot, log) => lot.units > 0 && lot.from == from && SaleLog(env, lot, log)
  }

  /** Each piece is judged by the rolls after those of the pieces before it. */
  ghost predicate InTurn(env: Env, from: nat, pieces: seq<Piece>)
    decreases |pieces|
  {
    |pieces| > 0 ==> JudgedFrom(env, from, pieces[0]) && InTurn(env, from + RollsOf(env, pieces[0]), pieces[1..])
  }

  lemma {:induction false} InTurnConcat(env: Env, from: nat, a: seq<Piece>, b: seq<Piece>)
    ensures Told(a + b) == Told(a) + Told(b) && AllRolls(env, a + b) == AllRolls(env, a) + AllRolls(env, b)
    ensures InTurn(env, from, a + b) <==> InTurn(env, from, a) && InTurn(env, from + AllRolls(env, a), b)
    decreases |a|
  {
    hide JudgedFrom, RollsOf, LogOf;
    if |a| == 0 {
      assert a + b == b;
    } else {
      assert (a + b)[1..] == a[1..] + b;
      InTurnConcat(env, from + RollsOf(env, a[0]), a[1..], b);
      assert Told(a + b) == LogOf(a[0]) + Told(a[1..] + b);
    }
  }

  /** Between two phase states these pieces were logged, and their rolls used. */
  ghost predicate Tells(env: Env, p: Phase, q: Phase, pieces: seq<Piece>) {
    q.events == p.events + Told(pieces) && q.drawn == p.drawn + AllRolls(env, pieces) && InTurn(env, p.drawn, pieces)
  }

  lemma TellsOn(env: Env, p: Phase, q: Phase, r: Phase, a: seq<Piece>, b: seq<Piece>)
    requires Tells(env, p, q, a) && Tells(env, q, r, b)
    ensures Tells(env, p, r, a + b)
  {
    hide InTurn, Told, AllRolls;
    InTurnConcat(env, p.drawn, a, b);
    assert p.events + Told(a) + Told(b) == p.events + (Told(a) + Told(b));
  }

  lemma TellsNothing(env: Env, p: Phase, q: Phase)
    requires q.events == p.events && q.drawn == p.drawn
    ensures Tells(env, p, q, [])
  {
  }

  lemma TellsOne(env: Env, p: Phase, q: Phase, x: Piece)
    requires q.events == p.events + LogOf(x) && q.drawn == p.drawn + RollsOf(env, x) && JudgedFrom(env, p.drawn, x)
    ensures Tells(env, p, q, [x])
  {
    hide JudgedFrom, RollsOf, LogOf;
    assert [x][1..] == [];
    assert Told([x]) == LogOf(x) + [];
    assert AllRolls(env, [x]) == RollsOf(env, x);
    assert InTurn(env, p.drawn, [x]);
  }

  // ---------------------------------------------------------------- production

  lemma {:induction false} ReleasesTell(env: Env, p: Phase, first: WorkstationID, releases: seq<ProductionRelease>) returns (pieces: seq<Piece>)
    ensures Tells(env, p, ReleaseAll(env, p, first, releases), pieces) && forall x | x in pieces :: !x.Sold?
    decreases |releases|
  {
    hide Tells, AcceptedRelease, Consume, Add;
    TellsNothing(env, p, p);
    pieces := [];
    if |releases| > 0 {
      var q := ReleaseOne(env, p, first, releases[0]);
      if q.events != p.events {
        var bom := env.cfg.bom(p.st, env.round, releases[0].product);
        var e := ProductionReleased(releases[0].product, AcceptedRelease(p.st.plant.parts, bom.parts, releases[0].quantity), bom.parts, first);
        TellsOne(env, p, q, Plain(e));
        pieces := [Plain(e)];
      } else {
        TellsNothing(env, p, q);
      }
      var rest := ReleasesTell(env, q, first, releases[1..]);
      TellsOn(env, p, q, ReleaseAll(env, q, first, releases[1..]), pieces, rest);
      pieces := pieces + rest;
    }
  }

  lemma MoveTells(env: Env, p: Phase, key: WipKey, qty: int, cost: int, overtime: bool) returns (x: Piece)
    requires qty > 0
    ensures Tells(env, p, MoveUnits(env, p, key, qty, cost, overtime), [x]) && !x.Sold?
  {
    hide Tells, CompleteUnits, Add, InspectionLog;
    var q, route := MoveUnits(env, p, key, qty, cost, overtime), env.cfg.route(p.st, env.round, key.product, key.station);
    if route.finished {
      var b := Batch(key.product, key.station, qty, p.st, key.station in p.stressed, overtime, p.drawn);
      CompletionLog(env, p, b, cost);
      x := Inspected(b, q.events[|p.events|..]);
      assert q.events == p.events + q.events[|p.events|..];
    } else {
      x := Plain(if route.next == NO_STATION then AdvanceIgnored(key.product, qty, key.station)
                 else WorkAdvanced(key.product, qty, key.station, route.next));
    }
    TellsOne(env, p, q, x);
  }

  lemma BookingTells(env: Env, s: Producing, i: nat, plan: Plan) returns (pieces: seq<Piece>)
    requires i < |s.p.st.plant.stations|
    ensures Tells(env, s.p, BookAdvance(s, i, plan).p, pieces) && forall x | x in pieces :: !x.Sold?
  {
    hide Tells, OvertimeUsed, ConsumeLabor;
    var w := s.p.st.plant.stations[i];
    var used, q := OvertimeUsed(w, plan.advance, At(s.overtime, w.id)), BookAdvance(s, i, plan).p;
    if used > 0 {
      TellsOne(env, s.p, q, Plain(OvertimeApplied(w.id, used)));
      pieces := [Plain(OvertimeApplied(w.id, used))];
    } else {
      TellsNothing(env, s.p, q);
      pieces := [];
    }
  }

  lemma MeasuringTells(env: Env, p: Phase, i: nat)
    requires i < |p.st.plant.stations|
    ensures var q := MeasureStress(p, i); Tells(env, p, q, []) && |q.st.plant.stations| == |p.st.plant.stations|
  {
    hide Tells, StressedCapacity, Units;
    TellsNothing(env, p, MeasureStress(p, i));
  }

  lemma AdvanceTells(env: Env, s: Producing, cap: int, a: CapacityAllocation) returns (pieces: seq<Piece>)
    ensures Tells(env, s.p, Advance(env, s, cap, a).p, pieces) && forall x | x in pieces :: !x.Sold?
  {
    hide Tells, PlanAdvance, MeasureStress, BookAdvance, MoveUnits, OvertimeUsed, Take, TakeCost;
    TellsNothing(env, s.p, s.p);
    pieces := [];
    var i := StationIndex(s.p.st.plant.stations, a.station);
    if a.capacity > 0 && i < |s.p.st.plant.stations| {
      var p, left := MeasureStress(s.p, i), At(s.overtime, a.station);
      MeasuringTells(env, s.p, i);
      var plan := PlanAdvance(env, p, i, left, cap, s.spent, a);
      if plan.advance > 0 {
        var key := WipKey(a.product, a.station);
        var cost := PerUnitCost(TakeCost(p.st.plant.wip, key, plan.advance, 0), plan.advance);
        var overtime := OvertimeUsed(p.st.plant.stations[i], plan.advance, left) > 0;
        var taken := s.(p := TakeWip(p, key, plan.advance));
        TellsNothing(env, p, taken.p);
        var none: seq<Piece> := [];
        TellsOn(env, s.p, p, taken.p, none, none);
        assert none + none == none;
        var booked := BookAdvance(taken, i, plan).p;
        pieces := BookingTells(env, taken, i, plan);
        TellsOn(env, s.p, taken.p, booked, none, pieces);
        var x := MoveTells(env, booked, key, plan.advance, cost, overtime);
        assert none + pieces == pieces;
        TellsOn(env, s.p, booked, MoveUnits(env, booked, key, plan.advance, cost, overtime), pieces, [x]);
        pieces := pieces + [x];
      }
    }
  }

  lemma {:induction false} AdvancesTell(env: Env, s: Producing, cap: int, allocations: seq<CapacityAllocation>) returns (pieces: seq<Piece>)
    ensures Tells(env, s.p, AdvanceAll(env, s, cap, allocations).p, pieces) && forall x | x in pieces :: !x.Sold?
    decreases |allocations|
  {
    hide Tells, Advance;
    TellsNothing(env, s.p, s.p);
    pieces := [];
    if |allocations| > 0 {
      var t := Advance(env, s, cap, allocations[0]);
      var first := AdvanceTells(env, s, cap, allocations[0]);
      var rest := AdvancesTell(env, t, cap, allocations[1..]);
      TellsOn(env, s.p, t.p, AdvanceAll(env, t, cap, allocations[1..]).p, first, rest);
      pieces := first + rest;
    }
  }

  lemma ProductionTells(env: Env, p: Phase, action: Option<ActionSubmission>) returns (pieces: seq<Piece>)
    ensures Tells(env, p, ResolveProduction(env, p, action), pieces) && forall x | x in pieces :: !x.Sold?
  {
    hide Tells, ReleaseAll, AdvanceAll, RequestOvertime, CappedBudget, ProjectCashDelta;
    TellsNothing(env, p, p);
    pieces := [];
    if action.Some? && action.value.action.production.Some? && |p.st.plant.stations| > 0 {
      var todo, first := action.value.action.production.value, p.st.plant.stations[0].id;
      var released := ReleaseAll(env, p, first, todo.releases);
      var s := Producing(released, RequestOvertime(map[], todo.overtime), 0);
      var cap := CappedBudget(released.st.targets.productionSpendBudget);
      var a := ReleasesTell(env, p, first, todo.releases);
      var b := AdvancesTell(env, s, cap, todo.allocations);
      var worked := AdvanceAll(env, s, cap, todo.allocations).p;
      TellsOn(env, p, released, worked, a, b);
      TellsNothing(env, worked, ResolveProduction(env, p, action));
      TellsOn(env, p, worked, ResolveProduction(env, p, action), a + b, []);
      pieces := a + b + [];
    }
  }

  // ---------------------------------------------------------------- sales

  lemma OwingDrawsNothing(env: Env, p: Phase, amount: int, delay: int)
    ensures ScheduleReceivable(env, p, amount, delay).drawn == p.drawn
  {
    hide ProjectCashDelta;
  }

  lemma PromisingDraws(env: Env, p: Phase, lot: Consignment, cost: int)
    requires lot.units > 0 && lot.st == p.st && lot.from == p.drawn
    ensures ScheduleReturns(env, p, lot.customer, lot.product, lot.units, cost).drawn == p.drawn + RollsOf(env, Sold(lot, []))
  {
    hide ReturnQuantity, Normalized;
  }

  lemma {:induction false} SaleTells(env: Env, s: Selling, prices: map<ProductID, int>, entry: BacklogEntry) returns (pieces: seq<Piece>)
    ensures Tells(env, s.p, ShipEntry(env, s, prices, entry).p, pieces) && forall x | x in pieces :: x.Sold?
  {
    hide Tells, ScheduleReceivable, ScheduleReturns, QtyOf, CostOf, PaymentDelay, Price, Take, ComesBack, ReturnProfile, ReturnQuantity;
    hide Promises;
    TellsNothing(env, s.p, s.p);
    pieces := [];
    var finished, t := s.p.st.plant.finished, ShipEntry(env, s, prices, entry);
    var qty, price := Min(entry.qty, QtyOf(finished, entry.product)), Price(prices, entry.product);
    if qty > 0 {
      var sold, delay := Ship(s.p, entry, qty, price), PaymentDelay(env, s.p.st.customers, entry.customer);
      PositivePrice(prices, entry.product);
      AmountPositive(qty, price);
      OwedLog(env, sold, qty * price, delay);
      OwingDrawsNothing(env, sold, qty * price, delay);
      var due := ScheduleReceivable(env, sold, qty * price, delay);
      var logged := due.Log(Shipped(entry.customer, entry.product, qty, price));
      var lot, cost := Consignment(entry.customer, entry.product, qty, logged.st, logged.drawn), CostOf(finished, entry.product);
      BackLog(env, logged, lot, cost);
      PromisingDraws(env, logged, lot, cost);
      var returned := ReturnQuantity(qty, ReturnProfile(env, lot).returnPct, env.random, logged.drawn);
      ReturnsJudged(Setting(env, s.p.st, []), logged, entry.customer, entry.product, qty);
      var owed := if delay > 0 then [Scheduled(NewCommitment(Receivable, env.round, |sold.st.plant.receivables|, qty * price, delay))] else [];
      var sale := Sale(price, owed, returned, PromiseOf(env, logged, lot, returned, cost));
      var back := if returned > 0 then [ReturnScheduled(sale.promise)] else [];
      var log := ShipmentLog(owed, Shipped(entry.customer, entry.product, qty, price), back);
      PromiseKept(env, logged, lot, returned, cost);
      assert SaleTold(env, lot, sale, log);
      assert t.p.events == s.p.events + log;
      TellsOne(env, s.p, t.p, Sold(lot, log));
      pieces := [Sold(lot, log)];
    }
  }

  lemma PromiseKept(env: Env, p: Phase, lot: Consignment, returned: int, cost: int)
    ensures var promise := PromiseOf(env, p, lot, returned, cost); Promises(env, lot, promise) && promise.qty == returned
  {
    hide ReturnProfile;
  }

  lemma {:induction false} SalesTell(env: Env, s: Selling, prices: map<ProductID, int>, entries: seq<BacklogEntry>)
    returns (pieces: seq<Piece>)
    ensures Tells(env, s.p, ShipAll(env, s, prices, entries).p, pieces) && forall x | x in pieces :: x.Sold?
    decreases |entries|
  {
    hide Tells, ShipEntry;
    TellsNothing(env, s.p, s.p);
    pieces := [];
    if |entries| > 0 {
      var t := ShipEntry(env, s, prices, entries[0]);
      var first := SaleTells(env, s, prices, entries[0]);
      var rest := SalesTell(env, t, prices, entries[1..]);
      TellsOn(env, s.p, t.p, ShipAll(env, t, prices, entries[1..]).p, first, rest);
      pieces := first + rest;
    }
  }

  lemma SalesPhaseTells(env: Env, p: Phase, action: Option<ActionSubmission>) returns (pieces: seq<Piece>)
    ensures Tells(env, p, ResolveSales(env, p, action), pieces) && forall x | x in pieces :: x.Sold?
  {
    hide Tells, ShipAll, SyncCustomers, EffectiveBacklog, SalesPrices;
    var backlog, q := EffectiveBacklog(p.st), ResolveSales(env, p, action);
    if |backlog| == 0 {
      TellsNothing(env, p, q);
      pieces := [];
    } else {
      var start := Selling(p, [], []);
      pieces := SalesTell(env, start, SalesPrices(action), env.cfg.sort(backlog));
      var t := ShipAll(env, start, SalesPrices(action), env.cfg.sort(backlog)).p;
      TellsNothing(env, t, q);
      TellsOn(env, p, t, q, pieces, []);
      assert pieces + [] == pieces;
    }
  }

  // ---------------------------------------------------------------- the round

  /** What the world update saw and did: the accepted actions, the first roll nobody used, its events and the rolls it left. */
  ghost predicate WorldSaw(cfg: Config, actions: seq<ActionSubmission>, events: seq<Event>, from: nat, left: nat) {
    if cfg.world.None? then events == [] && left == from
    else exists st: MatchState ::
           && cfg.world.value(st, actions, from).Ok?
           && cfg.world.value(st, actions, from).value.events == events && cfg.world.value(st, actions, from).value.drawn == left
  }

  lemma WorldRolls(env: Env, p: Phase, actions: seq<ActionSubmission>)
    requires ApplyWorld(env, p, actions).Ok?
    ensures var q := ApplyWorld(env, p, actions).value;
            p.events <= q.events && WorldSaw(env.cfg, actions, q.events[|p.events|..], p.drawn, q.drawn)
  {
    if env.cfg.world.Some? {
      var effect := env.cfg.world.value(p.st, actions, p.drawn).value;
      assert (p.events + effect.events)[|p.events|..] == effect.events;
    }
  }

  lemma {:induction false} AcceptingDrawsNothing(env: Env, p: Phase, items: seq<CustomerReturn>)
    ensures AcceptReturns(env, p, items).drawn == p.drawn
    decreases |items|
  {
    hide AddHold, Disappoint;
    if |items| > 0 {
      AcceptingDrawsNothing(env, AcceptReturn(env, p, items[0]), items[1..]);
    }
  }

  lemma {:induction false} ReleasingDrawsNothing(p: Phase, holds: seq<InspectionHold>)
    ensures ReleaseHolds(p, holds).drawn == p.drawn
    decreases |holds|
  {
    hide Add;
    if |holds| > 0 {
      ReleasingDrawsNothing(ReleaseHold(p, holds[0]), holds[1..]);
    }
  }

  /** Before production one roll is used for each lot that could be late, of those in transit at the opening. */
  lemma RollsBeforeProduction(env: Env, p: Phase, actions: seq<ActionSubmission>)
    ensures var lots := p.st.plant.inTransit;
            BeforeProduction(env, p, actions).drawn == p.drawn + |Drawers(env, p.st.suppliers, lots, |lots|)|
  {
    hide ReceiveSupply, Drawers, AcceptReturns, ReleaseHolds, Filter, SyncCustomers, ResolveProcurement, SameTerms;
    BoughtLots(env, p, actions);
    var b := Bought(env, p, actions);
    var lots, all := p.st.plant.inTransit, b.st.plant.inTransit;
    FateOfSupply(env, b);
    FatesAgree(env, p.st.suppliers, b.st.suppliers, lots, all, p.drawn, |lots|);
    NewLotsWait(env, b.st.suppliers, all, p.drawn, |lots|, |all|);
    var q := ReceiveSupply(env, b);
    ReleasingDrawsNothing(q, Filter(ReleasedBy(env.round), q.st.plant.holds));
    var held := ReleaseInspectionHolds(env, q);
    var returning := held.st.plant.pendingReturns;
    AcceptingDrawsNothing(env, held.WithPlant(held.st.plant.(pendingReturns := Filter(DueAfter(env.round), returning))), Filter(DueBy(env.round), returning));
  }

  /**
   Every round: first one roll for each lot in transit at its opening that could be late, then the units inspected and the
   units sold in the order of the log, each by rolls of its own, and the world update goes on from the first roll not used.
   */
  lemma RollsOfRound(cfg: Config, random: Random, drawn: nat, st: MatchState, actions: seq<ActionSubmission>, r: RoundResult)
    returns (opening: seq<Event>, worked: seq<Piece>, sold: seq<Piece>, world: seq<Event>, closing: seq<Event>)
    requires Resolved(cfg, random, drawn, st, actions, r)
    ensures r.record.events == opening + Told(worked) + Told(sold) + world + closing
    ensures (forall x | x in worked :: !x.Sold?) && forall x | x in sold :: x.Sold?
    ensures var env, lots := EnvOf(cfg, random, st), st.plant.inTransit;
            var supplied := drawn + |Drawers(env, st.suppliers, lots, |lots|)|;
            && InTurn(env, supplied, worked + sold)
            && WorldSaw(cfg, r.record.actions, world, supplied + AllRolls(env, worked + sold), r.drawn)
  {
    hide BeforeProduction, ResolveProduction, ResolveSales, Finalize, NormalizeActions, ComputeMetrics, WorldSaw, InTurn, Told, AllRolls, Drawers;
    FinalState(cfg, random, drawn, st, actions, r);
    var env, ordered := EnvOf(cfg, random, st), NormalizeActions(st, actions).value;
    var begin := Begin(st, drawn);
    var p1 := BeforeProduction(env, begin, ordered);
    RollsBeforeProduction(env, begin, ordered);
    var p2 := ResolveProduction(env, p1, ActionFor(ordered, ProductionManager));
    worked := ProductionTells(env, p1, ActionFor(ordered, ProductionManager));
    var p3 := ResolveSales(env, p2, ActionFor(ordered, SalesManager));
    sold := SalesPhaseTells(env, p2, ActionFor(ordered, SalesManager));
    TellsOn(env, p1, p2, p3, worked, sold);
    InTurnConcat(env, p1.drawn, worked, sold);
    var p4 := ApplyWorld(env, p3, ordered).value;
    WorldRolls(env, p3, ordered);
    var p5 := Finalize(env, p4, ActionFor(ordered, FinanceController));
    Chapters.ClosingDrawsNothing(env, p4, ActionFor(ordered, FinanceController));
    ClosingLogs(env, p4, ActionFor(ordered, FinanceController));
    opening, world, closing := p1.events, p4.events[|p3.events|..], p5.events[|p4.events|..];
    assert p4.events == p3.events + world && p5.events == p4.events + closing;
  }

  lemma ClosingLogs(env: Env, p: Phase, action: Option<ActionSubmission>)
    ensures p.events <= Finalize(env, p, action).events
  {
    hide Finalize, Chapters.Belongs;
    var s := Chapters.ClosingChapters(env, p, action);
    assert Finalize(env, p, action).events == p.events + (s.aging + s.collecting + s.paying + s.wages);
  }
}
