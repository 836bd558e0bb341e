/** Unit costs over whole runs: parts on hand always cost what lots cost, within any band that holds the lots. */
module Costing {
  import opened Domain
  import opened Cash
  import opened Inventory
  import opened Quality
  import opened Phases
  import opened Actions
  import opened Resolver
  import opened Frames
  import opened Accounting

  ghost predicate LotsWithin(lots: seq<SupplyLot>, lo: int, hi: int) {
    forall l | l in lots :: lo <= l.cost <= hi && l.qty > 0
  }

  /** The cost of every part on hand and of every lot in transit lies in the band. */
  ghost predicate PartsWithin(plant: Plant, lo: int, hi: int) {
    Tidy(plant.parts) && CostsWithin(plant.parts, lo, hi) && LotsWithin(plant.inTransit, lo, hi)
  }

  /** Every price a known supplier quotes lies in the band, once the engine has raised it to one. */
  ghost predicate PricesWithin(cfg: Config, lo: int, hi: int) {
    forall st: MatchState, round: int, order: PurchaseOrderIntent ::
      cfg.terms(st, round, order).known ==> lo <= NormalizedTerms(cfg.terms(st, round, order)).unitCost <= hi
  }

  lemma PlaceOrderWithin(env: Env, b: Buying, cap: int, action: ActionID, line: nat, order: PurchaseOrderIntent, lo: int, hi: int)
    requires PricesWithin(env.cfg, lo, hi) && PartsWithin(b.p.st.plant, lo, hi)
    ensures PartsWithin(PlaceOrder(env, b, cap, action, line, order).p.st.plant, lo, hi)
  {
    hide AllowedOrder, ProjectedSpendCapacity, CountOrder, Tidy, CostsWithin;
    assert env.cfg.terms(b.p.st, env.round, order).known ==>
      lo <= NormalizedTerms(env.cfg.terms(b.p.st, env.round, order)).unitCost <= hi;
  }

  lemma {:induction false} PlaceOrdersWithin(env: Env, b: Buying, cap: int, action: ActionID, line: nat,
                                             orders: seq<PurchaseOrderIntent>, lo: int, hi: int)
    requires PricesWithin(env.cfg, lo, hi) && PartsWithin(b.p.st.plant, lo, hi)
    ensures PartsWithin(PlaceOrders(env, b, cap, action, line, orders).p.st.plant, lo, hi)
    decreases |orders|
  {
    hide PlaceOrder, PartsWithin, PricesWithin;
    if |orders| > 0 {
      PlaceOrderWithin(env, b, cap, action, line, orders[0], lo, hi);
      PlaceOrdersWithin(env, PlaceOrder(env, b, cap, action, line, orders[0]), cap, action, line + 1, orders[1..], lo, hi);
    }
  }

  lemma ProcurementWithin(env: Env, p: Phase, action: Option<ActionSubmission>, lo: int, hi: int)
    requires PricesWithin(env.cfg, lo, hi) && PartsWithin(p.st.plant, lo, hi)
    ensures PartsWithin(ResolveProcurement(env, p, action).st.plant, lo, hi)
  {
    hide PlaceOrders, PricesWithin, Tidy, CostsWithin, LotsWithin, ProjectCashDelta;
    if action.Some? && action.value.action.procurement.Some? {
      PlaceOrdersWithin(env, Buying(p, 0), CappedBudget(p.st.targets.procurementBudget), action.value.id, 1,
                        action.value.action.procurement.value, lo, hi);
    }
  }

  lemma {:induction false} SortLotsWithin(env: Env, r: Receiving, lots: seq<SupplyLot>, lo: int, hi: int)
    requires LotsWithin(lots, lo, hi) && LotsWithin(r.arrivals, lo, hi) && LotsWithin(r.remaining, lo, hi)
    ensures var t := SortLots(env, r, lots); LotsWithin(t.arrivals, lo, hi) && LotsWithin(t.remaining, lo, hi)
    decreases |lots|
  {
    hide CountDelay, Delays, MayDelay, LateRounds;
    if |lots| > 0 {
      SortLotsWithin(env, SortLot(env, r, lots[0]), lots[1..], lo, hi);
    }
  }

  lemma {:induction false} StoreLotsWithin(p: Phase, lots: seq<SupplyLot>, lo: int, hi: int)
    requires 1 <= lo && PartsWithin(p.st.plant, lo, hi) && LotsWithin(lots, lo, hi)
    ensures PartsWithin(StoreLots(p, lots).st.plant, lo, hi)
    decreases |lots|
  {
    hide Add, Tidy, CostsWithin, CountReceipt;
    if |lots| > 0 {
      var parts, lot := p.st.plant.parts, lots[0];
      assert lot in lots;
      AddTidy(parts, lot.part, lot.qty, lot.cost);
      AddValue(parts, lot.part, lot.qty, lot.cost, lo, hi);
      StoreLotsWithin(StoreLot(p, lot), lots[1..], lo, hi);
    }
  }

  lemma SupplyWithin(env: Env, p: Phase, lo: int, hi: int)
    requires 1 <= lo && PartsWithin(p.st.plant, lo, hi)
    ensures PartsWithin(ReceiveSupply(env, p).st.plant, lo, hi)
  {
    hide SortLots, StoreLots, Tidy, CostsWithin, LotsWithin;
    NoLotsWithin(lo, hi);
    SortLotsWithin(env, Receiving(p, [], []), p.st.plant.inTransit, lo, hi);
    SortLotsFrame(env, Receiving(p, [], []), p.st.plant.inTransit);
    var r := SortLots(env, Receiving(p, [], []), p.st.plant.inTransit);
    StoreLotsWithin(r.p.WithPlant(r.p.st.plant.(inTransit := r.remaining)), r.arrivals, lo, hi);
  }

  lemma NoLotsWithin(lo: int, hi: int)
    ensures LotsWithin([], lo, hi)
  {
  }

  lemma {:induction false} ReleaseAllWithin(env: Env, p: Phase, first: WorkstationID, releases: seq<ProductionRelease>, lo: int, hi: int)
    requires PartsWithin(p.st.plant, lo, hi)
    ensures PartsWithin(ReleaseAll(env, p, first, releases).st.plant, lo, hi)
    decreases |releases|
  {
    hide Consume, Add, AcceptedRelease, Tidy, CostsWithin, LotsWithin;
    if |releases| > 0 {
      var bom, parts := env.cfg.bom(p.st, env.round, releases[0].product), p.st.plant.parts;
      var allowed := AcceptedRelease(parts, bom.parts, releases[0].quantity);
      ConsumeTidy(parts, bom.parts, allowed, 0);
      ConsumeCostsWithin(parts, bom.parts, allowed, 0, lo, hi);
      ReleaseAllWithin(env, ReleaseOne(env, p, first, releases[0]), first, releases[1..], lo, hi);
    }
  }

  lemma ProductionWithin(env: Env, p: Phase, action: Option<ActionSubmission>, lo: int, hi: int)
    requires PartsWithin(p.st.plant, lo, hi)
    ensures PartsWithin(ResolveProduction(env, p, action).st.plant, lo, hi)
  {
    hide ReleaseAll, AdvanceAll, RequestOvertime, ProjectCashDelta, Tidy, CostsWithin, LotsWithin;
    if action.Some? && action.value.action.production.Some? && |p.st.plant.stations| > 0 {
      var todo := action.value.action.production.value;
      var first, overtime := p.st.plant.stations[0].id, RequestOvertime(map[], todo.overtime);
      ReleaseAllWithin(env, p, first, todo.releases, lo, hi);
      var released := ReleaseAll(env, p, first, todo.releases);
      AdvanceAllFrame(env, Producing(released, overtime, 0), CappedBudget(released.st.targets.productionSpendBudget),
                      todo.allocations);
    }
  }

  lemma BeforeWorldWithin(env: Env, p: Phase, actions: seq<ActionSubmission>, lo: int, hi: int)
    requires 1 <= lo && PricesWithin(env.cfg, lo, hi) && PartsWithin(p.st.plant, lo, hi)
    ensures PartsWithin(BeforeWorld(env, p, actions).st.plant, lo, hi)
  {
    hide ResolveProcurement, ReceiveSupply, ReleaseInspectionHolds, ProcessCustomerReturns, ResolveProduction, ResolveSales;
    hide Tidy, CostsWithin, LotsWithin, PricesWithin;
    ProcurementWithin(env, p, ActionFor(actions, ProcurementManager), lo, hi);
    var p1 := ResolveProcurement(env, p, ActionFor(actions, ProcurementManager));
    SupplyWithin(env, p1, lo, hi);
    var p2 := ReceiveSupply(env, p1);
    HoldsFrame(env, p2);
    var p3 := ReleaseInspectionHolds(env, p2);
    ReturnsFrame(env, p3);
    var p4 := ProcessCustomerReturns(env, p3);
    ProductionWithin(env, p4, ActionFor(actions, ProductionManager), lo, hi);
    SalesFrame(env, ResolveProduction(env, p4, ActionFor(actions, ProductionManager)), ActionFor(actions, SalesManager));
  }

  lemma RoundKeepsPartCosts(cfg: Config, random: Random, drawn: nat, st: MatchState, actions: seq<ActionSubmission>,
                            r: RoundResult, lo: int, hi: int)
    requires OrderlyWorld(cfg) && Resolved(cfg, random, drawn, st, actions, r)
    requires 1 <= lo && PricesWithin(cfg, lo, hi) && PartsWithin(st.plant, lo, hi)
    ensures PartsWithin(r.next.plant, lo, hi)
  {
    hide BeforeWorld, Finalize, NormalizeActions, ResetCapacity, Tidy, CostsWithin, LotsWithin, PricesWithin;
    FinalState(cfg, random, drawn, st, actions, r);
    var env, ordered := EnvOf(cfg, random, st), NormalizeActions(st, actions).value;
    var begin := Begin(st, drawn);
    BeforeWorldWithin(env, begin, ordered, lo, hi);
    var p1 := BeforeWorld(env, begin, ordered);
    if cfg.world.Some? {
      assert OrderlyEffect(p1.st, cfg.world.value(p1.st, ordered, p1.drawn).value);
    }
    FinalizeFrame(env, ApplyWorld(env, p1, ordered).value, ActionFor(ordered, FinanceController));
  }

  /**
   Over any run the unit cost of every part stays inside the band of lot prices, however receipts are averaged
   and however often the average is rounded down.
   */
  lemma {:induction false} PartCostsOverRun(cfg: Config, random: Random, drawn: nat, st: MatchState,
                                            inputs: seq<seq<ActionSubmission>>, lo: int, hi: int)
    requires OrderlyWorld(cfg) && 1 <= lo && PricesWithin(cfg, lo, hi) && PartsWithin(st.plant, lo, hi)
    ensures PartsWithin(Play(cfg, random, drawn, st, inputs).st.plant, lo, hi)
    decreases |inputs|
  {
    hide Resolve, OrderlyWorld, PricesWithin, PartsWithin;
    if |inputs| > 0 && Resolve(cfg, random, drawn, st, inputs[0]).Ok? {
      var r := Resolve(cfg, random, drawn, st, inputs[0]).value;
      RoundKeepsPartCosts(cfg, random, drawn, st, inputs[0], r, lo, hi);
      PartCostsOverRun(cfg, random, r.drawn, r.next, inputs[1..], lo, hi);
    }
  }
}
