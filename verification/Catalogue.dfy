/**
 Matches of a scenario follow its catalogue: orders are placed at catalogue terms, work is released by the catalogue's bills
 and moves along the catalogue's routes, and nothing else is ever logged.
 */
module Catalogue {
  import opened Seqs
  import opened Domain
  import opened Quality
  import opened Phases
  import opened Resolver
  import opened Accounting
  import opened Demand
  import opened Scenario
  import opened Reasons
  import opened RoundEnd

  // ---------------------------------------------------------------- entries of the catalogue

  /** The catalogue entry of a product is the last one with its identifier. */
  ghost predicate ProductEntry(d: Definition, id: ProductID, p: ProductModel) {
    exists k: nat ::
      && k < |d.products| && d.products[k] == p && p.id == id
      && forall j | k < j < |d.products| :: d.products[j].id != id
  }

  ghost predicate PartEntry(d: Definition, id: PartID, part: PartModel) {
    exists k: nat ::
      && k < |d.parts| && d.parts[k] == part && part.id == id
      && forall j | k < j < |d.parts| :: d.parts[j].id != id
  }

  lemma {:induction false} ProductIsLast(products: seq<ProductModel>, id: ProductID)
    ensures match ProductByID(products, id)
            case None => forall p | p in products :: p.id != id
            case Some(p) => exists k: nat :: && k < |products| && products[k] == p && p.id == id
                                             && forall j | k < j < |products| :: products[j].id != id
    decreases |products|
  {
    if |products| > 0 && products[|products| - 1].id != id {
      var rest := products[..|products| - 1];
      ProductIsLast(rest, id);
      assert forall p | p in products :: p in rest || p == products[|products| - 1];
    }
  }

  lemma {:induction false} PartIsLast(parts: seq<PartModel>, id: PartID)
    ensures match PartByID(parts, id)
            case None => forall p | p in parts :: p.id != id
            case Some(p) => exists k: nat :: && k < |parts| && parts[k] == p && p.id == id
                                             && forall j | k < j < |parts| :: parts[j].id != id
    decreases |parts|
  {
    if |parts| > 0 && parts[|parts| - 1].id != id {
      var rest := parts[..|parts| - 1];
      PartIsLast(rest, id);
      assert forall p | p in parts :: p in rest || p == parts[|parts| - 1];
    }
  }

  /** A supplier sells a part on the terms of the first option with its identifier, the main one first. */
  ghost predicate OfferedBy(part: PartModel, id: SupplierID, o: SupplierOption) {
    var options := [part.main] + part.alternates;
    exists k: nat ::
      && k < |options| && options[k] == o && o.id == id
      && forall j | 0 <= j < k :: options[j].id != id
  }

  lemma {:induction false} OptionIsFirst(options: seq<SupplierOption>, id: SupplierID)
    ensures match OptionByID(options, id)
            case None => forall o | o in options :: o.id != id
            case Some(o) => exists k: nat :: && k < |options| && options[k] == o && o.id == id
                                             && forall j | 0 <= j < k :: options[j].id != id
  {
    if |options| > 0 && options[0].id != id {
      var rest := options[1..];
      OptionIsFirst(rest, id);
      if OptionByID(rest, id).Some? {
        var k: nat :| k < |rest| && rest[k] == OptionByID(rest, id).value && rest[k].id == id
                      && forall j | 0 <= j < k :: rest[j].id != id;
        assert options[k + 1] == rest[k];
      }
    }
  }

  // ---------------------------------------------------------------- routes

  ghost predicate FirstOnRoute(route: seq<WorkstationID>, i: nat, station: WorkstationID) {
    i < |route| && route[i] == station && forall j | 0 <= j < i :: route[j] != station
  }

  lemma {:induction false} RouteIndexIsFirst(route: seq<WorkstationID>, station: WorkstationID)
    ensures var i := RouteIndex(route, station);
            if i < |route| then FirstOnRoute(route, i, station) else station !in route
  {
    if |route| > 0 && route[0] != station {
      RouteIndexIsFirst(route[1..], station);
    }
  }

  /** A step of the route: from a station to the one that comes after it on the product's route. */
  ghost predicate OnRoute(d: Definition, product: ProductID, station: WorkstationID, next: WorkstationID) {
    exists p: ProductModel, i: nat ::
      && ProductEntry(d, product, p) && FirstOnRoute(p.route, i, station)
      && i + 1 < |p.route| && p.route[i + 1] == next
  }

  /** The end of the route: the station is the last one of the product's route. */
  ghost predicate AtEnd(d: Definition, product: ProductID, station: WorkstationID) {
    exists p: ProductModel :: ProductEntry(d, product, p) && |p.route| > 0 && FirstOnRoute(p.route, |p.route| - 1, station)
  }

  lemma RouteIsCatalogue(d: Definition, product: ProductID, station: WorkstationID)
    ensures var step := Scenario.Route(d, product, station);
            && (step.finished <==> AtEnd(d, product, station))
            && (!step.finished && step.next != NO_STATION ==> OnRoute(d, product, station, step.next))
  {
    ProductIsLast(d.products, product);
    match ProductByID(d.products, product)
    case None =>
    case Some(p) =>
      RouteIndexIsFirst(p.route, station);
      assert ProductEntry(d, product, p);
      forall q: ProductModel | ProductEntry(d, product, q) ensures q == p {
        OneEntry(d, product, p, q);
      }
  }

  lemma OneEntry(d: Definition, product: ProductID, p: ProductModel, q: ProductModel)
    requires ProductEntry(d, product, p) && ProductEntry(d, product, q)
    ensures p == q
  {
    var k: nat :| k < |d.products| && d.products[k] == p && p.id == product
                  && forall j | k < j < |d.products| :: d.products[j].id != product;
    var l: nat :| l < |d.products| && d.products[l] == q && q.id == product
                  && forall j | l < j < |d.products| :: d.products[j].id != product;
    assert k == l;
  }

  // ---------------------------------------------------------------- terms and bills

  /** A lot as the catalogue offers it, for some requested quantity. */
  ghost predicate CatalogueLot(d: Definition, lot: SupplyLot, requested: int) {
    exists part: PartModel, o: SupplierOption ::
      && PartEntry(d, lot.part, part) && OfferedBy(part, lot.supplier, o)
      && lot.cost == Max(UnitCost(o, requested), 1) && lot.qty >= o.minimumOrder
      && lot.promised == lot.ordered + Max(o.leadTime, 1)
  }

  lemma TermsAreCatalogue(d: Definition, st: MatchState, order: PurchaseOrderIntent, lot: SupplyLot)
    requires var t := Terms(d, st, order);
             && t.known && lot.part == order.part && lot.supplier == order.supplier && lot.qty >= t.minimumOrder
             && lot.cost == Max(t.unitCost, 1) && lot.promised == lot.ordered + Max(t.leadTime, 1)
    ensures CatalogueLot(d, lot, order.quantity)
  {
    hide UnitCost;
    PartIsLast(d.parts, order.part);
    var part := PartByID(d.parts, order.part).value;
    OptionIsFirst([part.main] + part.alternates, order.supplier);
    var o := OptionByID([part.main] + part.alternates, order.supplier).value;
    assert PartEntry(d, lot.part, part) && OfferedBy(part, lot.supplier, o);
  }

  ghost predicate CatalogueBill(d: Definition, product: ProductID, bom: seq<BOMLine>) {
    exists p: ProductModel :: ProductEntry(d, product, p) && p.bom == bom
  }

  lemma BillIsCatalogue(d: Definition, product: ProductID, bom: seq<BOMLine>)
    requires Bill(d, product) == ProductionBOM(true, bom)
    ensures CatalogueBill(d, product, bom)
  {
    ProductIsLast(d.products, product);
    assert ProductEntry(d, product, ProductByID(d.products, product).value);
  }

  // ---------------------------------------------------------------- quality, cost and limits

  lemma NoEntry(d: Definition, product: ProductID, p: ProductModel)
    ensures ProductEntry(d, product, p) ==> ProductByID(d.products, product) == Some(p)
  {
    ProductIsLast(d.products, product);
    if ProductEntry(d, product, p) {
      assert p in d.products;
      assert ProductEntry(d, product, ProductByID(d.products, product).value);
      OneEntry(d, product, p, ProductByID(d.products, product).value);
    }
  }

  /** Ten points of scrap and rework for a stressed station and ten points of holds for overtime; shipments are not strained. */
  lemma QualityIsCatalogue(d: Definition, p: ProductModel, c: QualityContext)
    requires ProductEntry(d, c.product, p)
    ensures var q, profile := p.quality, QualityOf(d, c);
            var stress := if c.FinalInspection? && c.stressed then 10 else 0;
            var hurry := if c.FinalInspection? && c.overtime then 10 else 0;
            && profile.scrapPct - q.scrapPct == profile.reworkPct - q.reworkPct == stress
            && profile.holdPct - q.holdPct == hurry
            && profile.returnPct == q.returnPct && profile.holdRounds == q.holdRounds && profile.returnDelay == q.returnDelay
  {
    NoEntry(d, c.product, p);
  }

  lemma {:induction false} StationIsLast(stations: seq<StationModel>, id: WorkstationID, k: nat)
    requires k < |stations| && stations[k].id == id && forall j | k < j < |stations| :: stations[j].id != id
    ensures StationByID(stations, id) == Some(stations[k])
    decreases |stations|
  {
    if stations[|stations| - 1].id != id {
      StationIsLast(stations[..|stations| - 1], id, k);
    }
  }

  lemma {:induction false} StationIsMissing(stations: seq<StationModel>, id: WorkstationID)
    requires forall w | w in stations :: w.id != id
    ensures StationByID(stations, id) == None
    decreases |stations|
  {
    if |stations| > 0 {
      StationIsMissing(stations[..|stations| - 1], id);
    }
  }

  /** A unit of work costs what the last catalogue entry of its station says, at least one, and one at a station without entry. */
  lemma CostIsCatalogue(d: Definition, id: WorkstationID, k: nat)
    ensures k < |d.stations| && d.stations[k].id == id && (forall j | k < j < |d.stations| :: d.stations[j].id != id) ==>
              StationCost(d, id) == Max(d.stations[k].costPerUnit, 1)
    ensures (forall w | w in d.stations :: w.id != id) ==> StationCost(d, id) == 1
  {
    if k < |d.stations| && d.stations[k].id == id && forall j | k < j < |d.stations| :: d.stations[j].id != id {
      StationIsLast(d.stations, id, k);
    }
    if forall w | w in d.stations :: w.id != id {
      StationIsMissing(d.stations, id);
    }
  }

  /** The resolver keeps ten rounds and lets demand wait two rounds where a scenario sets no limit, and no delay is negative. */
  lemma LimitsOfOptions(d: Definition, visits: Visits, sort: seq<BacklogEntry> -> seq<BacklogEntry>,
                        commentary: (MatchState, seq<ActionSubmission>) -> seq<Commentary>)
    ensures var cfg := ResolverOptions(d, visits, sort, commentary);
            && cfg.historyLimit == (if d.historyLimit > 0 then d.historyLimit else 10)
            && cfg.backlogExpiry == (if d.backlogExpiry > 0 then d.backlogExpiry else 2)
            && cfg.receivableDelay == Max(d.receivableDelay, 0)
            && cfg.payableDelay == Max(d.payableDelay, 0)
            && cfg.payrollDelay == Max(d.payrollDelay, 0)
  {
  }

  /**
   A match starts in round one, with the plant, the targets and the roles it was given, workstations that have done nothing yet,
   customers as the scenario describes them, and suppliers whose rates are percentages and whose score is their rate.
   */
  lemma StartFollowsScenario(d: Definition, matchID: MatchID, roles: seq<RoleAssignment>)
    ensures var st := InitialState(d, matchID, roles);
            && st.matchID == matchID && st.roles == roles && st.currentRound == 1 && st.targets == d.targets && st.history == []
            && st.plant == d.plant.(stations := st.plant.stations)
            && |st.plant.stations| == |d.stations| && |st.customers| == |d.customers| && |st.suppliers| == |d.suppliers|
            && (forall i | 0 <= i < |d.stations| ::
                  var w, m := st.plant.stations[i], d.stations[i];
                  && w.id == m.id && w.capacity == w.effective == m.capacity && w.labor == m.labor
                  && w.stressBuffer == m.stressBuffer && w.stressPenalty == m.stressPenalty
                  && w.laborCost == m.laborCost && w.overtimeCost == m.overtimeCost
                  && w.stressLoss == w.laborUsed == w.overtimeUsed == w.capacityUsed == 0)
            && (forall i | 0 <= i < |d.customers| ::
                  st.customers[i].id == d.customers[i].id && st.customers[i].sentiment == d.customers[i].sentiment
                  && st.customers[i].paymentDelay == d.customers[i].paymentDelay)
            && (forall i | 0 <= i < |d.suppliers| ::
                  var s, m := st.suppliers[i], d.suppliers[i];
                  && s.id == m.id && s.lateRounds == Max(m.lateRounds, 0) && s.score == s.onTimePct
                  && s.onTimePct == (if Percentage(m.onTimePct) then m.onTimePct else 100)
                  && s.placed == s.received == s.late == 0)
  {
  }

  // ---------------------------------------------------------------- the log of a match

  /** What the catalogue says about an event. */
  ghost predicate Follows(d: Definition, e: Event) {
    match e
    case PurchaseOrderPlaced(lot) => exists requested: int :: CatalogueLot(d, lot, requested)
    case ProductionReleased(product, _, bom, _) => CatalogueBill(d, product, bom)
    case WorkAdvanced(product, _, station, next) => OnRoute(d, product, station, next)
    case AdvanceIgnored(product, _, station) => !AtEnd(d, product, station)
    case Scrapped(product, _, station) => AtEnd(d, product, station)
    case ReworkCreated(product, _, station) => AtEnd(d, product, station)
    case FinishedProduced(product, _, station) => AtEnd(d, product, station)
    case HoldPlaced(product, _, _, origin) => origin.Some? ==> AtEnd(d, product, origin.value)
    case Scheduled(item) =>
      (match item.kind
       case Payable => d.payableDelay > 0 && item.due == item.created + d.payableDelay
       case Payroll => d.payrollDelay > 0 && item.due == item.created + d.payrollDelay
       case Receivable => item.due > item.created)
    case _ => true
  }

  lemma RouteFollowed(d: Definition, env: Env, product: ProductID, station: WorkstationID, step: RouteStep)
    requires forall st: MatchState :: env.cfg.route(st, env.round, product, station) == Scenario.Route(d, product, station)
    requires RouteSays(env, product, station, step)
    ensures step == Scenario.Route(d, product, station)
  {
  }

  /** The hooks of a configuration are those of a scenario. */
  ghost predicate UsesCatalogue(cfg: Config, d: Definition) {
    && (forall st: MatchState, round: int, product: ProductID, station: WorkstationID ::
          cfg.route(st, round, product, station) == Scenario.Route(d, product, station))
    && (forall st: MatchState, round: int, order: PurchaseOrderIntent :: cfg.terms(st, round, order) == Terms(d, st, order))
    && (forall st: MatchState, round: int, product: ProductID :: cfg.bom(st, round, product) == Bill(d, product))
    && cfg.payableDelay == Max(d.payableDelay, 0) && cfg.payrollDelay == Max(d.payrollDelay, 0)
  }

  lemma OrderFollows(c: Setting, d: Definition, lot: SupplyLot)
    requires UsesCatalogue(c.env.cfg, d) && OrderReason(c, lot)
    ensures exists requested: int :: CatalogueLot(d, lot, requested)
  {
    hide Terms, CatalogueLot, Acts;
    var a: ActionSubmission, line: nat, st: MatchState :|
      && Acts(c, ProcurementManager, a) && a.action.procurement.Some? && line < |a.action.procurement.value|
      && FollowsOrder(c.env, a, line, st, lot);
    TermsAreCatalogue(d, st, a.action.procurement.value[line], lot);
  }

  lemma ReleaseFollows(c: Setting, d: Definition, product: ProductID, qty: int, bom: seq<BOMLine>, station: WorkstationID)
    requires UsesCatalogue(c.env.cfg, d) && ReleaseReason(c, product, qty, bom, station)
    ensures CatalogueBill(d, product, bom)
  {
    hide Bill, CatalogueBill, Acts;
    var a: ActionSubmission, i: nat, st: MatchState :|
      && Acts(c, ProductionManager, a) && a.action.production.Some? && i < |a.action.production.value.releases|
      && FollowsRelease(c.env, a.action.production.value.releases[i], st, product, qty, bom);
    BillIsCatalogue(d, product, bom);
  }

  lemma JudgedAtEnd(c: Setting, d: Definition, b: Batch, s: Split)
    requires UsesCatalogue(c.env.cfg, d) && Judged(c, b, s)
    ensures AtEnd(d, b.product, b.station)
  {
    hide Scenario.Route, Allocated, SplitByRates, ProfileOf, AtEnd;
    var next: WorkstationID :| RouteSays(c.env, b.product, b.station, RouteStep(next, true));
    RouteFollowed(d, c.env, b.product, b.station, RouteStep(next, true));
    RouteIsCatalogue(d, b.product, b.station);
  }

  lemma InspectionFollows(c: Setting, d: Definition, product: ProductID, qty: int, release: int, station: WorkstationID)
    requires UsesCatalogue(c.env.cfg, d)
    requires || ScrapReason(c, product, qty, station) || ReworkReason(c, product, qty, station)
             || HeldReason(c, product, qty, release, station) || FinishReason(c, product, qty, station)
    ensures AtEnd(d, product, station)
  {
    hide UsesCatalogue, Judged, AtEnd, ProfileOf;
    var b: Batch, s: Split :| Judged(c, b, s) && b.product == product && b.station == station;
    JudgedAtEnd(c, d, b, s);
  }

  lemma StepFollows(c: Setting, d: Definition, product: ProductID, qty: int, station: WorkstationID, next: WorkstationID)
    requires UsesCatalogue(c.env.cfg, d)
    ensures AdvanceReason(c, product, qty, station, next) ==> OnRoute(d, product, station, next)
    ensures IgnoredReason(c, product, qty, station) ==> !AtEnd(d, product, station)
  {
    hide Scenario.Route, Allocated, OnRoute, AtEnd;
    RouteIsCatalogue(d, product, station);
    if AdvanceReason(c, product, qty, station, next) {
      RouteFollowed(d, c.env, product, station, RouteStep(next, false));
    }
    if IgnoredReason(c, product, qty, station) {
      RouteFollowed(d, c.env, product, station, RouteStep(NO_STATION, false));
    }
  }

  lemma EventFollows(c: Setting, d: Definition, log: seq<Event>, e: Event)
    requires UsesCatalogue(c.env.cfg, d) && HasReason(c, log, e)
    ensures Follows(d, e)
  {
    hide UsesCatalogue, CommitmentReason, OrderReason, ReleaseReason, ScrapReason, ReworkReason, HeldReason, FinishReason, AdvanceReason, IgnoredReason;
    hide CatalogueBill, OnRoute, AtEnd;
    match e
    case PurchaseOrderPlaced(lot) => OrderFollows(c, d, lot);
    case ProductionReleased(product, qty, bom, station) => ReleaseFollows(c, d, product, qty, bom, station);
    case WorkAdvanced(product, qty, station, next) => StepFollows(c, d, product, qty, station, next);
    case AdvanceIgnored(product, qty, station) => StepFollows(c, d, product, qty, station, NO_STATION);
    case Scrapped(product, qty, station) => InspectionFollows(c, d, product, qty, 0, station);
    case ReworkCreated(product, qty, station) => InspectionFollows(c, d, product, qty, 0, station);
    case FinishedProduced(product, qty, station) => InspectionFollows(c, d, product, qty, 0, station);
    case HoldPlaced(product, qty, release, origin) =>
      if origin.Some? {
        InspectionFollows(c, d, product, qty, release, origin.value);
      }
    case Scheduled(item) => CommitmentFollows(c, d, log, item);
    case _ =>
  }

  lemma CommitmentFollows(c: Setting, d: Definition, log: seq<Event>, item: CashCommitment)
    requires UsesCatalogue(c.env.cfg, d) && CommitmentReason(c, log, item)
    ensures Follows(d, Scheduled(item))
  {
    hide Scenario.Route, Terms, Bill, Credit;
  }

  lemma OptionsUseCatalogue(d: Definition, visits: Visits, sort: seq<BacklogEntry> -> seq<BacklogEntry>,
                            commentary: (MatchState, seq<ActionSubmission>) -> seq<Commentary>)
    ensures UsesCatalogue(ResolverOptions(d, visits, sort, commentary), d)
  {
    hide Scenario.Route, Terms, Bill;
  }

  lemma {:induction false} BookingLogsDemand(m: Market, entries: seq<BacklogEntry>)
    requires forall e | e in m.events :: e.DemandRealized? || e.BacklogCreated?
    ensures forall e | e in BookAll(m, entries).events :: e.DemandRealized? || e.BacklogCreated?
    decreases |entries|
  {
    hide AppendToCustomer;
    if |entries| > 0 {
      BookingLogsDemand(Book(m, entries[0]), entries[1..]);
    }
  }

  /** The demand hook of every scenario logs demand and nothing else, and leaves the sentiment of the customers alone. */
  lemma DemandHookOnlyBooks(d: Definition, visits: Visits, sort: seq<BacklogEntry> -> seq<BacklogEntry>,
                            commentary: (MatchState, seq<ActionSubmission>) -> seq<Commentary>)
    ensures LogsDemandOnly(ResolverOptions(d, visits, sort, commentary))
    ensures KeepsSentiment(ResolverOptions(d, visits, sort, commentary))
  {
    hide BookAll, NewDemand, CurrentPrices;
    var cfg := ResolverOptions(d, visits, sort, commentary);
    forall st: MatchState, actions: seq<ActionSubmission>, drawn: nat
      ensures var effect := cfg.world.value(st, actions, drawn);
              && effect.Ok?
              && (forall e | e in effect.value.events :: e.DemandRealized? || e.BacklogCreated?)
              && SameCustomers(st.customers, effect.value.st.customers)
              && forall i | 0 <= i < |st.customers| :: effect.value.st.customers[i].sentiment == st.customers[i].sentiment
    {
      var entries := NewDemand(d.markets, CurrentPrices(ProductCosts(d.products), actions), st.customers, st.currentRound,
                               VisitOrders(visits, st));
      BookingLogsDemand(Market(st, []), entries);
      BookAllIs(Market(st, []), entries);
    }
  }

  lemma {:induction false} RunFollows(cfg: Config, d: Definition, random: Random, st: MatchState, results: seq<RoundResult>)
    requires UsesCatalogue(cfg, d) && RunExplained(cfg, random, st, results)
    ensures forall r, e | r in results && e in r.record.events :: Follows(d, e)
    decreases |results|
  {
    hide UsesCatalogue, HasReason, Follows;
    if |results| > 0 {
      var c, log := Setting(EnvOf(cfg, random, st), st, results[0].record.actions), results[0].record.events;
      forall e | e in log ensures Follows(d, e) {
        EventFollows(c, d, log, e);
      }
      RunFollows(cfg, d, random, results[0].next, results[1..]);
      assert forall r | r in results :: r == results[0] || r in results[1..];
    }
  }

  /**
   Every match of every scenario, whatever is played: each event has its reason, orders are placed at catalogue terms, work
   is released by the product's bill, moves from each station of the product's route to the next one, and is finished,
   scrapped, held or reworked at the last one only.
   */
  lemma EveryMatchFollowsCatalogue(d: Definition, visits: Visits, sort: seq<BacklogEntry> -> seq<BacklogEntry>,
                                   commentary: (MatchState, seq<ActionSubmission>) -> seq<Commentary>,
                                   matchID: MatchID, roles: seq<RoleAssignment>, random: Random, inputs: seq<seq<ActionSubmission>>)
    ensures var cfg, st := ResolverOptions(d, visits, sort, commentary), InitialState(d, matchID, roles);
            var run := Play(cfg, random, 0, st, inputs);
            && RunExplained(cfg, random, st, run.results)
            && forall r, e | r in run.results && e in r.record.events :: Follows(d, e)
  {
    hide ResolverOptions, Play, InitialState, LogsDemandOnly, KeepsSentiment, UsesCatalogue, RunExplained, Follows;
    var cfg, st := ResolverOptions(d, visits, sort, commentary), InitialState(d, matchID, roles);
    DemandHookOnlyBooks(d, visits, sort, commentary);
    OptionsUseCatalogue(d, visits, sort, commentary);
    EveryRunIsExplained(cfg, random, 0, st, inputs);
    RunFollows(cfg, d, random, st, Play(cfg, random, 0, st, inputs).results);
  }
}
