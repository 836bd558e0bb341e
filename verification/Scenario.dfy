/**
 A scenario: the hooks it hands to the resolver and the state a match starts in. The hooks satisfy everything
 the results about rounds and runs ask of a configuration.
 */
module Scenario {
  import opened Seqs
  import opened Domain
  import opened Inventory
  import opened Quality
  import opened Phases
  import opened Resolver
  import opened Ledger
  import opened LedgerClosing
  import opened Accounting
  import opened Demand
  import opened SupplyPipeline
  import opened Costing
  import opened CashRuns
  import opened Settlement
  import opened Returns
  import opened ProductionCeiling
  import opened Valuation
  import opened BacklogLife

  datatype PriceBreak = PriceBreak(minimum: int, unitCost: int)

  datatype SupplierOption = SupplierOption(
    id: SupplierID, unitCost: int, leadTime: int, minimumOrder: int, breaks: seq<PriceBreak>)

  datatype PartModel = PartModel(id: PartID, main: SupplierOption, alternates: seq<SupplierOption>)

  datatype ProductModel = ProductModel(
    id: ProductID, baseUnitCost: int, bom: seq<BOMLine>, route: seq<WorkstationID>, quality: Profile)

  datatype StationModel = StationModel(
    id: WorkstationID, capacity: int, costPerUnit: int, stressBuffer: int, stressPenalty: int,
    labor: int, laborCost: int, overtimeCost: int)

  /** A supplier with the behaviour picked for the match. */
  datatype SupplierModel = SupplierModel(id: SupplierID, onTimePct: int, lateRounds: int)

  datatype CustomerSeed = CustomerSeed(id: CustomerID, sentiment: int, paymentDelay: int)

  datatype Definition = Definition(
    historyLimit: int,
    backlogExpiry: int,
    receivableDelay: int,
    payableDelay: int,
    payrollDelay: int,
    targets: BudgetTargets,
    plant: Plant,
    customers: seq<CustomerSeed>,
    markets: Markets,
    products: seq<ProductModel>,
    parts: seq<PartModel>,
    suppliers: seq<SupplierModel>,
    stations: seq<StationModel>)

  // ---------------------------------------------------------------- price breaks

  predicate Eligible(b: PriceBreak, quantity: int) { 0 < b.minimum <= quantity }

  /** The break that sets the price: the largest eligible minimum, the last one where it occurs more than once. */
  ghost predicate BestOf(breaks: seq<PriceBreak>, quantity: int, n: int, i: int) {
    && 0 <= i < n <= |breaks| && Eligible(breaks[i], quantity)
    && (forall j | 0 <= j < n && Eligible(breaks[j], quantity) :: breaks[j].minimum <= breaks[i].minimum)
    && (forall j | i < j < n && Eligible(breaks[j], quantity) :: breaks[j].minimum < breaks[i].minimum)
  }

  ghost predicate Best(breaks: seq<PriceBreak>, quantity: int, i: int) { BestOf(breaks, quantity, |breaks|, i) }

  function ScanBreaks(breaks: seq<PriceBreak>, quantity: int, best: int, cost: int): int
    decreases |breaks|
  {
    if |breaks| == 0 then cost
    else if breaks[0].minimum <= 0 || quantity < breaks[0].minimum || breaks[0].minimum < best
    then ScanBreaks(breaks[1..], quantity, best, cost)
    else ScanBreaks(breaks[1..], quantity, breaks[0].minimum, breaks[0].unitCost)
  }

  function UnitCost(o: SupplierOption, quantity: int): int { ScanBreaks(o.breaks, quantity, 0, o.unitCost) }

  ghost predicate NoneEligible(breaks: seq<PriceBreak>, quantity: int, n: int) {
    n <= |breaks| && forall j | 0 <= j < n :: !Eligible(breaks[j], quantity)
  }

  /** Index of the best of the first n breaks, -1 if none is eligible. */
  ghost predicate BestSoFar(breaks: seq<PriceBreak>, quantity: int, n: int, at: int) {
    if at < 0 then NoneEligible(breaks, quantity, n) else BestOf(breaks, quantity, n, at)
  }

  function MinimumAt(breaks: seq<PriceBreak>, at: int): int {
    if 0 <= at < |breaks| then breaks[at].minimum else 0
  }

  lemma BestMoves(breaks: seq<PriceBreak>, quantity: int, n: nat, at: int)
    requires n < |breaks| && BestSoFar(breaks, quantity, n, at)
    ensures var skipped := breaks[n].minimum <= 0 || quantity < breaks[n].minimum || breaks[n].minimum < MinimumAt(breaks, at);
            BestSoFar(breaks, quantity, n + 1, if skipped then at else n)
  {
  }

  /** From break n on, with the best break so far at index `at`, the scan ends at the best break of all. */
  lemma {:induction false} ScanFindsBest(breaks: seq<PriceBreak>, quantity: int, n: nat, at: int, cost: int) returns (end: int)
    requires n <= |breaks| && BestSoFar(breaks, quantity, n, at) && at < |breaks|
    requires at >= 0 ==> cost == breaks[at].unitCost
    ensures -1 <= end < |breaks| || end == at
    ensures BestSoFar(breaks, quantity, |breaks|, end)
    ensures ScanBreaks(breaks[n..], quantity, MinimumAt(breaks, at), cost) == if end < 0 then cost else breaks[end].unitCost
    decreases |breaks| - n
  {
    hide BestSoFar;
    if n == |breaks| {
      end := at;
    } else {
      assert breaks[n..][1..] == breaks[n + 1..];
      BestMoves(breaks, quantity, n, at);
      if breaks[n].minimum <= 0 || quantity < breaks[n].minimum || breaks[n].minimum < MinimumAt(breaks, at) {
        end := ScanFindsBest(breaks, quantity, n + 1, at, cost);
      } else {
        end := ScanFindsBest(breaks, quantity, n + 1, n, breaks[n].unitCost);
        StillOne(breaks, quantity, n, end);
      }
    }
  }

  lemma StillOne(breaks: seq<PriceBreak>, quantity: int, n: nat, end: int)
    requires n < |breaks| && BestSoFar(breaks, quantity, n + 1, n) && BestSoFar(breaks, quantity, |breaks|, end)
    ensures end >= 0
  {
  }

  /** The price of a quantity: that of the best break, or the list price where no break is eligible. */
  lemma PriceIsBestBreak(o: SupplierOption, quantity: int)
    ensures || (UnitCost(o, quantity) == o.unitCost && forall b | b in o.breaks :: !Eligible(b, quantity))
            || exists i :: Best(o.breaks, quantity, i) && UnitCost(o, quantity) == o.breaks[i].unitCost
  {
    var end := ScanFindsBest(o.breaks, quantity, 0, -1, o.unitCost);
    assert o.breaks[0..] == o.breaks;
  }

  /** `unitCostForQuantity`. */
  method UnitCostForQuantity(o: SupplierOption, quantity: int) returns (cost: int)
    ensures cost == UnitCost(o, quantity)
  {
    var breaks := o.breaks;
    cost := o.unitCost;
    var best := 0;
    for n := 0 to |breaks|
      invariant ScanBreaks(breaks[n..], quantity, best, cost) == UnitCost(o, quantity)
    {
      assert breaks[n..][1..] == breaks[n + 1..];
      if breaks[n].minimum <= 0 || quantity < breaks[n].minimum || breaks[n].minimum < best { continue; }
      best := breaks[n].minimum;
      cost := breaks[n].unitCost;
    }
  }

  lemma {:induction false} BreaksWithin(breaks: seq<PriceBreak>, quantity: int, best: int, cost: int, lo: int, hi: int)
    requires lo <= cost <= hi && forall b | b in breaks :: lo <= b.unitCost <= hi
    ensures lo <= ScanBreaks(breaks, quantity, best, cost) <= hi
    decreases |breaks|
  {
    if |breaks| > 0 {
      assert breaks[0] in breaks;
      if breaks[0].minimum <= 0 || quantity < breaks[0].minimum || breaks[0].minimum < best {
        BreaksWithin(breaks[1..], quantity, best, cost, lo, hi);
      } else {
        BreaksWithin(breaks[1..], quantity, breaks[0].minimum, breaks[0].unitCost, lo, hi);
      }
    }
  }

  // ---------------------------------------------------------------- lookups

  /** Lookups go through a map filled in list order, so the last entry with an identifier wins. */
  function PartByID(parts: seq<PartModel>, id: PartID): Option<PartModel> {
    if |parts| == 0 then None
    else if parts[|parts| - 1].id == id then Some(parts[|parts| - 1])
    else PartByID(parts[..|parts| - 1], id)
  }

  function ProductByID(products: seq<ProductModel>, id: ProductID): Option<ProductModel> {
    if |products| == 0 then None
    else if products[|products| - 1].id == id then Some(products[|products| - 1])
    else ProductByID(products[..|products| - 1], id)
  }

  function StationByID(stations: seq<StationModel>, id: WorkstationID): Option<StationModel> {
    if |stations| == 0 then None
    else if stations[|stations| - 1].id == id then Some(stations[|stations| - 1])
    else StationByID(stations[..|stations| - 1], id)
  }

  function OptionByID(options: seq<SupplierOption>, id: SupplierID): Option<SupplierOption> {
    if |options| == 0 then None
    else if options[0].id == id then Some(options[0])
    else OptionByID(options[1..], id)
  }

  function RouteIndex(route: seq<WorkstationID>, id: WorkstationID): (i: nat)
    ensures i <= |route| && (i < |route| ==> route[i] == id)
  {
    if |route| == 0 || route[0] == id then 0 else 1 + RouteIndex(route[1..], id)
  }

  // ---------------------------------------------------------------- hooks

  const UNKNOWN_TERMS: ProcurementTerms := ProcurementTerms(0, 0, 0, false)

  function Terms(d: Definition, st: MatchState, order: PurchaseOrderIntent): ProcurementTerms {
    match PartByID(d.parts, order.part)
    case None => UNKNOWN_TERMS
    case Some(part) =>
      if SupplierIndex(st.suppliers, order.supplier) == |st.suppliers| then UNKNOWN_TERMS
      else
        match OptionByID([part.main] + part.alternates, order.supplier)
        case None => UNKNOWN_TERMS
        case Some(o) =>
          ProcurementTerms(UnitCost(o, order.quantity), o.minimumOrder, if o.leadTime <= 0 then 1 else o.leadTime, true)
  }

  function Bill(d: Definition, product: ProductID): ProductionBOM {
    match ProductByID(d.products, product)
    case None => ProductionBOM(false, [])
    case Some(p) => ProductionBOM(true, p.bom)
  }

  function Route(d: Definition, product: ProductID, station: WorkstationID): RouteStep {
    match ProductByID(d.products, product)
    case None => RouteStep(NO_STATION, false)
    case Some(p) =>
      var i := RouteIndex(p.route, station);
      if i == |p.route| then RouteStep(NO_STATION, false)
      else if i == |p.route| - 1 then RouteStep(NO_STATION, true)
      else RouteStep(p.route[i + 1], false)
  }

  function StationCost(d: Definition, station: WorkstationID): int {
    match StationByID(d.stations, station)
    case None => 1
    case Some(w) => if w.costPerUnit <= 0 then 1 else w.costPerUnit
  }

  function QualityOf(d: Definition, c: QualityContext): Profile {
    match ProductByID(d.products, c.product)
    case None => Profile(0, 0, 0, 0, 0, 0)
    case Some(p) =>
      match c
      case Shipment(_, _, _) => p.quality
      case FinalInspection(_, _, _, stressed, overtime) =>
        var strained := if stressed
                        then p.quality.(scrapPct := p.quality.scrapPct + 10, reworkPct := p.quality.reworkPct + 10)
                        else p.quality;
        if overtime then strained.(holdPct := strained.holdPct + 10) else strained
  }

  function ProductCosts(products: seq<ProductModel>): seq<ProductCost> {
    if |products| == 0 then []
    else [ProductCost(products[0].id, products[0].baseUnitCost)] + ProductCosts(products[1..])
  }

  /** The order in which the price map is visited, for every customer of every state. */
  type Visits = (MatchState, nat) -> seq<ProductID>

  function VisitOrders(visits: Visits, st: MatchState): seq<seq<ProductID>> {
    seq(|st.customers|, i requires 0 <= i < |st.customers| => visits(st, i))
  }

  function WorldUpdate(d: Definition, visits: Visits, st: MatchState, actions: seq<ActionSubmission>, drawn: nat): WorldEffect {
    var prices := CurrentPrices(ProductCosts(d.products), actions);
    var m := BookAll(Market(st, []), NewDemand(d.markets, prices, st.customers, st.currentRound, VisitOrders(visits, st)));
    WorldEffect(m.st, drawn, m.events)
  }

  /** `ResolverOptions`, normalized by the resolver. The scenario leaves the carrying-cost hook out. */
  function ResolverOptions(d: Definition, visits: Visits, sort: seq<BacklogEntry> -> seq<BacklogEntry>,
                           commentary: (MatchState, seq<ActionSubmission>) -> seq<Commentary>): Config {
    NewResolver(Config(
      d.historyLimit, d.backlogExpiry,
      (st: MatchState, round: int, order: PurchaseOrderIntent) => Terms(d, st, order),
      (st: MatchState, round: int, product: ProductID) => Bill(d, product),
      (st: MatchState, round: int, product: ProductID, station: WorkstationID) => Route(d, product, station),
      (st: MatchState, round: int, product: ProductID, station: WorkstationID, quantity: int) => StationCost(d, station),
      (st: MatchState, round: int, context: QualityContext) => QualityOf(d, context),
      None,
      d.receivableDelay, d.payableDelay, d.payrollDelay,
      Some((st: MatchState, actions: seq<ActionSubmission>, drawn: nat) => Ok(WorldUpdate(d, visits, st, actions, drawn))),
      sort, commentary))
  }

  // ---------------------------------------------------------------- the hooks are sound

  lemma DemandHookIsOrderly(d: Definition, visits: Visits, sort: seq<BacklogEntry> -> seq<BacklogEntry>,
                            commentary: (MatchState, seq<ActionSubmission>) -> seq<Commentary>)
    ensures OrderlyWorld(ResolverOptions(d, visits, sort, commentary))
    ensures ValidConfig(ResolverOptions(d, visits, sort, commentary))
    ensures CarryingCostsNotNegative(ResolverOptions(d, visits, sort, commentary))
  {
    hide OrderlyEffect, BookAll, NewDemand, CurrentPrices;
    var cfg := ResolverOptions(d, visits, sort, commentary);
    forall st: MatchState, actions: seq<ActionSubmission>, drawn: nat
      ensures OrderlyEffect(st, cfg.world.value(st, actions, drawn).value)
    {
      DemandIsOrderly(d.markets, CurrentPrices(ProductCosts(d.products), actions), st, drawn, VisitOrders(visits, st));
    }
  }

  lemma {:induction false} ProductFound(products: seq<ProductModel>, id: ProductID)
    ensures ProductByID(products, id).Some? ==> ProductByID(products, id).value in products
  {
    if |products| > 0 {
      ProductFound(products[..|products| - 1], id);
    }
  }

  /** Bills of the catalogue that list each part once make the bill hook sound. */
  lemma BillsAreSound(d: Definition, visits: Visits, sort: seq<BacklogEntry> -> seq<BacklogEntry>,
                      commentary: (MatchState, seq<ActionSubmission>) -> seq<Commentary>)
    requires forall p | p in d.products :: SoundBill(p.bom)
    ensures SoundBills(ResolverOptions(d, visits, sort, commentary))
  {
    NoParts();
    var cfg := ResolverOptions(d, visits, sort, commentary);
    forall st: MatchState, round: int, product: ProductID
      ensures SoundBill(cfg.bom(st, round, product).parts)
    {
      ProductFound(d.products, product);
    }
  }

  lemma NoParts()
    ensures SoundBill([])
  {
  }

  lemma {:induction false} PartFound(parts: seq<PartModel>, id: PartID)
    ensures PartByID(parts, id).Some? ==> PartByID(parts, id).value in parts
  {
    if |parts| > 0 {
      PartFound(parts[..|parts| - 1], id);
    }
  }

  lemma {:induction false} OptionFound(options: seq<SupplierOption>, id: SupplierID)
    ensures OptionByID(options, id).Some? ==> OptionByID(options, id).value in options
  {
    if |options| > 0 {
      OptionFound(options[1..], id);
    }
  }

  ghost predicate OptionWithin(o: SupplierOption, lo: int, hi: int) {
    lo <= o.unitCost <= hi && forall b | b in o.breaks :: lo <= b.unitCost <= hi
  }

  /** A catalogue whose list prices and price breaks lie in a band quotes prices in that band. */
  lemma QuotesWithin(d: Definition, visits: Visits, sort: seq<BacklogEntry> -> seq<BacklogEntry>,
                     commentary: (MatchState, seq<ActionSubmission>) -> seq<Commentary>, lo: int, hi: int)
    requires 1 <= lo && forall p, o | p in d.parts && o in [p.main] + p.alternates :: OptionWithin(o, lo, hi)
    ensures PricesWithin(ResolverOptions(d, visits, sort, commentary), lo, hi)
  {
    forall st: MatchState, order: PurchaseOrderIntent | Terms(d, st, order).known
      ensures lo <= Terms(d, st, order).unitCost <= hi
    {
      PartFound(d.parts, order.part);
      var part := PartByID(d.parts, order.part).value;
      OptionFound([part.main] + part.alternates, order.supplier);
      var o := OptionByID([part.main] + part.alternates, order.supplier).value;
      assert OptionWithin(o, lo, hi);
      BreaksWithin(o.breaks, order.quantity, 0, o.unitCost, lo, hi);
    }
  }

  // ---------------------------------------------------------------- the start of a match

  function OnTimePct(pct: int): int { if pct < 0 then 100 else if pct > 100 then 100 else pct }

  function SeedCustomers(seeds: seq<CustomerSeed>, backlog: seq<BacklogEntry>): seq<Customer> {
    seq(|seeds|, i requires 0 <= i < |seeds| =>
      Customer(seeds[i].id, seeds[i].sentiment, seeds[i].paymentDelay, Filter(ForCustomer(seeds[i].id), backlog)))
  }

  function SeedSuppliers(suppliers: seq<SupplierModel>): seq<Supplier> {
    seq(|suppliers|, i requires 0 <= i < |suppliers| =>
      Supplier(suppliers[i].id, OnTimePct(suppliers[i].onTimePct), Max(0, suppliers[i].lateRounds),
               OnTimePct(suppliers[i].onTimePct), 0, 0, 0))
  }

  function SeedStations(stations: seq<StationModel>): seq<Workstation> {
    seq(|stations|, i requires 0 <= i < |stations| =>
      var w := stations[i];
      Workstation(w.id, w.capacity, w.capacity, 0, w.stressBuffer, w.stressPenalty, w.labor, 0, w.laborCost, 0, w.overtimeCost, 0))
  }

  function InitialState(d: Definition, matchID: MatchID, roles: seq<RoleAssignment>): MatchState {
    MatchState(matchID, 1, roles, d.plant.(stations := SeedStations(d.stations)),
               SeedCustomers(d.customers, d.plant.backlog), SeedSuppliers(d.suppliers), d.targets, None, [])
  }

  ghost predicate SoundStart(d: Definition) {
    && TidyPlant(d.plant)
    && forall i, j | 0 <= i < j < |d.customers| :: d.customers[i].id != d.customers[j].id
  }

  lemma StartIsValid(d: Definition, matchID: MatchID, roles: seq<RoleAssignment>)
    requires SoundStart(d)
    ensures ValidState(InitialState(d, matchID, roles))
    ensures ScoresInRange(InitialState(d, matchID, roles).suppliers)
  {
    hide Tidy;
  }

  /**
   A match played from the start of any scenario with distinct customers, over any inputs and rolls: every state
   is valid, so the customers' own lists always agree with the plant, and the reported profits add up to the
   change of net worth.
   */
  lemma EveryMatchBalances(d: Definition, visits: Visits, sort: seq<BacklogEntry> -> seq<BacklogEntry>,
                           commentary: (MatchState, seq<ActionSubmission>) -> seq<Commentary>,
                           matchID: MatchID, roles: seq<RoleAssignment>, random: Random, inputs: seq<seq<ActionSubmission>>)
    requires SoundStart(d) && PermutingSort(ResolverOptions(d, visits, sort, commentary))
    ensures var run := Play(ResolverOptions(d, visits, sort, commentary), random, 0, InitialState(d, matchID, roles), inputs);
            && ValidState(run.st)
            && EffectiveBacklog(run.st) == run.st.plant.backlog
            && NetWorth(run.st.plant) - NetWorth(d.plant) == Sum(ReportedProfit(), run.results)
            && (PositionOf(d.plant).Normal() ==> PositionOf(run.st.plant).Normal())
  {
    hide ResolverOptions, Play, ValidState, OrderlyWorld, PermutingSort, SoundStart, EffectiveBacklog, CarryingCostsNotNegative;
    var cfg, st := ResolverOptions(d, visits, sort, commentary), InitialState(d, matchID, roles);
    DemandHookIsOrderly(d, visits, sort, commentary);
    StartIsValid(d, matchID, roles);
    ProfitExplainsRun(cfg, random, 0, st, inputs);
    ReportedProfitExplainsRun(cfg, random, 0, st, inputs);
    if PositionOf(d.plant).Normal() {
      PositionAfterRun(cfg, random, 0, st, inputs);
    }
    ValidFallback(Play(cfg, random, 0, st, inputs).st);
  }

  lemma ValidFallback(st: MatchState)
    requires ValidState(st)
    ensures EffectiveBacklog(st) == st.plant.backlog
  {
    hide EffectiveBacklog, TidyPlant;
    FallbackAgrees(st);
  }

  /** In every match of a scenario whose catalogue prices lie in a band, so do the unit costs of all parts. */
  lemma EveryMatchKeepsPartCosts(d: Definition, visits: Visits, sort: seq<BacklogEntry> -> seq<BacklogEntry>,
                                 commentary: (MatchState, seq<ActionSubmission>) -> seq<Commentary>, matchID: MatchID,
                                 roles: seq<RoleAssignment>, random: Random, inputs: seq<seq<ActionSubmission>>, lo: int, hi: int)
    requires 1 <= lo && forall p, o | p in d.parts && o in [p.main] + p.alternates :: OptionWithin(o, lo, hi)
    requires PartsWithin(d.plant, lo, hi)
    ensures PartsWithin(Play(ResolverOptions(d, visits, sort, commentary), random, 0, InitialState(d, matchID, roles), inputs).st.plant,
                        lo, hi)
  {
    hide ResolverOptions, Play, OrderlyWorld, PricesWithin, OptionWithin;
    DemandHookIsOrderly(d, visits, sort, commentary);
    QuotesWithin(d, visits, sort, commentary, lo, hi);
    PartCostsOverRun(ResolverOptions(d, visits, sort, commentary), random, 0, InitialState(d, matchID, roles), inputs, lo, hi);
  }

  // ---------------------------------------------------------------- no value from nothing

  /** In every match of a scenario whose bills ask for something, from a priced plant, no value on hand appears from nothing. */
  lemma EveryMatchCreatesNoValue(d: Definition, visits: Visits, sort: seq<BacklogEntry> -> seq<BacklogEntry>,
                                 commentary: (MatchState, seq<ActionSubmission>) -> seq<Commentary>,
                                 matchID: MatchID, roles: seq<RoleAssignment>, random: Random, inputs: seq<seq<ActionSubmission>>)
    requires Priced(d.plant) && forall p | p in d.products :: PaidBill(p.bom)
    ensures var run := Play(ResolverOptions(d, visits, sort, commentary), random, 0, InitialState(d, matchID, roles), inputs);
            Priced(run.st.plant) && OnHand(run.st.plant) <= OnHand(d.plant) + Sum(Brought(), run.results)
  {
    hide ResolverOptions, Play, OrderlyWorld, CarryingCostsNotNegative, ValidConfig, PaidBills, PaidBill, InitialState, Costed, Brought;
    DemandHookIsOrderly(d, visits, sort, commentary);
    BillsArePaid(d, visits, sort, commentary);
    FirstRound(d, matchID, roles);
    RunCreatesNoValue(ResolverOptions(d, visits, sort, commentary), random, 0, InitialState(d, matchID, roles), inputs);
  }

  lemma BillsArePaid(d: Definition, visits: Visits, sort: seq<BacklogEntry> -> seq<BacklogEntry>,
                     commentary: (MatchState, seq<ActionSubmission>) -> seq<Commentary>)
    requires forall p | p in d.products :: PaidBill(p.bom)
    ensures PaidBills(ResolverOptions(d, visits, sort, commentary))
  {
    hide PaidBill;
    var cfg := ResolverOptions(d, visits, sort, commentary);
    forall st: MatchState, round: int, product: ProductID | cfg.bom(st, round, product).known
      ensures PaidBill(cfg.bom(st, round, product).parts)
    {
      ProductFound(d.products, product);
    }
  }

  // ---------------------------------------------------------------- the ceiling under a scenario's own hooks

  /** A scenario quotes one cost per station. */
  lemma StationCostIsConstant(d: Definition, visits: Visits, sort: seq<BacklogEntry> -> seq<BacklogEntry>,
                              commentary: (MatchState, seq<ActionSubmission>) -> seq<Commentary>,
                              env: Env, product: ProductID, station: WorkstationID)
    requires env.cfg == ResolverOptions(d, visits, sort, commentary)
    ensures ConstantCost(env, product, station, StationCost(d, station)) && StationCost(d, station) >= 1
  {
  }

  /**
   No hooks need to be made up for the ceiling to break: in every scenario, two allocations at a station that can work on
   both within its base labour break it when each is within what the plant can raise, both together are beyond it, and
   no cap, or a cap that fits both, is set.
   */
  lemma OwnHooksBreakTheCeiling(d: Definition, visits: Visits, sort: seq<BacklogEntry> -> seq<BacklogEntry>,
                                commentary: (MatchState, seq<ActionSubmission>) -> seq<Commentary>,
                                env: Env, p: Phase, i: nat, product: ProductID, first: int, second: int)
    requires env.cfg == ResolverOptions(d, visits, sort, commentary)
    requires TidyPlant(p.st.plant) && Solid(p) && p.stats.productionSpend == 0
    requires first > 0 && second > 0 && CanWork(p.st.plant, i, product, first + second)
    requires var cost := StationCost(d, p.st.plant.stations[i].id);
             var cap := CappedBudget(p.st.targets.productionSpendBudget);
             && first * cost <= Capacity(p.st.plant) && second * cost <= Capacity(p.st.plant) < (first + second) * cost
             && (cap <= 0 || (first + second) * cost <= cap)
    ensures !WithinCeiling(ResolveProduction(env, p, Some(Allocations(p.st.plant.stations[i].id, product, first, second))).st.plant)
  {
    hide ResolverOptions, TidyPlant, CanWork, Capacity, ResolveProduction, StationCost, ConstantCost;
    assert i < |p.st.plant.stations| by { StationThere(p.st.plant, i, product, first + second); }
    var station := p.st.plant.stations[i].id;
    StationCostIsConstant(d, visits, sort, commentary, env, product, station);
    ConstantCostBreaksTheCeiling(env, p, i, product, first, second, StationCost(d, station));
  }

  lemma StationThere(plant: Plant, i: nat, product: ProductID, n: int)
    requires CanWork(plant, i, product, n)
    ensures i < |plant.stations|
  {
  }

  // ---------------------------------------------------------------- everything is settled in its time

  /**
   A start at which nothing is overdue: what is owed, returned, held or in transit stems from before the first round
   and is due in it or later, and the opening backlog is from before the match and within the expiry limit.
   */
  ghost predicate FreshStart(d: Definition) {
    var limit := if d.backlogExpiry <= 0 then 2 else d.backlogExpiry;
    && (forall c | c in d.plant.receivables + d.plant.payables :: c.created < 1 <= c.due)
    && (forall c | c in d.plant.pendingReturns :: c.created < 1 <= c.due)
    && (forall h | h in d.plant.holds :: 1 <= h.release)
    && (forall l | l in d.plant.inTransit :: l.ordered < 1 <= l.promised == l.arrival)
    && (forall e | e in d.plant.backlog :: e.origin < 1 && 0 <= e.age <= limit)
  }

  lemma FreshStartIsOnTime(d: Definition, visits: Visits, sort: seq<BacklogEntry> -> seq<BacklogEntry>,
                           commentary: (MatchState, seq<ActionSubmission>) -> seq<Commentary>,
                           matchID: MatchID, roles: seq<RoleAssignment>)
    requires FreshStart(d)
    ensures var st := InitialState(d, matchID, roles);
            OnSchedule(st) && PipelineOnTime(st) && WithinLife(ResolverOptions(d, visits, sort, commentary), st, 1)
  {
    hide SeedCustomers, SeedSuppliers, SeedStations;
    var st := InitialState(d, matchID, roles);
    assert forall c | c in d.plant.receivables || c in d.plant.payables :: c in d.plant.receivables + d.plant.payables;
  }

  /**
   In every match from a fresh start: nothing is ever overdue, every lot in transit is on time or late by its supplier's
   late rounds, and no entry of the backlog outlives its expiry limit.
   */
  lemma EveryMatchIsOnTime(d: Definition, visits: Visits, sort: seq<BacklogEntry> -> seq<BacklogEntry>,
                           commentary: (MatchState, seq<ActionSubmission>) -> seq<Commentary>,
                           matchID: MatchID, roles: seq<RoleAssignment>, random: Random, inputs: seq<seq<ActionSubmission>>)
    requires SoundStart(d) && FreshStart(d) && PermutingSort(ResolverOptions(d, visits, sort, commentary))
    ensures var cfg := ResolverOptions(d, visits, sort, commentary);
            var st := Play(cfg, random, 0, InitialState(d, matchID, roles), inputs).st;
            && OnSchedule(st) && PipelineOnTime(st) && WithinLife(cfg, st, 1)
            && forall e | e in st.plant.backlog && e.origin >= 1 :: st.currentRound <= e.origin + cfg.backlogExpiry
  {
    hide ResolverOptions, Play, ValidState, OrderlyWorld, PermutingSort, SoundStart, FreshStart, CarryingCostsNotNegative;
    hide OnSchedule, PipelineOnTime, WithinLife, ValidConfig, InitialState, ScoresInRange;
    var cfg, st := ResolverOptions(d, visits, sort, commentary), InitialState(d, matchID, roles);
    DemandHookIsOrderly(d, visits, sort, commentary);
    StartIsValid(d, matchID, roles);
    FreshStartIsOnTime(d, visits, sort, commentary, matchID, roles);
    FirstRound(d, matchID, roles);
    SettledOnceOverRun(cfg, random, 0, st, inputs, CashCommitment(CommitmentID(Payable, 0, 0), Payable, 0, 0, 0));
    OrderedIsDeliveredOnce(cfg, random, 0, st, inputs, SupplyLot(LotID(NoActionID, 0), 0, 0, 0, 0, 0, 0, 0));
    BoundedLifeOverRun(cfg, random, 0, st, inputs, 1);
  }

  /** In every match that starts with distinct holds, all four buckets keep one line per key. */
  lemma EveryMatchKeepsOneLinePerKey(d: Definition, visits: Visits, sort: seq<BacklogEntry> -> seq<BacklogEntry>,
                                     commentary: (MatchState, seq<ActionSubmission>) -> seq<Commentary>,
                                     matchID: MatchID, roles: seq<RoleAssignment>, random: Random, inputs: seq<seq<ActionSubmission>>)
    requires SoundStart(d) && DistinctHolds(d.plant.holds) && PermutingSort(ResolverOptions(d, visits, sort, commentary))
    ensures OneLinePerKey(Play(ResolverOptions(d, visits, sort, commentary), random, 0, InitialState(d, matchID, roles), inputs).st.plant)
  {
    hide ResolverOptions, Play, ValidState, OrderlyWorld, PermutingSort, SoundStart, CarryingCostsNotNegative, ValidConfig;
    hide InitialState, ScoresInRange, OneLinePerKey, DistinctHolds;
    DemandHookIsOrderly(d, visits, sort, commentary);
    StartIsValid(d, matchID, roles);
    FirstRound(d, matchID, roles);
    BucketsKeepOneLinePerKey(ResolverOptions(d, visits, sort, commentary), random, 0, InitialState(d, matchID, roles), inputs);
  }

  lemma FirstRound(d: Definition, matchID: MatchID, roles: seq<RoleAssignment>)
    ensures var st := InitialState(d, matchID, roles);
            && st.currentRound == 1 && st.plant == d.plant.(stations := st.plant.stations)
            && st.suppliers == SeedSuppliers(d.suppliers)
  {
  }

  /**
   In every match from a fresh start, for any commitment, return, hold and order: once its last round has been played
   it has been collected or paid, received, released or delivered exactly as often as it ever came up.
   */
  lemma EveryMatchSettles(d: Definition, visits: Visits, sort: seq<BacklogEntry> -> seq<BacklogEntry>,
                          commentary: (MatchState, seq<ActionSubmission>) -> seq<Commentary>,
                          matchID: MatchID, roles: seq<RoleAssignment>, random: Random, inputs: seq<seq<ActionSubmission>>,
                          c: CashCommitment, item: CustomerReturn, product: ProductID, round: int, lot: SupplyLot)
    requires SoundStart(d) && FreshStart(d) && PermutingSort(ResolverOptions(d, visits, sort, commentary))
    ensures var run := Play(ResolverOptions(d, visits, sort, commentary), random, 0, InitialState(d, matchID, roles), inputs);
            var now := run.st.currentRound;
            && (now > c.due ==>
                  && Sum(RunCollections(c), run.results) == Count(d.plant.receivables, c) + Sum(RunReceivables(c), run.results)
                  && Sum(RunPayments(c), run.results) == Count(d.plant.payables, c) + Sum(RunPayables(c), run.results))
            && (now > item.due ==>
                  Sum(RunReceptions(item), run.results) == Pending(d.plant, item) + Sum(RunPromises(item), run.results))
            && (now > round ==>
                  Sum(RunReleased(product, round), run.results) ==
                  UnitsHeld(d.plant, product, round) + Sum(RunPlaced(product, round), run.results))
            && (now > lot.promised + LateRounds(SeedSuppliers(d.suppliers), lot.supplier) ==>
                  Sum(RunReceipts(lot), run.results) == InTransit(d.plant, lot) + Sum(RunOrders(lot), run.results))
  {
    hide ResolverOptions, Play, ValidState, OrderlyWorld, PermutingSort, SoundStart, FreshStart, CarryingCostsNotNegative;
    hide OnSchedule, PipelineOnTime, WithinLife, ValidConfig, InitialState, ScoresInRange, Sum, SeedSuppliers, LateRounds;
    var cfg, st := ResolverOptions(d, visits, sort, commentary), InitialState(d, matchID, roles);
    DemandHookIsOrderly(d, visits, sort, commentary);
    StartIsValid(d, matchID, roles);
    FreshStartIsOnTime(d, visits, sort, commentary, matchID, roles);
    FirstRound(d, matchID, roles);
    ScheduledIsSettledOnce(cfg, random, 0, st, inputs, c);
    PromisedIsReceivedOnce(cfg, random, 0, st, inputs, item);
    HeldUnitsReleasedOnce(cfg, random, 0, st, inputs, product, round);
    OrderedIsDeliveredOnce(cfg, random, 0, st, inputs, lot);
  }
}
