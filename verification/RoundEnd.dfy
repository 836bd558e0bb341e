/**
 What the end of a round does to the backlog, to the customers' sentiment, to the targets and to the carrying costs, and
 what its record reports.
 */
module RoundEnd {
  import opened Seqs
  import opened Domain
  import opened Cash
  import opened Inventory
  import opened Quality
  import opened Phases
  import opened Actions
  import opened Resolver
  import opened Ledger
  import opened LedgerClosing
  import opened Frames
  import opened Accounting
  import opened Valuation
  import opened BacklogLife
  import opened Chapters
  import opened Reasons

  // ---------------------------------------------------------------- aging

  /** Entries that see another round, and entries that are given up. */
  function Lasts(limit: int): BacklogEntry -> bool { (e: BacklogEntry) => e.age < limit }

  function Lapses(limit: int): BacklogEntry -> bool { (e: BacklogEntry) => e.age >= limit }

  function Older(entries: seq<BacklogEntry>): seq<BacklogEntry> {
    seq(|entries|, i requires 0 <= i < |entries| => entries[i].(age := entries[i].age + 1))
  }

  function Losses(entries: seq<BacklogEntry>): seq<Event> {
    seq(|entries|, i requires 0 <= i < |entries| => BacklogExpired(entries[i].customer, entries[i].product, entries[i].qty))
  }

  lemma {:induction false} AgingIs(env: Env, a: Phases.Aging, entries: seq<BacklogEntry>)
    ensures var b, limit := AgeAll(env, a, entries), env.cfg.backlogExpiry;
            && b.aged == a.aged + Older(Filter(Lasts(limit), entries))
            && b.p.events == a.p.events + Losses(Filter(Lapses(limit), entries))
            && b.p.stats.lostSalesUnits == a.p.stats.lostSalesUnits + Sum(EntryQty(), Filter(Lapses(limit), entries))
    decreases |entries|
  {
    hide Disappoint;
    if |entries| > 0 {
      var e, limit := entries[0], env.cfg.backlogExpiry;
      AgingIs(env, AgeEntry(env, a, e), entries[1..]);
      if e.age < limit {
        assert Older([e] + Filter(Lasts(limit), entries[1..])) == [e.(age := e.age + 1)] + Older(Filter(Lasts(limit), entries[1..]));
      } else {
        var rest := Filter(Lapses(limit), entries[1..]);
        assert Losses([e] + rest) == [BacklogExpired(e.customer, e.product, e.qty)] + Losses(rest);
        assert ([e] + rest)[1..] == rest;
      }
    }
  }

  /**
   At the end of a round an entry is given up if and only if it has reached the limit; every other entry stays, one
   round older, in its place. What is given up is logged and counted, entry by entry.
   */
  lemma AgingOutcome(env: Env, p: Phase)
    requires Coherent(p.st)
    ensures var q, backlog, limit := AgeBacklog(env, p), p.st.plant.backlog, env.cfg.backlogExpiry;
            && q.st.plant.backlog == Older(Filter(Lasts(limit), backlog))
            && q.events == p.events + Losses(Filter(Lapses(limit), backlog))
            && q.stats.lostSalesUnits == p.stats.lostSalesUnits + Sum(EntryQty(), Filter(Lapses(limit), backlog))
  {
    hide AgeAll, SyncCustomers, Coherent, EffectiveBacklog;
    FallbackAgrees(p.st);
    AgingIs(env, Phases.Aging(p, []), p.st.plant.backlog);
  }

  // ---------------------------------------------------------------- sentiment

  /** A return received from a customer, or an entry of the customer given up. */
  function Upset(id: CustomerID): Event -> int {
    (e: Event) =>
      if e.ReturnReceived? && e.item.customer == id then 1
      else if e.BacklogExpired? && e.customer == id then 1 else 0
  }

  /** The log speaks of a customer by identifier, which means the first customer with it. */
  function Upsets(customers: seq<Customer>, i: nat, events: seq<Event>): int
    requires i < |customers|
  {
    if CustomerIndex(customers, customers[i].id) == i then Sum(Upset(customers[i].id), events) else 0
  }

  ghost predicate MoodFollows(p: Phase, q: Phase, i: nat)
    requires i < |p.st.customers|
  {
    var a, b := p.st.customers, q.st.customers;
    SameCustomers(a, b) && b[i].sentiment + Upsets(a, i, q.events) == a[i].sentiment + Upsets(a, i, p.events)
  }

  lemma SameCustomerIndex(a: seq<Customer>, b: seq<Customer>, id: CustomerID)
    requires SameCustomers(a, b)
    ensures CustomerIndex(a, id) == CustomerIndex(b, id)
  {
  }

  lemma MoodFollowsOn(p: Phase, q: Phase, r: Phase, i: nat)
    requires i < |p.st.customers| && MoodFollows(p, q, i) && MoodFollows(q, r, i)
    ensures MoodFollows(p, r, i)
  {
    hide CustomerIndex, Upset;
    SameCustomerIndex(p.st.customers, q.st.customers, p.st.customers[i].id);
  }

  lemma OneDisappointed(customers: seq<Customer>, id: CustomerID, i: nat)
    requires i < |customers|
    ensures var after := Disappoint(customers, id);
            && SameCustomers(customers, after)
            && after[i].sentiment == customers[i].sentiment - (if i == CustomerIndex(customers, id) then 1 else 0)
    ensures (CustomerIndex(customers, customers[i].id) == i && customers[i].id == id) <==> i == CustomerIndex(customers, id)
  {
  }

  lemma AcceptingUpsets(env: Env, p: Phase, item: CustomerReturn, i: nat)
    requires i < |p.st.customers|
    ensures MoodFollows(p, AcceptReturn(env, p, item), i)
  {
    hide AddHold, Disappoint, CustomerIndex, Sum;
    var customers := p.st.customers;
    OneDisappointed(customers, item.customer, i);
    var more := [HoldPlaced(item.product, item.qty, env.round + 1, None), ReturnReceived(item),
                 BacklogCreated(item.customer, item.product, item.qty)];
    var f := Upset(customers[i].id);
    SumPush(f, p.events, more[0]);
    SumPush(f, p.events + [more[0]], more[1]);
    SumPush(f, p.events + [more[0]] + [more[1]], more[2]);
  }

  lemma {:induction false} AcceptedUpset(env: Env, p: Phase, items: seq<CustomerReturn>, i: nat)
    requires i < |p.st.customers|
    ensures MoodFollows(p, AcceptReturns(env, p, items), i)
    decreases |items|
  {
    hide AcceptReturn, Upsets;
    if |items| > 0 {
      AcceptingUpsets(env, p, items[0], i);
      var q := AcceptReturn(env, p, items[0]);
      AcceptedUpset(env, q, items[1..], i);
      MoodFollowsOn(p, q, AcceptReturns(env, q, items[1..]), i);
    }
  }

  lemma AgingUpsets(env: Env, a: Phases.Aging, entry: BacklogEntry, i: nat)
    requires i < |a.p.st.customers|
    ensures MoodFollows(a.p, AgeEntry(env, a, entry).p, i)
  {
    hide Disappoint, CustomerIndex, Sum;
    var customers := a.p.st.customers;
    OneDisappointed(customers, entry.customer, i);
    SumPush(Upset(customers[i].id), a.p.events, BacklogExpired(entry.customer, entry.product, entry.qty));
  }

  lemma {:induction false} AllAgingUpset(env: Env, a: Phases.Aging, entries: seq<BacklogEntry>, i: nat)
    requires i < |a.p.st.customers|
    ensures MoodFollows(a.p, AgeAll(env, a, entries).p, i)
    decreases |entries|
  {
    hide AgeEntry, Upsets;
    if |entries| > 0 {
      AgingUpsets(env, a, entries[0], i);
      var b := AgeEntry(env, a, entries[0]);
      AllAgingUpset(env, b, entries[1..], i);
      MoodFollowsOn(a.p, b.p, AgeAll(env, b, entries[1..]).p, i);
    }
  }

  /** Copying the backlog to the customers leaves their mood alone. */
  lemma SyncedMood(p: Phase, q: Phase, r: Phase, backlog: seq<BacklogEntry>, i: nat)
    requires i < |p.st.customers| && MoodFollows(p, q, i)
    requires r.st.customers == SyncCustomers(q.st.customers, backlog) || r.st.customers == q.st.customers
    requires r.events == q.events
    ensures MoodFollows(p, r, i)
  {
    hide Upsets;
  }

  /** A chapter without upsets that leaves identifiers and sentiments alone. */
  lemma QuietMood(p: Phase, q: Phase, chapter: Chapter, i: nat)
    requires i < |p.st.customers| && Writes(p, q, chapter)
    requires SameCustomers(p.st.customers, q.st.customers) && q.st.customers[i].sentiment == p.st.customers[i].sentiment
    requires !chapter.Returning? && !chapter.Aging? && !chapter.World?
    ensures MoodFollows(p, q, i)
  {
    hide SameCustomers;
    var f, more := Upset(p.st.customers[i].id), q.events[|p.events|..];
    assert q.events == p.events + more;
    SumConcat(f, p.events, more);
    NobodyUpset(more, p.st.customers[i].id, chapter);
  }

  lemma {:induction false} NobodyUpset(events: seq<Event>, id: CustomerID, chapter: Chapter)
    requires forall e | e in events :: Belongs(chapter, e)
    requires !chapter.Returning? && !chapter.Aging? && !chapter.World?
    ensures Sum(Upset(id), events) == 0
  {
    if |events| > 0 {
      assert Belongs(chapter, events[0]);
      NobodyUpset(events[1..], id, chapter);
    }
  }

  /** A world update that leaves the sentiment of the customers alone. */
  ghost predicate KeepsSentiment(cfg: Config) {
    cfg.world.Some? ==>
      forall st: MatchState, actions: seq<ActionSubmission>, drawn: nat ::
        var effect := cfg.world.value(st, actions, drawn);
        effect.Ok? ==>
          && SameCustomers(st.customers, effect.value.st.customers)
          && forall i | 0 <= i < |st.customers| :: effect.value.st.customers[i].sentiment == st.customers[i].sentiment
  }

  lemma WorldMood(env: Env, p: Phase, actions: seq<ActionSubmission>, i: nat)
    requires i < |p.st.customers| && KeepsSentiment(env.cfg) && LogsDemandOnly(env.cfg) && ApplyWorld(env, p, actions).Ok?
    ensures MoodFollows(p, ApplyWorld(env, p, actions).value, i)
  {
    if env.cfg.world.Some? {
      var effect := env.cfg.world.value(p.st, actions, p.drawn).value;
      SumConcat(Upset(p.st.customers[i].id), p.events, effect.events);
      DemandUpsetsNobody(effect.events, p.st.customers[i].id);
    } else {
      StillMood(p, i);
    }
  }

  lemma {:induction false} DemandUpsetsNobody(events: seq<Event>, id: CustomerID)
    requires forall e | e in events :: e.DemandRealized? || e.BacklogCreated?
    ensures Sum(Upset(id), events) == 0
  {
    if |events| > 0 {
      assert events[0] in events;
      DemandUpsetsNobody(events[1..], id);
    }
  }

  lemma EarlyMood(env: Env, p: Phase, actions: seq<ActionSubmission>, i: nat)
    requires i < |p.st.customers|
    ensures MoodFollows(p, BeforeProduction(env, p, actions), i)
  {
    hide ResolveProcurement, ReceiveSupply, ReleaseInspectionHolds, AcceptReturns, Filter, SyncCustomers, Upsets, MoodFollows, Belongs;
    var p1 := ResolveProcurement(env, p, ActionFor(actions, ProcurementManager));
    ProcurementFrame(env, p, ActionFor(actions, ProcurementManager));
    Chapters.ProcurementWrites(env, p, ActionFor(actions, ProcurementManager));
    QuietMood(p, p1, Chapter.Buying, i);
    var p2 := ReceiveSupply(env, p1);
    SupplyFrame(env, p1);
    Chapters.SupplyWrites(env, p1);
    QuietMood(p1, p2, Chapter.Supply, i);
    MoodFollowsOn(p, p1, p2, i);
    var p3 := ReleaseInspectionHolds(env, p2);
    HoldsFrame(env, p2);
    HoldsWrite(env, p2);
    QuietMood(p2, p3, Inspection, i);
    MoodFollowsOn(p, p2, p3, i);
    var items := p3.st.plant.pendingReturns;
    var open := p3.WithPlant(p3.st.plant.(pendingReturns := Filter(DueAfter(env.round), items)));
    AcceptedUpset(env, open, Filter(DueBy(env.round), items), i);
    var accepted := AcceptReturns(env, open, Filter(DueBy(env.round), items));
    MoodFrom(p3, open, accepted, i);
    var p4 := ProcessCustomerReturns(env, p3);
    SyncedMood(p3, accepted, p4, accepted.st.plant.backlog, i);
    MoodFollowsOn(p, p3, p4, i);
  }

  lemma MoodFrom(p: Phase, q: Phase, r: Phase, i: nat)
    requires i < |p.st.customers| && q.st.customers == p.st.customers && q.events == p.events && MoodFollows(q, r, i)
    ensures MoodFollows(p, r, i)
  {
  }

  lemma LateMood(env: Env, p: Phase, actions: seq<ActionSubmission>, i: nat)
    requires i < |p.st.customers|
    ensures var produced := ResolveProduction(env, p, ActionFor(actions, ProductionManager));
            MoodFollows(p, ResolveSales(env, produced, ActionFor(actions, SalesManager)), i)
  {
    hide ResolveProduction, ShipAll, SyncCustomers, Upsets, MoodFollows, EffectiveBacklog, SalesPrices, Belongs;
    var produced := ResolveProduction(env, p, ActionFor(actions, ProductionManager));
    ProductionFrame(env, p, ActionFor(actions, ProductionManager));
    Chapters.ProductionWrites(env, p, ActionFor(actions, ProductionManager));
    QuietMood(p, produced, Chapter.Producing, i);
    var sales := ActionFor(actions, SalesManager);
    var entries := env.cfg.sort(EffectiveBacklog(produced.st));
    var s := ShipAll(env, Phases.Selling(produced, [], []), SalesPrices(sales), entries);
    ShipAllFrame(env, Phases.Selling(produced, [], []), SalesPrices(sales), entries);
    AllSalesWrite(env, Phases.Selling(produced, [], []), SalesPrices(sales), entries);
    QuietMood(produced, s.p, Chapter.Selling, i);
    var q := ResolveSales(env, produced, sales);
    if |EffectiveBacklog(produced.st)| == 0 {
      StillMood(produced, i);
      SyncedMood(produced, produced, q, [], i);
    } else {
      SyncedMood(produced, s.p, q, s.remaining, i);
    }
    MoodFollowsOn(p, produced, q, i);
  }

  lemma StillMood(p: Phase, i: nat)
    requires i < |p.st.customers|
    ensures MoodFollows(p, p, i)
  {
  }

  lemma ClosingMood(env: Env, p: Phase, action: Option<ActionSubmission>, i: nat)
    requires i < |p.st.customers|
    ensures MoodFollows(p, Finalize(env, p, action), i)
  {
    hide AgeAll, SyncCustomers, EffectiveBacklog, CollectReceivablesDue, PayPayablesDue, ApplyLaborCosts, ApplyOperatingCosts;
    hide Upsets, MoodFollows, Belongs;
    var a := AgeAll(env, Phases.Aging(p, []), EffectiveBacklog(p.st));
    AllAgingUpset(env, Phases.Aging(p, []), EffectiveBacklog(p.st), i);
    var aged := AdoptTargets(env, AgeBacklog(env, p), action);
    SyncedMood(p, a.p, aged, a.aged, i);
    ClosingWrites(env, p, action);
    var collected := CollectReceivablesDue(env, aged);
    CollectFrame(env, aged);
    MoodSame(p, aged, i);
    QuietMood(aged, collected, Collecting, i);
    var paid := PayPayablesDue(env, collected);
    PayFrame(env, collected);
    QuietMood(collected, paid, Paying, i);
    FinalizeFrame(env, p, action);
    QuietMood(paid, Finalize(env, p, action), Wages, i);
    MoodFollowsOn(p, aged, collected, i);
    MoodFollowsOn(p, collected, paid, i);
    MoodFollowsOn(p, paid, Finalize(env, p, action), i);
  }

  lemma MoodSame(p: Phase, q: Phase, i: nat)
    requires i < |p.st.customers| && MoodFollows(p, q, i)
    ensures |q.st.customers| == |p.st.customers|
  {
  }

  /**
   Over a round the sentiment of a customer falls by one for every return received from it and for every entry of its
   backlog that was given up, and does not move otherwise.
   */
  lemma SentimentOfRound(cfg: Config, random: Random, drawn: nat, st: MatchState, actions: seq<ActionSubmission>,
                         r: RoundResult, i: nat)
    requires KeepsSentiment(cfg) && LogsDemandOnly(cfg) && Resolved(cfg, random, drawn, st, actions, r) && i < |st.customers|
    ensures SameCustomers(st.customers, r.next.customers)
    ensures r.next.customers[i].sentiment == st.customers[i].sentiment - Upsets(st.customers, i, r.record.events)
  {
    hide BeforeProduction, ResolveProduction, ResolveSales, ApplyWorld, Finalize, NormalizeActions, ComputeMetrics, KeepsSentiment;
    hide LogsDemandOnly, MoodFollows;
    FinalState(cfg, random, drawn, st, actions, r);
    var env, ordered := EnvOf(cfg, random, st), NormalizeActions(st, actions).value;
    var begin := Begin(st, drawn);
    EarlyMood(env, begin, ordered, i);
    var p1 := BeforeProduction(env, begin, ordered);
    MoodSame(begin, p1, i);
    LateMood(env, p1, ordered, i);
    var p2 := BeforeWorld(env, begin, ordered);
    MoodFollowsOn(begin, p1, p2, i);
    MoodSame(begin, p2, i);
    WorldMood(env, p2, ordered, i);
    var p3 := ApplyWorld(env, p2, ordered).value;
    MoodFollowsOn(begin, p2, p3, i);
    MoodSame(begin, p3, i);
    ClosingMood(env, p3, ActionFor(ordered, FinanceController), i);
    MoodFollowsOn(begin, p3, Finalize(env, p3, ActionFor(ordered, FinanceController)), i);
    MoodRead(st, drawn, Finalize(env, p3, ActionFor(ordered, FinanceController)), i);
  }

  lemma MoodRead(st: MatchState, drawn: nat, q: Phase, i: nat)
    requires i < |st.customers| && MoodFollows(Begin(st, drawn), q, i)
    ensures SameCustomers(st.customers, q.st.customers)
    ensures q.st.customers[i].sentiment == st.customers[i].sentiment - Upsets(st.customers, i, q.events)
  {
  }

  // ---------------------------------------------------------------- targets

  /**
   The targets of the finance action hold from the next round on, and its debt ceiling at once; without such an action
   targets and ceiling stay what they were.
   */
  lemma TargetsOfRound(cfg: Config, random: Random, drawn: nat, st: MatchState, actions: seq<ActionSubmission>, r: RoundResult)
    requires OrderlyWorld(cfg) && Resolved(cfg, random, drawn, st, actions, r)
    ensures forall a | a in actions && a.role.FinanceController? ::
              && a.action.finance.Some?
              && r.next.targets == a.action.finance.value.(effectiveRound := st.currentRound + 1)
              && r.next.plant.debtCeiling == a.action.finance.value.debtCeilingTarget
    ensures (forall a | a in actions :: !a.role.FinanceController?) ==>
              r.next.targets == st.targets && r.next.plant.debtCeiling == st.plant.debtCeiling
  {
    hide BeforeWorld, Finalize, NormalizeActions, ComputeMetrics, ApplyWorld, OrderlyWorld, Rank, DistinctRoles, Acceptable;
    FinalState(cfg, random, drawn, st, actions, r);
    NormalizeIsCanonical(st, actions);
    var env, ordered := EnvOf(cfg, random, st), NormalizeActions(st, actions).value;
    var begin := Begin(st, drawn);
    var p := BeforeWorld(env, begin, ordered);
    TargetsWait(env, begin, ordered);
    TargetsInWorld(env, p, ordered);
    var q := ApplyWorld(env, p, ordered).value;
    var action := ActionFor(ordered, FinanceController);
    TargetsAdopted(env, q, action);
    ActionActs(ordered, FinanceController);
    RanksAreDistinct(ordered);
    forall a | a in actions && a.role.FinanceController?
      ensures && a.action.finance.Some?
              && r.next.targets == a.action.finance.value.(effectiveRound := st.currentRound + 1)
              && r.next.plant.debtCeiling == a.action.finance.value.debtCeilingTarget
    {
      OnlyAction(ordered, FinanceController, a);
      FinancePayload(st, a);
    }
  }

  lemma RanksAreDistinct(actions: seq<ActionSubmission>)
    requires forall i, j | 0 <= i < j < |actions| :: Rank(actions[i].role) < Rank(actions[j].role)
    ensures DistinctRoles(actions)
  {
  }

  lemma FinancePayload(st: MatchState, a: ActionSubmission)
    requires Acceptable(st, a) && a.role.FinanceController?
    ensures a.action.finance.Some?
  {
  }

  lemma TargetsAdopted(env: Env, p: Phase, action: Option<ActionSubmission>)
    ensures var st := Finalize(env, p, action).st;
            if action.Some? && action.value.action.finance.Some?
            then && st.targets == action.value.action.finance.value.(effectiveRound := env.round + 1)
                 && st.plant.debtCeiling == action.value.action.finance.value.debtCeilingTarget
            else st.targets == p.st.targets && st.plant.debtCeiling == p.st.plant.debtCeiling
  {
    hide AgeBacklog, CollectReceivablesDue, PayPayablesDue, Sum, HoldingCost, CarryingCost, ProjectCashDelta;
    AgingFrame(env, p);
    var aged := AdoptTargets(env, AgeBacklog(env, p), action);
    CollectFrame(env, aged);
    PayFrame(env, CollectReceivablesDue(env, aged));
  }

  lemma TargetsInWorld(env: Env, p: Phase, actions: seq<ActionSubmission>)
    requires OrderlyWorld(env.cfg) && ApplyWorld(env, p, actions).Ok?
    ensures var q := ApplyWorld(env, p, actions).value;
            q.st.targets == p.st.targets && q.st.plant.debtCeiling == p.st.plant.debtCeiling
  {
    if env.cfg.world.Some? {
      assert OrderlyEffect(p.st, env.cfg.world.value(p.st, actions, p.drawn).value);
    }
  }

  lemma TargetsWait(env: Env, p: Phase, actions: seq<ActionSubmission>)
    ensures var q := BeforeWorld(env, p, actions);
            q.st.targets == p.st.targets && q.st.plant.debtCeiling == p.st.plant.debtCeiling
  {
    hide ResolveProcurement, ReceiveSupply, ReleaseInspectionHolds, ProcessCustomerReturns, ResolveProduction, ResolveSales;
    var p1 := ResolveProcurement(env, p, ActionFor(actions, ProcurementManager));
    ProcurementFrame(env, p, ActionFor(actions, ProcurementManager));
    var p2 := ReceiveSupply(env, p1);
    SupplyFrame(env, p1);
    var p3 := ReleaseInspectionHolds(env, p2);
    HoldsFrame(env, p2);
    var p4 := ProcessCustomerReturns(env, p3);
    ReturnsFrame(env, p3);
    var p5 := ResolveProduction(env, p4, ActionFor(actions, ProductionManager));
    ProductionFrame(env, p4, ActionFor(actions, ProductionManager));
    SalesFrame(env, p5, ActionFor(actions, SalesManager));
  }

  // ---------------------------------------------------------------- carrying costs

  /** A tenth of an amount that is positive, rounded up. */
  predicate TenthUp(cost: int, amount: int) {
    if amount <= 0 then cost == 0 else 10 * (cost - 1) < amount <= 10 * cost
  }

  function AtCost<K>(): Stock<K> -> int { (s: Stock<K>) => s.qty * s.cost }

  /** What stock cost, line by line. */
  function Worth<K>(items: seq<Stock<K>>): int { Sum(AtCost(), items) }

  lemma {:induction false} WorthIsValue<K>(items: seq<Stock<K>>)
    ensures Value(items) == Worth(items)
  {
    if |items| > 0 {
      WorthIsValue(items[1..]);
    }
  }

  /** What stock costs to hold: by the hook, class by class, or a tenth of its worth where there is no hook. */
  predicate HoldingFollows(cfg: Config, round: int, st: MatchState, cost: int) {
    var parts, wip, finished := Worth(st.plant.parts), Worth(st.plant.wip), Worth(st.plant.finished);
    match cfg.inventoryCost
    case None => TenthUp(cost, parts + wip + finished)
    case Some(hook) =>
      cost == hook(st, round, PartsClass, parts) + hook(st, round, WipClass, wip) + hook(st, round, FinishedClass, finished)
  }

  /** The carrying costs of a round were charged in state `st`, which the charge changes in nothing but cash and debt. */
  predicate ChargedIn(cfg: Config, round: int, st: MatchState, plant: Plant, m: Metrics) {
    && plant == st.plant.(cash := plant.cash, debt := plant.debt)
    && HoldingFollows(cfg, round, st, m.holdingCost)
    && TenthUp(m.debtServiceCost, st.plant.debt)
    && Position(plant.cash, plant.debt)
         == ProjectCashDelta(st.plant.cash, st.plant.debt, -Max(m.holdingCost + m.debtServiceCost, 0))
  }

  lemma CarryingIsTenth(amount: int)
    ensures TenthUp(CarryingCost(amount), amount)
  {
  }

  lemma NothingCharged(cash: int, debt: int)
    ensures ProjectCashDelta(cash, debt, 0) == Position(cash, debt)
  {
  }

  lemma HoldingIsHooks(env: Env, st: MatchState)
    ensures HoldingFollows(env.cfg, env.round, st, HoldingCost(env, st))
  {
    hide Value, Worth, CarryingCost, TenthUp;
    WorthIsValue(st.plant.parts);
    WorthIsValue(st.plant.wip);
    WorthIsValue(st.plant.finished);
    CarryingIsTenth(Value(st.plant.parts) + Value(st.plant.wip) + Value(st.plant.finished));
  }

  lemma OperatingCharge(env: Env, p: Phase)
    ensures var q := ApplyOperatingCosts(env, p);
            && q.st.plant == p.st.plant.(cash := q.st.plant.cash, debt := q.st.plant.debt)
            && q.stats.holdingCost == HoldingCost(env, p.st) && q.stats.debtServiceCost == CarryingCost(p.st.plant.debt)
            && Position(q.st.plant.cash, q.st.plant.debt)
                 == ProjectCashDelta(p.st.plant.cash, p.st.plant.debt, -Max(q.stats.holdingCost + q.stats.debtServiceCost, 0))
  {
    hide HoldingCost, CarryingCost, ProjectCashDelta;
    NothingCharged(p.st.plant.cash, p.st.plant.debt);
  }

  /**
   Every round charges a tenth, rounded up, of the debt it ends with before that charge, and for the stock it ends with,
   without the goods on hold, what the hook says for parts, work and finished goods, or a tenth where there is no hook.
   */
  lemma CarryingCostsOfRound(cfg: Config, random: Random, drawn: nat, st: MatchState, actions: seq<ActionSubmission>, r: RoundResult)
    requires Resolved(cfg, random, drawn, st, actions, r)
    ensures r.record.metrics.Some?
    ensures exists at: MatchState :: ChargedIn(cfg, st.currentRound, at, r.next.plant, r.record.metrics.value)
  {
    hide Resolve, BeforeWorld, ApplyWorld, Begin, AgeBacklog, AdoptTargets, CollectReceivablesDue, PayPayablesDue, ApplyLaborCosts,
         ApplyOperatingCosts, NormalizeActions, Value, Sum, Units, ProjectCashDelta, HoldingCost, CarryingCost, HoldingFollows,
         TenthUp, AverageReliability, Resolved;
    FinalState(cfg, random, drawn, st, actions, r);
    var env, ordered := EnvOf(cfg, random, st), NormalizeActions(st, actions).value;
    var p := ApplyWorld(env, BeforeWorld(env, Begin(st, drawn), ordered), ordered).value;
    var aged := AdoptTargets(env, AgeBacklog(env, p), ActionFor(ordered, FinanceController));
    var paid := ApplyLaborCosts(env, PayPayablesDue(env, CollectReceivablesDue(env, aged)));
    OperatingCharge(env, paid);
    HoldingIsHooks(env, paid.st);
    CarryingIsTenth(paid.st.plant.debt);
    assert ChargedIn(cfg, st.currentRound, paid.st, r.next.plant, r.record.metrics.value);
  }

  // ---------------------------------------------------------------- what the record reports

  /** Shipped units out of all units that were asked for, in whole percent; everything, if nothing was asked for. */
  predicate OnTimeShare(rate: int, shipped: int, open: int, lost: int) {
    var asked := shipped + open + lost;
    if asked <= 0 then rate == 100 else rate * asked <= shipped * 100 < (rate + 1) * asked
  }

  function ShippedUnits(): Event -> int { (e: Event) => if e.Shipped? then e.qty else 0 }

  function Points(): Supplier -> int { (s: Supplier) => s.score }

  function LostCapacity(): Workstation -> int { (w: Workstation) => w.stressLoss }

  function HeldUnits(): InspectionHold -> int { (h: InspectionHold) => h.qty }

  function HeldWorth(): InspectionHold -> int { (h: InspectionHold) => h.qty * h.cost }

  function OpenUnitsOf(): BacklogEntry -> int { (e: BacklogEntry) => e.qty }

  function Pieces<K>(): Stock<K> -> int { (s: Stock<K>) => s.qty }

  lemma {:induction false} SamePieces<K>(items: seq<Stock<K>>)
    ensures Units(AnyKey(), items) == Sum(Pieces(), items)
  {
    if |items| > 0 {
      SamePieces(items[1..]);
    }
  }

  lemma {:induction false} SameHeld(holds: seq<InspectionHold>)
    ensures Sum(HoldQty(), holds) == Sum(HeldUnits(), holds) && Sum(HoldValue(), holds) == Sum(HeldWorth(), holds)
  {
    if |holds| > 0 {
      SameHeld(holds[1..]);
    }
  }

  lemma {:induction false} SameOpen(backlog: seq<BacklogEntry>)
    ensures Sum(EntryQty(), backlog) == Sum(OpenUnitsOf(), backlog)
  {
    if |backlog| > 0 {
      SameOpen(backlog[1..]);
    }
  }

  /** The stock figures of a record are totals over the lines of the state the round ends in. */
  lemma RecordCounts(cfg: Config, random: Random, drawn: nat, st: MatchState, actions: seq<ActionSubmission>, r: RoundResult)
    requires Resolved(cfg, random, drawn, st, actions, r)
    ensures r.record.metrics.Some?
    ensures var m, plant := r.record.metrics.value, r.next.plant;
            && m.inventoryValue == Worth(plant.parts) + Worth(plant.wip) + Worth(plant.finished) + Sum(HeldWorth(), plant.holds)
            && m.partsOnHandUnits == Sum(Pieces(), plant.parts) && m.finishedGoodsUnits == Sum(Pieces(), plant.finished)
            && m.inspectionHoldUnits == Sum(HeldUnits(), plant.holds) && m.backlogUnits == Sum(OpenUnitsOf(), plant.backlog)
            && m.endingCash == plant.cash
  {
    hide Resolve, Sum, Units, Value, Worth, AverageReliability;
    MetricsMatchState(cfg, random, drawn, st, actions, r);
    var plant := r.next.plant;
    WorthIsValue(plant.parts);
    WorthIsValue(plant.wip);
    WorthIsValue(plant.finished);
    SamePieces(plant.parts);
    SamePieces(plant.finished);
    SameHeld(plant.holds);
    SameOpen(plant.backlog);
  }

  lemma {:induction false} ShippedMovements(events: seq<Event>)
    ensures Sum(Moved(ShippedTotal), events) == Sum(ShippedUnits(), events)
  {
    if |events| > 0 {
      ShippedMovements(events[1..]);
    }
  }

  lemma RateIsShare(shipped: int, open: int, lost: int)
    requires shipped >= 0 && open >= 0 && lost >= 0
    ensures OnTimeShare(OnTimeRate(shipped, open, lost), shipped, open, lost)
  {
    var asked := shipped + open + lost;
    if asked > 0 {
      var rate := OnTimeRate(shipped, open, lost);
      QuotBound(shipped * 100, asked, rate);
      QuotBound(shipped * 100, asked, rate + 1);
    }
  }

  lemma {:induction false} SameMeasures(suppliers: seq<Supplier>, stations: seq<Workstation>)
    ensures Sum(SupplierScore(), suppliers) == Sum(Points(), suppliers)
    ensures Sum(StationLoss(), stations) == Sum(LostCapacity(), stations)
    decreases |suppliers| + |stations|
  {
    if |suppliers| > 0 {
      SameMeasures(suppliers[1..], stations);
    } else if |stations| > 0 {
      SameMeasures(suppliers, stations[1..]);
    }
  }

  lemma MeanScore(suppliers: seq<Supplier>)
    requires |suppliers| > 0 && Sum(SupplierScore(), suppliers) >= 0
    ensures var mean := AverageReliability(suppliers);
            mean * |suppliers| <= Sum(SupplierScore(), suppliers) < (mean + 1) * |suppliers|
  {
    hide Sum;
    var total, mean := Sum(SupplierScore(), suppliers), AverageReliability(suppliers);
    QuotBound(total, |suppliers|, mean);
    QuotBound(total, |suppliers|, mean + 1);
  }

  lemma ReportedByStats(env: Env, p: Phase)
    ensures var m := ComputeMetrics(env, p);
            && m.operatingExpense == m.procurementSpend + m.productionSpend + m.payrollExpense + m.holdingCost + m.debtServiceCost
            && m.roundProfit == m.throughputRevenue - m.operatingExpense
            && m.backlogUnits == Sum(EntryQty(), p.st.plant.backlog)
            && m.onTimeShipmentRate == OnTimeRate(p.stats.shippedUnits, m.backlogUnits, m.lostSalesUnits)
            && m.capacityLossUnits == Sum(StationLoss(), p.st.plant.stations)
            && m.supplierReliability == AverageReliability(p.st.suppliers)
  {
    hide Sum, OnTimeRate, AverageReliability, Value, Units;
  }

  /**
   The derived figures of a record: expense and profit add up, the on-time rate is the share of what was asked for that
   was shipped, lost capacity is that of the workstations, and reliability is the mean score of the suppliers.
   */
  lemma RecordReports(cfg: Config, random: Random, drawn: nat, st: MatchState, actions: seq<ActionSubmission>, r: RoundResult)
    requires ValidState(st) && SoundHooks(cfg) && Resolved(cfg, random, drawn, st, actions, r)
    ensures r.record.metrics.Some?
    ensures var m, suppliers := r.record.metrics.value, r.next.suppliers;
            && m.operatingExpense == m.procurementSpend + m.productionSpend + m.payrollExpense + m.holdingCost + m.debtServiceCost
            && m.roundProfit == m.throughputRevenue - m.operatingExpense
            && OnTimeShare(m.onTimeShipmentRate, Sum(ShippedUnits(), r.record.events), m.backlogUnits, m.lostSalesUnits)
            && m.capacityLossUnits == Sum(LostCapacity(), r.next.plant.stations)
            && (|suppliers| == 0 ==> m.supplierReliability == 0)
            && (|suppliers| > 0 && Sum(Points(), suppliers) >= 0 ==>
                  m.supplierReliability * |suppliers| <= Sum(Points(), suppliers) < (m.supplierReliability + 1) * |suppliers|)
  {
    hide ValidState, SoundHooks, Resolve, Moved, Begin, EnvOf, Settlers, NormalizeActions, Bought, ComputeMetrics, OnTimeRate;
    hide OnTimeShare, Sum, LedgerPhases.Arrivals, Played;
    var q := RoundAccount(cfg, random, drawn, st, actions, r, ShippedTotal);
    OpeningBooks(st, drawn, ShippedTotal);
    var q1 := RoundAccount(cfg, random, drawn, st, actions, r, Negatives);
    OpeningBooks(st, drawn, Negatives);
    MetricsMatchLog(cfg, random, drawn, st, actions, r, LostTotal);
    QuantitiesNotNegative(r.record.events);
    BacklogPositive(r.next);
    ReportedByStats(EnvOf(cfg, random, st), q);
    ShippedMovements(r.record.events);
    RateIsShare(q.stats.shippedUnits, Sum(EntryQty(), q.st.plant.backlog), r.record.metrics.value.lostSalesUnits);
    MetricsMatchState(cfg, random, drawn, st, actions, r);
    SameMeasures(r.next.suppliers, r.next.plant.stations);
    if |r.next.suppliers| > 0 && Sum(Points(), r.next.suppliers) >= 0 {
      MeanScore(r.next.suppliers);
    } else {
      NoSuppliers(r.next.suppliers);
    }
  }

  lemma NoSuppliers(suppliers: seq<Supplier>)
    ensures |suppliers| == 0 ==> AverageReliability(suppliers) == 0
  {
  }

  /** The record names the round, the accepted actions in their canonical order, and the commentary made on them. */
  lemma RecordNames(cfg: Config, random: Random, drawn: nat, st: MatchState, actions: seq<ActionSubmission>, r: RoundResult)
    requires Resolved(cfg, random, drawn, st, actions, r)
    ensures r.record.round == st.currentRound && st.matchID != 0 && st.currentRound > 0
    ensures NormalizeActions(st, actions) == Ok(r.record.actions)
    ensures r.record.commentary == cfg.commentary(st, r.record.actions)
    ensures forall a :: a in r.record.actions <==> a in actions
  {
    hide Played, NormalizeActions, ComputeMetrics, Rank;
    NormalizeIsCanonical(st, actions);
  }

  // ---------------------------------------------------------------- refusal

  /** An action the engine accepts: for this match and round, from a role of the match, with its own legal payload alone. */
  ghost predicate Legal(st: MatchState, a: ActionSubmission) {
    && a.matchID == st.matchID && a.round == st.currentRound
    && (st.roles == [] || exists r :: r in st.roles && r.role == a.role)
    && (a.action.procurement.Some? <==> a.role == ProcurementManager)
    && (a.action.production.Some? <==> a.role == ProductionManager)
    && (a.action.sales.Some? <==> a.role == SalesManager)
    && (a.action.finance.Some? <==> a.role == FinanceController)
    && !a.role.OtherRole?
    && LegalAmounts(st, a.action)
  }

  /** No negative quantity, capacity, price or target, and work only for workstations of the plant. */
  ghost predicate LegalAmounts(st: MatchState, a: RoleAction) {
    && (a.procurement.Some? ==> forall o | o in a.procurement.value :: o.quantity >= 0)
    && (a.production.Some? ==>
          && (forall r | r in a.production.value.releases :: r.quantity >= 0)
          && (forall c | c in a.production.value.allocations :: c.capacity >= 0 && exists w :: w in st.plant.stations && w.id == c.station)
          && (forall o | o in a.production.value.overtime :: o.capacity >= 0 && exists w :: w in st.plant.stations && w.id == o.station))
    && (a.sales.Some? ==> forall o | o in a.sales.value :: o.unitPrice >= 0)
    && (a.finance.Some? ==>
          var t := a.finance.value;
          t.procurementBudget >= 0 && t.productionSpendBudget >= 0 && t.revenueTarget >= 0
          && t.cashFloorTarget >= 0 && t.debtCeilingTarget >= 0)
  }

  lemma LegalIsAcceptable(st: MatchState, a: ActionSubmission)
    ensures Legal(st, a) <==> Acceptable(st, a)
  {
  }

  /**
   Where the world update never fails, a round is refused if and only if the state names no match or no round, some action
   is not legal, or a role acts twice.
   */
  lemma RefusedExactlyWhen(cfg: Config, random: Random, drawn: nat, st: MatchState, actions: seq<ActionSubmission>)
    requires cfg.world.Some? ==> forall s: MatchState, done: seq<ActionSubmission>, n: nat :: cfg.world.value(s, done, n).Ok?
    ensures Resolve(cfg, random, drawn, st, actions).Ok? <==>
            && st.matchID != 0 && st.currentRound > 0
            && (forall a | a in actions :: Legal(st, a))
            && (forall i, j | 0 <= i < j < |actions| :: actions[i].role != actions[j].role)
  {
    hide BeforeWorld, Finalize, Legal, Acceptable, NormalizeActions, Close, Rank;
    NormalizeIsCanonical(st, actions);
    forall a | a in actions ensures Legal(st, a) <==> Acceptable(st, a) {
      LegalIsAcceptable(st, a);
    }
  }
}
