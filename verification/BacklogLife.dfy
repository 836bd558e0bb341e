/** How long demand can wait. Every entry is shipped or written off within the configured number of rounds. */
module BacklogLife {
  import opened Seqs
  import opened Domain
  import opened Inventory
  import opened Quality
  import opened Phases
  import opened Actions
  import opened Resolver
  import opened Ledger
  import opened LedgerPhases
  import opened LedgerClosing
  import opened Frames
  import opened Accounting
  import opened Settlement

  /** An entry opened since `start` has aged by one for every round since its origin. */
  ghost predicate TrueAge(e: BacklogEntry, round: int, start: int) {
    e.origin <= round && e.age >= 0 && (e.origin >= start ==> e.age == round - e.origin)
  }

  ghost predicate TrueAges(entries: seq<BacklogEntry>, round: int, start: int) {
    forall e | e in entries :: TrueAge(e, round, start)
  }

  lemma {:induction false} ReturnsAge(env: Env, p: Phase, items: seq<CustomerReturn>, start: int)
    requires TrueAges(p.st.plant.backlog, env.round, start)
    ensures TrueAges(AcceptReturns(env, p, items).st.plant.backlog, env.round, start)
    decreases |items|
  {
    hide AddHold, Disappoint;
    if |items| > 0 {
      ReturnsAge(env, AcceptReturn(env, p, items[0]), items[1..], start);
    }
  }

  lemma ShipEntryAges(env: Env, s: Selling, prices: map<ProductID, int>, entry: BacklogEntry, start: int)
    requires TrueAges(s.remaining, env.round, start) && TrueAge(entry, env.round, start)
    ensures TrueAges(ShipEntry(env, s, prices, entry).remaining, env.round, start)
  {
    hide Ship, ScheduleReturns, ScheduleReceivable, QtyOf, CostOf, PaymentDelay, Price;
  }

  lemma {:induction false} ShipAllAges(env: Env, s: Selling, prices: map<ProductID, int>, entries: seq<BacklogEntry>, start: int)
    requires TrueAges(s.remaining, env.round, start) && TrueAges(entries, env.round, start)
    ensures TrueAges(ShipAll(env, s, prices, entries).remaining, env.round, start)
    decreases |entries|
  {
    hide ShipEntry, TrueAge;
    if |entries| > 0 {
      ShipEntryAges(env, s, prices, entries[0], start);
      ShipAllAges(env, ShipEntry(env, s, prices, entries[0]), prices, entries[1..], start);
    }
  }

  lemma AgeEntryAges(env: Env, a: Aging, entry: BacklogEntry, start: int)
    requires TrueAges(a.aged, env.round + 1, start) && forall e | e in a.aged :: e.age <= env.cfg.backlogExpiry
    requires TrueAge(entry, env.round, start)
    ensures var b := AgeEntry(env, a, entry);
            TrueAges(b.aged, env.round + 1, start) && forall e | e in b.aged :: e.age <= env.cfg.backlogExpiry
  {
    hide Disappoint;
  }

  lemma {:induction false} AgeAllAges(env: Env, a: Aging, entries: seq<BacklogEntry>, start: int)
    requires TrueAges(a.aged, env.round + 1, start) && forall e | e in a.aged :: e.age <= env.cfg.backlogExpiry
    requires TrueAges(entries, env.round, start)
    ensures var b := AgeAll(env, a, entries);
            TrueAges(b.aged, env.round + 1, start) && forall e | e in b.aged :: e.age <= env.cfg.backlogExpiry
    decreases |entries|
  {
    hide AgeEntry, TrueAge;
    if |entries| > 0 {
      AgeEntryAges(env, a, entries[0], start);
      AgeAllAges(env, AgeEntry(env, a, entries[0]), entries[1..], start);
    }
  }

  lemma BeforeWorldAges(env: Env, p: Phase, actions: seq<ActionSubmission>, start: int)
    requires ValidState(p.st) && PermutingSort(env.cfg) && TrueAges(p.st.plant.backlog, env.round, start)
    ensures TrueAges(BeforeWorld(env, p, actions).st.plant.backlog, env.round, start)
  {
    hide ResolveProcurement, ReceiveSupply, ReleaseInspectionHolds, AcceptReturns, ResolveProduction, Filter, ShipAll;
    hide SyncCustomers, Coherent, TrueAge, TidyPlant;
    var action := ActionFor(actions, ProcurementManager);
    var p1 := ResolveProcurement(env, p, action);
    ProcurementFrame(env, p, action);
    var p2 := ReceiveSupply(env, p1);
    SupplyFrame(env, p1);
    var p3 := ReleaseInspectionHolds(env, p2);
    HoldsFrame(env, p2);
    var items := p3.st.plant.pendingReturns;
    ReturnsAge(env, p3.WithPlant(p3.st.plant.(pendingReturns := Filter(DueAfter(env.round), items))),
               Filter(DueBy(env.round), items), start);
    var p4 := ProcessCustomerReturns(env, p3);
    CoherenceFrame(p.st, p3.st);
    ReturnsCoherent(env, p3);
    var production := ActionFor(actions, ProductionManager);
    var p5 := ResolveProduction(env, p4, production);
    ProductionFrame(env, p4, production);
    CoherenceFrame(p4.st, p5.st);
    FallbackAgrees(p5.st);
    var backlog := p5.st.plant.backlog;
    assert multiset(env.cfg.sort(backlog)) == multiset(backlog);
    assert forall e | e in env.cfg.sort(backlog) :: e in multiset(env.cfg.sort(backlog));
    ShipAllAges(env, Selling(p5, [], []), SalesPrices(ActionFor(actions, SalesManager)), env.cfg.sort(backlog), start);
  }

  lemma WorldAges(env: Env, p: Phase, actions: seq<ActionSubmission>, start: int)
    requires OrderlyWorld(env.cfg) && ApplyWorld(env, p, actions).Ok? && p.st.currentRound == env.round
    requires TrueAges(p.st.plant.backlog, env.round, start)
    ensures TrueAges(ApplyWorld(env, p, actions).value.st.plant.backlog, env.round, start)
  {
    if env.cfg.world.Some? {
      var effect := env.cfg.world.value(p.st, actions, p.drawn).value;
      assert OrderlyEffect(p.st, effect);
      assert effect.st.plant.backlog == p.st.plant.backlog + NewEntries(p.st, effect);
    }
  }

  /** Ages are true in every state of a match begun at `start`, and no entry is older than the limit. */
  ghost predicate WithinLife(cfg: Config, st: MatchState, start: int) {
    TrueAges(st.plant.backlog, st.currentRound, start) && forall e | e in st.plant.backlog :: e.age <= cfg.backlogExpiry
  }

  lemma RoundKeepsLife(cfg: Config, random: Random, drawn: nat, st: MatchState, actions: seq<ActionSubmission>,
                       r: RoundResult, start: int)
    requires ValidConfig(cfg) && ValidState(st) && SoundHooks(cfg) && Resolved(cfg, random, drawn, st, actions, r)
    requires TrueAges(st.plant.backlog, st.currentRound, start)
    ensures WithinLife(cfg, r.next, start)
  {
    hide BeforeWorld, ApplyWorld, NormalizeActions, ComputeMetrics, OrderlyWorld, PermutingSort, Coherent, TrueAge, TidyPlant;
    hide CollectReceivablesDue, PayPayablesDue, ApplyLaborCosts, ApplyOperatingCosts, SyncCustomers, AgeAll, ResetCapacity;
    var env, ordered := EnvOf(cfg, random, st), NormalizeActions(st, actions).value;
    var begin := Begin(st, drawn);
    OpenedValid(st);
    BeforeWorldAges(env, begin, ordered, start);
    BeforeWorldMatures(env, begin, ordered);
    var p1 := BeforeWorld(env, begin, ordered);
    WorldAges(env, p1, ordered, start);
    WorldMatures(env, p1, ordered);
    var p2 := ApplyWorld(env, p1, ordered).value;
    BeginIsBalanced(st, drawn, CashFlow);
    BeforeWorldBalances(env, begin, ordered, CashFlow, Balance(begin, CashFlow));
    WorldBalances(env, p1, ordered, CashFlow, Balance(begin, CashFlow));
    FallbackAgrees(p2.st);
    AgeAllAges(env, Aging(p2, []), p2.st.plant.backlog, start);
    FinalizeFrame(env, p2, ActionFor(ordered, FinanceController));
  }

  lemma OpenedValid(st: MatchState)
    requires ValidState(st)
    ensures ValidState(Opened(st))
  {
    hide Tidy;
  }

  /**
   Over any run begun at round `start`: no entry is older than the limit, and an entry opened in round r is
   shipped or written off by the end of round r plus the limit.
   */
  lemma {:induction false} BoundedLifeOverRun(cfg: Config, random: Random, drawn: nat, st: MatchState,
                                              inputs: seq<seq<ActionSubmission>>, start: int)
    requires ValidConfig(cfg) && ValidState(st) && SoundHooks(cfg) && WithinLife(cfg, st, start)
    ensures var run := Play(cfg, random, drawn, st, inputs);
            && WithinLife(cfg, run.st, start)
            && forall e | e in run.st.plant.backlog && e.origin >= start ::
                 run.st.currentRound <= e.origin + cfg.backlogExpiry
    decreases |inputs|
  {
    hide Resolve, ValidState, SoundHooks, ValidConfig;
    if |inputs| > 0 && Resolve(cfg, random, drawn, st, inputs[0]).Ok? {
      var r := Resolve(cfg, random, drawn, st, inputs[0]).value;
      RoundKeepsLife(cfg, random, drawn, st, inputs[0], r, start);
      ProfitExplainsNetWorth(cfg, random, drawn, st, inputs[0], r);
      BoundedLifeOverRun(cfg, random, r.drawn, r.next, inputs[1..], start);
    }
  }

  // ---------------------------------------------------------------- on-time rate

  lemma {:induction false} QuantitiesNotNegative(events: seq<Event>)
    ensures Sum(Moved(Negatives), events) >= 0
    ensures Sum(Moved(Negatives), events) == 0 ==>
            Sum(Moved(ShippedTotal), events) >= 0 && Sum(Moved(LostTotal), events) >= 0
  {
    if |events| > 0 {
      QuantitiesNotNegative(events[1..]);
    }
  }

  lemma RateInRange(shipped: int, backlog: int, lost: int)
    requires shipped >= 0 && backlog >= 0 && lost >= 0
    ensures 0 <= OnTimeRate(shipped, backlog, lost) <= 100
  {
    var total := shipped + backlog + lost;
    if total > 0 {
      QuotBound(shipped * 100, total, 0);
      QuotBound(shipped * 100, total, 101);
      assert total * 101 == shipped * 101 + (backlog + lost) * 101;
    }
  }

  /** The on-time rate a round reports is a percentage. */
  lemma OnTimeRateInRange(cfg: Config, random: Random, drawn: nat, st: MatchState, actions: seq<ActionSubmission>, r: RoundResult)
    requires ValidState(st) && SoundHooks(cfg) && Resolved(cfg, random, drawn, st, actions, r)
    ensures r.record.metrics.Some? && 0 <= r.record.metrics.value.onTimeShipmentRate <= 100
  {
    hide ValidState, SoundHooks, Resolve, Moved, Begin, EnvOf, Settlers, NormalizeActions, Arrivals, Bought, ComputeMetrics, OnTimeRate;
    var q := RoundAccount(cfg, random, drawn, st, actions, r, ShippedTotal);
    OpeningBooks(st, drawn, ShippedTotal);
    var q1 := RoundAccount(cfg, random, drawn, st, actions, r, Negatives);
    OpeningBooks(st, drawn, Negatives);
    MetricsMatchLog(cfg, random, drawn, st, actions, r, LostTotal);
    QuantitiesNotNegative(r.record.events);
    BacklogPositive(r.next);
    RateOfMetrics(EnvOf(cfg, random, st), q);
    RateInRange(q.stats.shippedUnits, Sum(EntryQty(), q.st.plant.backlog), q.stats.lostSalesUnits);
  }

  lemma RateOfMetrics(env: Env, p: Phase)
    ensures var m := ComputeMetrics(env, p);
            && m.onTimeShipmentRate == OnTimeRate(p.stats.shippedUnits, Sum(EntryQty(), p.st.plant.backlog), p.stats.lostSalesUnits)
            && m.lostSalesUnits == p.stats.lostSalesUnits
  {
  }

  lemma BacklogPositive(st: MatchState)
    requires ValidState(st)
    ensures Sum(EntryQty(), st.plant.backlog) >= 0
  {
    SumNonNegative(EntryQty(), st.plant.backlog);
  }
}
