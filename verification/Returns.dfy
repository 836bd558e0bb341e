/** Pending returns and inspection holds over whole runs: each leaves the plant in its round, once, and is logged. */
module Returns {
  import opened Seqs
  import opened Domain
  import opened Quality
  import opened Phases
  import opened Actions
  import opened Resolver
  import opened Ledger
  import opened LedgerPhases
  import opened LedgerClosing
  import opened Frames
  import opened Accounting
  import opened Settlement

  function Receptions(record: RoundRecord, c: CustomerReturn): int { Sum(Moved(ReceivedReturn(c)), record.events) }

  function Releases(record: RoundRecord, h: InspectionHold): int { Sum(Moved(ReleasedHold(h)), record.events) }

  function Pending(plant: Plant, c: CustomerReturn): nat { multiset(plant.pendingReturns)[c] }

  lemma BoughtLeavesQuality(st: MatchState, drawn: nat, env: Env, actions: seq<ActionSubmission>)
    ensures var p := Bought(env, Begin(st, drawn), actions);
            p.st.plant.pendingReturns == st.plant.pendingReturns && p.st.plant.holds == st.plant.holds
  {
    hide ResolveProcurement, ResetCapacity;
    ProcurementFrame(env, Begin(st, drawn), ActionFor(actions, ProcurementManager));
  }

  lemma ReceptionCount(cfg: Config, random: Random, drawn: nat, st: MatchState, actions: seq<ActionSubmission>,
                       r: RoundResult, c: CustomerReturn)
    requires ValidState(st) && SoundHooks(cfg) && Resolved(cfg, random, drawn, st, actions, r)
    ensures Receptions(r.record, c) == multiset(Filter(DueBy(st.currentRound), st.plant.pendingReturns))[c]
  {
    hide Resolve, ValidState, OrderlyWorld, PermutingSort, Filter, Settlers, NormalizeActions, Movement, ComputeMetrics, Begin, Arrivals, Bought;
    var k := ReceivedReturn(c);
    var q := RoundAccount(cfg, random, drawn, st, actions, r, k);
    OpeningBooks(st, drawn, k);
    BoughtLeavesQuality(st, drawn, EnvOf(cfg, random, st), NormalizeActions(st, actions).value);
    SameCounts(Filter(DueBy(st.currentRound), st.plant.pendingReturns), c);
  }

  /** The holds a round releases are exactly those of its opening state whose release round has come. */
  lemma HoldsReleasedWhenDue(cfg: Config, random: Random, drawn: nat, st: MatchState, actions: seq<ActionSubmission>,
                             r: RoundResult, h: InspectionHold)
    requires ValidConfig(cfg) && ValidState(st) && OnSchedule(st) && SoundHooks(cfg) && Resolved(cfg, random, drawn, st, actions, r)
    ensures Releases(r.record, h) == if h.release == st.currentRound then multiset(st.plant.holds)[h] else 0
    ensures forall g | g in r.next.plant.holds :: g.release > st.currentRound
  {
    hide Resolve, ValidState, OrderlyWorld, PermutingSort, Filter, Settlers, NormalizeActions, Movement, ComputeMetrics, Begin, Arrivals, Bought;
    var k := ReleasedHold(h);
    var q := RoundAccount(cfg, random, drawn, st, actions, r, k);
    OpeningBooks(st, drawn, k);
    BoughtLeavesQuality(st, drawn, EnvOf(cfg, random, st), NormalizeActions(st, actions).value);
    SameCounts(Filter(ReleasedBy(st.currentRound), st.plant.holds), h);
    FilterCount(ReleasedBy(st.currentRound), st.plant.holds, h);
    assert multiset(st.plant.holds)[h] > 0 ==> h in st.plant.holds;
    RoundRolls(cfg, random, drawn, st, actions, r);
  }

  lemma KeptReturns(a: seq<CustomerReturn>, b: seq<CustomerReturn>, round: int, c: CustomerReturn)
    requires GrownReturns(Filter(DueAfter(round), a), b, round) && c.created < round
    ensures multiset(b)[c] == if c.due > round then multiset(a)[c] else 0
  {
    hide Filter;
    var kept := Filter(DueAfter(round), a);
    FilterCount(DueAfter(round), a, c);
    assert b == kept + b[|kept|..];
    assert c !in b[|kept|..];
  }

  /** A return from an earlier round is received in its due round, as often as it is pending, and in no other. */
  lemma ReceivedWhenDue(cfg: Config, random: Random, drawn: nat, st: MatchState, actions: seq<ActionSubmission>,
                        r: RoundResult, c: CustomerReturn)
    requires ValidConfig(cfg) && ValidState(st) && OnSchedule(st) && SoundHooks(cfg)
    requires Resolved(cfg, random, drawn, st, actions, r) && c.created < st.currentRound
    ensures Pending(r.next.plant, c) == if c.due > st.currentRound then Pending(st.plant, c) else 0
    ensures Receptions(r.record, c) == if c.due == st.currentRound then Pending(st.plant, c) else 0
    ensures ValidState(r.next) && OnSchedule(r.next) && r.next.currentRound == st.currentRound + 1
  {
    hide Resolved, ValidState, OrderlyWorld, PermutingSort, Filter, Settlers, NormalizeActions, Movement;
    RoundRolls(cfg, random, drawn, st, actions, r);
    KeptReturns(st.plant.pendingReturns, r.next.plant.pendingReturns, st.currentRound, c);
    ReceptionCount(cfg, random, drawn, st, actions, r, c);
    FilterCount(DueBy(st.currentRound), st.plant.pendingReturns, c);
    assert Pending(st.plant, c) > 0 ==> c in st.plant.pendingReturns;
    RoundStaysOnSchedule(cfg, random, drawn, st, actions, r);
    ProfitExplainsNetWorth(cfg, random, drawn, st, actions, r);
  }

  function RunReceptions(c: CustomerReturn): RoundResult -> int { (r: RoundResult) => Receptions(r.record, c) }

  lemma NotPendingLate(st: MatchState, c: CustomerReturn)
    requires OnSchedule(st)
    ensures c.due < st.currentRound ==> Pending(st.plant, c) == 0
  {
    assert c !in st.plant.pendingReturns ==> Pending(st.plant, c) == 0;
  }

  /**
   Over any run: until its due round has been played a return is still pending and was never received; from then on
   it is gone and was received exactly as often as it was pending.
   */
  lemma {:induction false} ReceivedOnceOverRun(cfg: Config, random: Random, drawn: nat, st: MatchState,
                                               inputs: seq<seq<ActionSubmission>>, c: CustomerReturn)
    requires ValidConfig(cfg) && ValidState(st) && OnSchedule(st) && SoundHooks(cfg) && c.created < st.currentRound
    ensures var run := Play(cfg, random, drawn, st, inputs);
            var played := run.st.currentRound > c.due;
            && Pending(run.st.plant, c) == (if played then 0 else Pending(st.plant, c))
            && Sum(RunReceptions(c), run.results) == (if played then Pending(st.plant, c) else 0)
            && run.st.currentRound >= st.currentRound
    decreases |inputs|
  {
    hide Resolve, ValidState, SoundHooks, OnSchedule, Receptions, Pending, ValidConfig;
    NotPendingLate(st, c);
    if |inputs| > 0 && Resolve(cfg, random, drawn, st, inputs[0]).Ok? {
      var r := Resolve(cfg, random, drawn, st, inputs[0]).value;
      ReceivedWhenDue(cfg, random, drawn, st, inputs[0], r, c);
      ReceivedOnceOverRun(cfg, random, r.drawn, r.next, inputs[1..], c);
      var rest := Play(cfg, random, r.drawn, r.next, inputs[1..]);
      assert ([r] + rest.results)[1..] == rest.results;
    }
  }

  // ---------------------------------------------------------------- from the promise to the reception

  function Promised(c: CustomerReturn): Event -> int { (e: Event) => if e == ReturnScheduled(c) then 1 else 0 }

  lemma {:induction false} ReturnMovements(events: seq<Event>, c: CustomerReturn)
    ensures Sum(Moved(ReturnItem(c)), events) == Sum(Promised(c), events) - Sum(Moved(ReceivedReturn(c)), events)
  {
    if |events| > 0 {
      ReturnMovement(events[0], c);
      hide Movement;
      ReturnMovements(events[1..], c);
    }
  }

  lemma ReturnMovement(e: Event, c: CustomerReturn)
    ensures Movement(ReturnItem(c), e) == Promised(c)(e) - Movement(ReceivedReturn(c), e)
  {
  }

  lemma PendingBalance(cfg: Config, random: Random, drawn: nat, st: MatchState, actions: seq<ActionSubmission>,
                       r: RoundResult, c: CustomerReturn)
    requires ValidState(st) && SoundHooks(cfg) && Resolved(cfg, random, drawn, st, actions, r)
    ensures Pending(r.next.plant, c) == Pending(st.plant, c) + Sum(Promised(c), r.record.events) - Receptions(r.record, c)
  {
    hide Resolve, ValidState, SoundHooks, Settlers, NormalizeActions, Movement, ComputeMetrics, Begin, Arrivals, Bought;
    var q := RoundAccount(cfg, random, drawn, st, actions, r, ReturnItem(c));
    OpeningBooks(st, drawn, ReturnItem(c));
    ReturnMovements(r.record.events, c);
    SameCounts(st.plant.pendingReturns, c);
    SameCounts(r.next.plant.pendingReturns, c);
  }

  /** One round in the life of a return, promised already or not. */
  lemma RoundReturns(cfg: Config, random: Random, drawn: nat, st: MatchState, actions: seq<ActionSubmission>,
                     r: RoundResult, c: CustomerReturn)
    requires ValidConfig(cfg) && ValidState(st) && OnSchedule(st) && SoundHooks(cfg) && Resolved(cfg, random, drawn, st, actions, r)
    ensures Pending(r.next.plant, c) == Pending(st.plant, c) + RunPromises(c)(r) - RunReceptions(c)(r)
    ensures r.record.round != c.due ==> RunReceptions(c)(r) == 0
    ensures r.record.round == st.currentRound && ValidState(r.next) && OnSchedule(r.next)
  {
    hide Resolve, ValidState, OrderlyWorld, PermutingSort, NormalizeActions, ComputeMetrics, Filter, Receptions;
    PendingBalance(cfg, random, drawn, st, actions, r, c);
    ReceptionCount(cfg, random, drawn, st, actions, r, c);
    FilterCount(DueBy(st.currentRound), st.plant.pendingReturns, c);
    assert multiset(st.plant.pendingReturns)[c] > 0 ==> c in st.plant.pendingReturns;
    RoundStaysOnSchedule(cfg, random, drawn, st, actions, r);
    ProfitExplainsNetWorth(cfg, random, drawn, st, actions, r);
    FinalState(cfg, random, drawn, st, actions, r);
  }

  function RunPromises(c: CustomerReturn): RoundResult -> int { (r: RoundResult) => Sum(Promised(c), r.record.events) }

  /**
   Over any run, for every return whatever: it was pending at the start and promised during the run as often as it was
   received and is still pending; it is received in its due round alone, and is no longer pending after it.
   */
  lemma {:induction false} PromisedIsReceivedOnce(cfg: Config, random: Random, drawn: nat, st: MatchState,
                                                  inputs: seq<seq<ActionSubmission>>, c: CustomerReturn)
    requires ValidConfig(cfg) && ValidState(st) && OnSchedule(st) && SoundHooks(cfg)
    ensures var run := Play(cfg, random, drawn, st, inputs);
            && Pending(st.plant, c) + Sum(RunPromises(c), run.results) ==
               Sum(RunReceptions(c), run.results) + Pending(run.st.plant, c)
            && (forall r | r in run.results && r.record.round != c.due :: RunReceptions(c)(r) == 0)
            && (run.st.currentRound > c.due ==> Pending(run.st.plant, c) == 0)
    decreases |inputs|
  {
    hide Resolve, ValidState, SoundHooks, OnSchedule, Receptions, Pending, ValidConfig;
    if |inputs| > 0 && Resolve(cfg, random, drawn, st, inputs[0]).Ok? {
      var r := Resolve(cfg, random, drawn, st, inputs[0]).value;
      RoundReturns(cfg, random, drawn, st, inputs[0], r, c);
      PromisedIsReceivedOnce(cfg, random, r.drawn, r.next, inputs[1..], c);
      var rest := Play(cfg, random, r.drawn, r.next, inputs[1..]);
      assert ([r] + rest.results)[1..] == rest.results;
    } else {
      NotPendingLate(st, c);
    }
  }

  // ---------------------------------------------------------------- holds, unit by unit

  /** Units of a product that are on hold until a round, whatever holds they were merged into. */
  function UnitsHeld(plant: Plant, product: ProductID, round: int): int { Sum(DueHold(product, round), plant.holds) }

  function PlacedUntil(product: ProductID, round: int): Event -> int {
    (e: Event) => if e.HoldPlaced? && e.product == product && e.release == round then e.qty else 0
  }

  function ReleasedAt(product: ProductID, round: int): Event -> int {
    (e: Event) => if e.HoldReleased? then DueHold(product, round)(e.hold) else 0
  }

  lemma {:induction false} HoldMovements(events: seq<Event>, product: ProductID, round: int)
    ensures Sum(Moved(HoldUnitsDue(product, round)), events) ==
            Sum(PlacedUntil(product, round), events) - Sum(ReleasedAt(product, round), events)
  {
    if |events| > 0 {
      HoldMovements(events[1..], product, round);
    }
  }

  lemma {:induction false} AllZero<T>(f: T -> int, s: seq<T>)
    requires forall x | x in s :: f(x) == 0
    ensures Sum(f, s) == 0
  {
    if |s| > 0 {
      AllZero(f, s[1..]);
    }
  }

  lemma LoggedReleaseCounts(record: RoundRecord, h: InspectionHold)
    requires HoldReleased(h) in record.events
    ensures Releases(record, h) >= 1
  {
    SumNonNegative(Moved(ReleasedHold(h)), record.events);
    assert Moved(ReleasedHold(h))(HoldReleased(h)) == 1;
  }

  /** Every release a round logs is due in that very round. */
  lemma ReleasesAreDue(cfg: Config, random: Random, drawn: nat, st: MatchState, actions: seq<ActionSubmission>, r: RoundResult)
    requires ValidConfig(cfg) && ValidState(st) && OnSchedule(st) && SoundHooks(cfg) && Resolved(cfg, random, drawn, st, actions, r)
    ensures forall h | HoldReleased(h) in r.record.events :: h.release == st.currentRound
  {
    hide Resolved, ValidState, OnSchedule, SoundHooks, Releases;
    forall h | HoldReleased(h) in r.record.events ensures h.release == st.currentRound {
      HoldsReleasedWhenDue(cfg, random, drawn, st, actions, r, h);
      LoggedReleaseCounts(r.record, h);
    }
  }

  /** What stays on hold is what was on hold, plus what was placed, less what was released. */
  lemma HeldUnitsBalance(cfg: Config, random: Random, drawn: nat, st: MatchState, actions: seq<ActionSubmission>,
                         r: RoundResult, product: ProductID, round: int)
    requires ValidState(st) && SoundHooks(cfg) && Resolved(cfg, random, drawn, st, actions, r)
    ensures UnitsHeld(r.next.plant, product, round) == UnitsHeld(st.plant, product, round)
              + Sum(PlacedUntil(product, round), r.record.events) - Sum(ReleasedAt(product, round), r.record.events)
  {
    hide ValidState, SoundHooks, Settlers, Arrivals, Bought, NormalizeActions, Resolve, ComputeMetrics, Begin, Movement;
    var k := HoldUnitsDue(product, round);
    var q := RoundAccount(cfg, random, drawn, st, actions, r, k);
    OpeningBooks(st, drawn, k);
    HoldMovements(r.record.events, product, round);
  }

  /** One round: units are conserved, only units due in this very round are released, and none of them is left. */
  lemma RoundHolds(cfg: Config, random: Random, drawn: nat, st: MatchState, actions: seq<ActionSubmission>,
                   r: RoundResult, product: ProductID, round: int)
    requires ValidConfig(cfg) && ValidState(st) && OnSchedule(st) && SoundHooks(cfg) && Resolved(cfg, random, drawn, st, actions, r)
    ensures UnitsHeld(r.next.plant, product, round) == UnitsHeld(st.plant, product, round)
              + Sum(PlacedUntil(product, round), r.record.events) - Sum(ReleasedAt(product, round), r.record.events)
    ensures round != st.currentRound ==> Sum(ReleasedAt(product, round), r.record.events) == 0
    ensures round < st.currentRound ==> UnitsHeld(st.plant, product, round) == 0
    ensures r.record.round == st.currentRound && r.next.currentRound == st.currentRound + 1
    ensures ValidState(r.next) && OnSchedule(r.next)
  {
    hide Resolve, ValidState, OrderlyWorld, PermutingSort, Settlers, NormalizeActions, ComputeMetrics;
    HeldUnitsBalance(cfg, random, drawn, st, actions, r, product, round);
    ReleasesAreDue(cfg, random, drawn, st, actions, r);
    if round != st.currentRound {
      AllZero(ReleasedAt(product, round), r.record.events);
    }
    NoLateHolds(st, product, round);
    RoundRolls(cfg, random, drawn, st, actions, r);
    RoundStaysOnSchedule(cfg, random, drawn, st, actions, r);
    ProfitExplainsNetWorth(cfg, random, drawn, st, actions, r);
    FinalState(cfg, random, drawn, st, actions, r);
  }

  lemma NoLateHolds(st: MatchState, product: ProductID, round: int)
    requires OnSchedule(st)
    ensures round < st.currentRound ==> UnitsHeld(st.plant, product, round) == 0
  {
    if round < st.currentRound {
      AllZero(DueHold(product, round), st.plant.holds);
    }
  }

  function RunPlaced(product: ProductID, round: int): RoundResult -> int {
    (r: RoundResult) => Sum(PlacedUntil(product, round), r.record.events)
  }

  function RunReleased(product: ProductID, round: int): RoundResult -> int {
    (r: RoundResult) => Sum(ReleasedAt(product, round), r.record.events)
  }

  /**
   Over any run, for every product and release round: the units on hold at the start and those placed on hold during
   the run are the units released and those still on hold. Units are released in their release round and in no other,
   and once it has been played none is left, so every unit placed on hold has then been released exactly once.
   */
  lemma {:induction false} HeldUnitsReleasedOnce(cfg: Config, random: Random, drawn: nat, st: MatchState,
                                                 inputs: seq<seq<ActionSubmission>>, product: ProductID, round: int)
    requires ValidConfig(cfg) && ValidState(st) && OnSchedule(st) && SoundHooks(cfg)
    ensures var run := Play(cfg, random, drawn, st, inputs);
            && UnitsHeld(st.plant, product, round) + Sum(RunPlaced(product, round), run.results) ==
               Sum(RunReleased(product, round), run.results) + UnitsHeld(run.st.plant, product, round)
            && (forall r | r in run.results && r.record.round != round :: RunReleased(product, round)(r) == 0)
            && (run.st.currentRound > round ==> UnitsHeld(run.st.plant, product, round) == 0)
            && (run.st.currentRound <= round ==> Sum(RunReleased(product, round), run.results) == 0)
            && run.st.currentRound >= st.currentRound
    decreases |inputs|
  {
    hide Resolve, ValidState, SoundHooks, OnSchedule, UnitsHeld, ValidConfig;
    NoLateHolds(st, product, round);
    if |inputs| > 0 && Resolve(cfg, random, drawn, st, inputs[0]).Ok? {
      var r := Resolve(cfg, random, drawn, st, inputs[0]).value;
      RoundHolds(cfg, random, drawn, st, inputs[0], r, product, round);
      HeldUnitsReleasedOnce(cfg, random, r.drawn, r.next, inputs[1..], product, round);
      var rest := Play(cfg, random, r.drawn, r.next, inputs[1..]);
      assert ([r] + rest.results)[1..] == rest.results;
    }
  }
}
