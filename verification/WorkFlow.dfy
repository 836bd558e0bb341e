/**
 Where work in progress goes. The units of every product at every workstation, over rounds and over runs, and
 what the workstations spent their capacity on, all of it told by the event log alone.
 */
module WorkFlow {
  import opened Seqs
  import opened Domain
  import opened Inventory
  import opened Quality
  import opened Phases
  import opened Actions
  import opened Resolver
  import opened Ledger
  import opened LedgerPhases
  import opened Accounting

  function WorkIn(plant: Plant, work: WipKey): int { Units(IsKey(work), plant.wip) }

  // ---------------------------------------------------------------- what the log says of one workstation

  function ReleasedTo(work: WipKey): Event -> int {
    (e: Event) => if e.ProductionReleased? && WipKey(e.product, e.station) == work then e.qty else 0
  }

  function SentTo(work: WipKey): Event -> int {
    (e: Event) => if e.WorkAdvanced? && WipKey(e.product, e.next) == work then e.qty else 0
  }

  function SentFrom(work: WipKey): Event -> int {
    (e: Event) => if e.WorkAdvanced? && WipKey(e.product, e.station) == work then e.qty else 0
  }

  /** Units that final inspection at the workstation took out of the work in progress. */
  function FinishedAt(work: WipKey): Event -> int {
    (e: Event) =>
      if (e.Scrapped? || e.FinishedProduced?) && WipKey(e.product, e.station) == work then e.qty
      else if e.HoldPlaced? && e.origin.Some? && WipKey(e.product, e.origin.value) == work then e.qty
      else 0
  }

  lemma WorkMovement(e: Event, work: WipKey)
    ensures Movement(WorkAt(work), e) == ReleasedTo(work)(e) + SentTo(work)(e) - SentFrom(work)(e) - FinishedAt(work)(e)
  {
  }

  lemma {:induction false} WorkMovements(events: seq<Event>, work: WipKey)
    ensures Sum(Moved(WorkAt(work)), events) ==
            Sum(ReleasedTo(work), events) + Sum(SentTo(work), events)
            - Sum(SentFrom(work), events) - Sum(FinishedAt(work), events)
  {
    hide Movement;
    if |events| > 0 {
      WorkMovement(events[0], work);
      WorkMovements(events[1..], work);
    }
  }

  /**
   One round: the units of a product at a workstation change by what was released there and sent there, less what
   was sent on from there and what was scrapped, held or finished there. Units sent back for rework stay.
   */
  lemma WorkIsConserved(cfg: Config, random: Random, drawn: nat, st: MatchState, actions: seq<ActionSubmission>,
                        r: RoundResult, work: WipKey)
    requires ValidState(st) && SoundHooks(cfg) && Resolved(cfg, random, drawn, st, actions, r)
    ensures var events := r.record.events;
            WorkIn(r.next.plant, work) == WorkIn(st.plant, work)
              + Sum(ReleasedTo(work), events) + Sum(SentTo(work), events)
              - Sum(SentFrom(work), events) - Sum(FinishedAt(work), events)
    ensures ValidState(r.next)
  {
    hide ValidState, SoundHooks, Settlers, Arrivals, Bought, NormalizeActions, Resolve, ComputeMetrics, Begin, Movement;
    var k := WorkAt(work);
    var q := RoundAccount(cfg, random, drawn, st, actions, r, k);
    OpeningBooks(st, drawn, k);
    WorkMovements(r.record.events, work);
  }

  function RunTotal(measure: Event -> int): RoundResult -> int { (r: RoundResult) => Sum(measure, r.record.events) }

  /** The same over any run: no unit changes its workstation, or leaves the last one, without a logged step. */
  lemma {:induction false} WorkOverRun(cfg: Config, random: Random, drawn: nat, st: MatchState,
                                       inputs: seq<seq<ActionSubmission>>, work: WipKey)
    requires ValidState(st) && SoundHooks(cfg)
    ensures var run := Play(cfg, random, drawn, st, inputs);
            WorkIn(run.st.plant, work) == WorkIn(st.plant, work)
              + Sum(RunTotal(ReleasedTo(work)), run.results) + Sum(RunTotal(SentTo(work)), run.results)
              - Sum(RunTotal(SentFrom(work)), run.results) - Sum(RunTotal(FinishedAt(work)), run.results)
    decreases |inputs|
  {
    hide Resolve, ValidState, SoundHooks, WorkIn;
    if |inputs| > 0 && Resolve(cfg, random, drawn, st, inputs[0]).Ok? {
      var r := Resolve(cfg, random, drawn, st, inputs[0]).value;
      WorkIsConserved(cfg, random, drawn, st, inputs[0], r, work);
      WorkOverRun(cfg, random, r.drawn, r.next, inputs[1..], work);
      var rest := Play(cfg, random, r.drawn, r.next, inputs[1..]);
      assert ([r] + rest.results)[1..] == rest.results;
    }
  }

  // ---------------------------------------------------------------- what the workstations did

  /** Units an event says a workstation worked on: sent on, finished, sent back for rework, or left for want of a route. */
  function WorkedOn(id: WorkstationID): Event -> int {
    (e: Event) =>
      if (e.WorkAdvanced? || e.AdvanceIgnored? || e.Scrapped? || e.ReworkCreated? || e.FinishedProduced?) && e.station == id then e.qty
      else if e.HoldPlaced? && e.origin == Some(id) then e.qty
      else 0
  }

  lemma {:induction false} WorkedMovements(events: seq<Event>, id: WorkstationID)
    ensures Sum(Moved(StationWork(id)), events) == Sum(WorkedOn(id), events)
  {
    if |events| > 0 {
      WorkedMovement(events[0], id);
      hide Movement;
      WorkedMovements(events[1..], id);
    }
  }

  lemma WorkedMovement(e: Event, id: WorkstationID)
    ensures Movement(StationWork(id), e) == WorkedOn(id)(e)
  {
  }

  /** Every round: the capacity used at a workstation is the units the log says it worked on, each of them once. */
  lemma CapacityIsSpent(cfg: Config, random: Random, drawn: nat, st: MatchState, actions: seq<ActionSubmission>,
                        r: RoundResult, id: WorkstationID)
    requires ValidState(st) && SoundHooks(cfg) && Resolved(cfg, random, drawn, st, actions, r)
    ensures Sum(UsedAt(id), r.next.plant.stations) == Sum(WorkedOn(id), r.record.events)
  {
    hide ValidState, SoundHooks, Settlers, Arrivals, Bought, NormalizeActions, Resolve, ComputeMetrics, Begin, Movement;
    var k := StationWork(id);
    var q := RoundAccount(cfg, random, drawn, st, actions, r, k);
    OpeningBooks(st, drawn, k);
    WorkedMovements(r.record.events, id);
  }
}
