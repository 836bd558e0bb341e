/** One round from state and actions to the next state, and runs of rounds. */
module Resolver {
  import opened Domain
  import opened Quality
  import opened Phases
  import opened Actions
  import opened RoundPhases

  datatype RoundResult = RoundResult(next: MatchState, record: RoundRecord, drawn: nat)

  function Reset(w: Workstation): Workstation {
    w.(capacityUsed := 0, effective := w.capacity, stressLoss := 0, laborUsed := 0, overtimeUsed := 0)
  }

  function ResetCapacity(stations: seq<Workstation>): seq<Workstation> {
    seq(|stations|, i requires 0 <= i < |stations| => Reset(stations[i]))
  }

  function Opened(st: MatchState): MatchState {
    st.(plant := st.plant.(stations := ResetCapacity(st.plant.stations)))
  }

  function Begin(st: MatchState, drawn: nat): Phase { Phase(Opened(st), NO_STATS, drawn, {}, []) }

  function BeforeProduction(env: Env, p: Phase, actions: seq<ActionSubmission>): Phase {
    var bought := ResolveProcurement(env, p, ActionFor(actions, ProcurementManager));
    ProcessCustomerReturns(env, ReleaseInspectionHolds(env, ReceiveSupply(env, bought)))
  }

  function BeforeWorld(env: Env, p: Phase, actions: seq<ActionSubmission>): Phase {
    var produced := ResolveProduction(env, BeforeProduction(env, p, actions), ActionFor(actions, ProductionManager));
    ResolveSales(env, produced, ActionFor(actions, SalesManager))
  }

  function ApplyWorld(env: Env, p: Phase, actions: seq<ActionSubmission>): Result<Phase> {
    match env.cfg.world
    case None => Ok(p)
    case Some(update) =>
      match update(p.st, actions, p.drawn)
      case Err => Err
      case Ok(effect) => Ok(p.(st := effect.st, drawn := effect.drawn, events := p.events + effect.events))
  }

  /** `appendRecentRound`. */
  function AppendRecent(history: seq<RoundRecord>, record: RoundRecord, limit: int): seq<RoundRecord> {
    Tail(history + [record], limit)
  }

  function Close(env: Env, p: Phase, actions: seq<ActionSubmission>, opening: MatchState): RoundResult {
    var metrics := ComputeMetrics(env, p);
    var record := RoundRecord(env.round, actions, p.events, env.cfg.commentary(opening, actions), Some(metrics));
    RoundResult(p.st.(metrics := Some(metrics),
                      currentRound := p.st.currentRound + 1,
                      history := AppendRecent(p.st.history, record, env.cfg.historyLimit)),
                record, p.drawn)
  }

  function EnvOf(cfg: Config, random: Random, st: MatchState): Env {
    Env(cfg, random, st.currentRound, st.plant.cash)
  }

  /** The whole round on accepted actions, up to the metrics. */
  function Played(env: Env, p: Phase, actions: seq<ActionSubmission>): Result<Phase> {
    match ApplyWorld(env, BeforeWorld(env, p, actions), actions)
    case Err => Err
    case Ok(updated) => Ok(Finalize(env, updated, ActionFor(actions, FinanceController)))
  }

  function Resolve(cfg: Config, random: Random, drawn: nat, st: MatchState, actions: seq<ActionSubmission>): Result<RoundResult> {
    if st.matchID == 0 || st.currentRound <= 0 then Err
    else
      match NormalizeActions(st, actions)
      case Err => Err
      case Ok(ordered) =>
        var env := EnvOf(cfg, random, st);
        match Played(env, Begin(st, drawn), ordered)
        case Err => Err
        case Ok(p) => Ok(Close(env, p, ordered, st))
  }

  /** `ResolveRound`, with the object that carries the round. */
  method ResolveRound(cfg: Config, random: Random, drawn: nat, st: MatchState, actions: seq<ActionSubmission>)
    returns (result: Result<RoundResult>)
    ensures result == Resolve(cfg, random, drawn, st, actions)
  {
    hide Finalize, ComputeMetrics, Phases.ResolveSales, Phases.ResolveProduction, Phases.ProcessCustomerReturns;
    hide Phases.ReleaseInspectionHolds, Phases.ReceiveSupply, Phases.ResolveProcurement, NormalizeActions;
    if st.matchID == 0 || st.currentRound <= 0 { return Err; }
    var normalized := Normalize(st, actions);
    if normalized.Err? { return Err; }
    var ordered, env := normalized.value, EnvOf(cfg, random, st);
    var phase := new RoundPhase(env, Opened(st), drawn);
    phase.ResolveProcurement(ActionFor(ordered, ProcurementManager));
    phase.ReceiveSupply();
    phase.ReleaseInspectionHolds();
    phase.ProcessCustomerReturns();
    phase.ResolveProduction(ActionFor(ordered, ProductionManager));
    phase.ResolveSales(ActionFor(ordered, SalesManager));
    assert phase.View() == BeforeWorld(env, Begin(st, drawn), ordered);
    if cfg.world.Some? {
      var update := cfg.world.value;
      var effect := update(phase.state, ordered, phase.drawn);
      if effect.Err? { return Err; }
      phase.state, phase.drawn := effect.value.st, effect.value.drawn;
      phase.events := phase.events + effect.value.events;
    }
    assert Ok(phase.View()) == ApplyWorld(env, BeforeWorld(env, Begin(st, drawn), ordered), ordered);
    var metrics := phase.FinalizeRound(ActionFor(ordered, FinanceController));
    var record := RoundRecord(env.round, ordered, phase.events, cfg.commentary(st, ordered), Some(metrics));
    var next := phase.state.(metrics := Some(metrics),
                             currentRound := phase.state.currentRound + 1,
                             history := AppendRecent(phase.state.history, record, cfg.historyLimit));
    return Ok(RoundResult(next, record, phase.drawn));
  }

  // ---------------------------------------------------------------- runs

  datatype Run = Run(st: MatchState, drawn: nat, results: seq<RoundResult>, failed: bool)

  /** The loop of the match runner: it stops at the first round that cannot be resolved. */
  function Play(cfg: Config, random: Random, drawn: nat, st: MatchState, inputs: seq<seq<ActionSubmission>>): Run
    decreases |inputs|
  {
    if |inputs| == 0 then Run(st, drawn, [], false)
    else
      match Resolve(cfg, random, drawn, st, inputs[0])
      case Err => Run(st, drawn, [], true)
      case Ok(r) =>
        var rest := Play(cfg, random, r.drawn, r.next, inputs[1..]);
        rest.(results := [r] + rest.results)
  }
}
