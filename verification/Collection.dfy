/**
 Collecting one action per role. Every role has a goroutine of its own; they share the round flow, which is
 changed under a lock, and each writes one slot of the result.
 */
module Collection {
  import opened Seqs
  import opened Domain
  import opened Actions
  import opened Quality
  import opened Phases
  import opened Resolver

  const NO_PROVIDER := 0

  datatype Flow = Flow(submitted: seq<RoleID>, waiting: seq<RoleID>, providerWaiting: seq<RoleID>)

  function RoleIDs(roles: seq<RoleAssignment>): seq<RoleID> {
    if |roles| == 0 then [] else [roles[0].role] + RoleIDs(roles[1..])
  }

  function Not(role: RoleID): RoleID -> bool { (r: RoleID) => r != role }

  function Include(roles: seq<RoleID>, role: RoleID): seq<RoleID> { if role in roles then roles else roles + [role] }

  function Remove(roles: seq<RoleID>, role: RoleID): seq<RoleID> { Filter(Not(role), roles) }

  function AskProvider(f: Flow, who: RoleAssignment): Flow {
    if who.provider == NO_PROVIDER then f else f.(providerWaiting := Include(f.providerWaiting, who.role))
  }

  function DropProvider(f: Flow, who: RoleAssignment): Flow {
    if who.provider == NO_PROVIDER then f else f.(providerWaiting := Remove(f.providerWaiting, who.role))
  }

  function Submitted(f: Flow, role: RoleID): Flow {
    Flow(Include(f.submitted, role), Remove(f.waiting, role), Remove(f.providerWaiting, role))
  }

  /** `newRoundFlowProgress`, from a flow that starts a collection. */
  function OpeningFlow(f: Flow, roles: seq<RoleAssignment>): Flow {
    if |f.waiting| == 0 && |roles| > 0 then f.(waiting := RoleIDs(roles)) else f
  }

  // ---------------------------------------------------------------- the shared flow

  class RoundFlowProgress {
    var flow: Flow

    constructor (start: Flow, roles: seq<RoleAssignment>)
      ensures flow == OpeningFlow(start, roles)
    {
      flow := start;
      new;
      if |flow.waiting| == 0 && |roles| > 0 {
        flow := flow.(waiting := RoleIDs(roles));
      }
    }

    method MarkProviderWaiting(who: RoleAssignment, active: bool)
      modifies this
      ensures flow == if active then AskProvider(old(flow), who) else DropProvider(old(flow), who)
      ensures flow.submitted == old(flow).submitted && flow.waiting == old(flow).waiting
      ensures forall r :: r in flow.providerWaiting <==>
                if r == who.role && who.provider != NO_PROVIDER then active else r in old(flow).providerWaiting
      ensures ListedOnce(old(flow).providerWaiting) ==> ListedOnce(flow.providerWaiting)
    {
      IncludeIs(flow.providerWaiting, who.role);
      RemoveIs(flow.providerWaiting, who.role);
      if who.provider == NO_PROVIDER { return; }
      if active {
        if who.role !in flow.providerWaiting {
          flow := flow.(providerWaiting := flow.providerWaiting + [who.role]);
        }
      } else {
        var left := RemoveRoleID(flow.providerWaiting, who.role);
        flow := flow.(providerWaiting := left);
      }
    }

    method MarkSubmitted(role: RoleID)
      modifies this
      ensures flow == Submitted(old(flow), role)
      ensures forall r :: r in flow.submitted <==> r == role || r in old(flow).submitted
      ensures forall r :: r in flow.waiting <==> r != role && r in old(flow).waiting
      ensures forall r :: r in flow.providerWaiting <==> r != role && r in old(flow).providerWaiting
      ensures ListedOnce(old(flow).submitted) ==> ListedOnce(flow.submitted)
      ensures ListedOnce(old(flow).waiting) ==> ListedOnce(flow.waiting)
      ensures ListedOnce(old(flow).providerWaiting) ==> ListedOnce(flow.providerWaiting)
    {
      IncludeIs(flow.submitted, role);
      RemoveIs(flow.waiting, role);
      RemoveIs(flow.providerWaiting, role);
      if role !in flow.submitted {
        flow := flow.(submitted := flow.submitted + [role]);
      }
      var waiting := RemoveRoleID(flow.waiting, role);
      var asked := RemoveRoleID(flow.providerWaiting, role);
      flow := flow.(waiting := waiting, providerWaiting := asked);
    }
  }

  method RemoveRoleID(items: seq<RoleID>, target: RoleID) returns (left: seq<RoleID>)
    ensures left == Remove(items, target)
  {
    left := [];
    for i := 0 to |items|
      invariant left == Filter(Not(target), items[..i])
    {
      FilterPush(Not(target), items[..i], items[i]);
      assert items[..i] + [items[i]] == items[..i + 1];
      if items[i] != target {
        left := left + [items[i]];
      }
    }
    assert items[..|items|] == items;
  }

  // ---------------------------------------------------------------- one submission

  /** `normalizeSubmission`: a submission is bound to the match, round and role it was asked for. */
  function Bound(a: ActionSubmission, st: MatchState, role: RoleID): ActionSubmission {
    ActionSubmission(if a.id.NoActionID? then Generated(role, st.currentRound) else a.id,
                     st.matchID, st.currentRound, role, a.action)
  }

  // ---------------------------------------------------------------- interleaved goroutines

  datatype Stage = Ready | Asked | Written | Done | Broken

  datatype Gathering = Gathering(flow: Flow, slots: seq<Option<ActionSubmission>>, stages: seq<Stage>)

  datatype Step =
    | Ask(i: nat)
    | Write(i: nat, answer: ActionSubmission)     // the player's answer, or what the recovery came up with
    | Mark(i: nat)
    | Break(i: nat)                               // neither the player nor the recovery answered

  ghost predicate Shaped(g: Gathering, st: MatchState) { |g.slots| == |g.stages| == |st.roles| }

  /** One step of one goroutine; a step that is not its turn changes nothing. */
  function Next(g: Gathering, st: MatchState, step: Step): Gathering
    requires Shaped(g, st)
  {
    if step.i >= |st.roles| then g
    else
      var i, who := step.i, st.roles[step.i];
      match step
      case Ask(_) =>
        if g.stages[i].Ready? then g.(flow := AskProvider(g.flow, who), stages := g.stages[i := Asked]) else g
      case Write(_, answer) =>
        if g.stages[i].Asked?
        then g.(slots := g.slots[i := Some(Bound(answer, st, who.role))], stages := g.stages[i := Written]) else g
      case Mark(_) =>
        if g.stages[i].Written? then g.(flow := Submitted(g.flow, who.role), stages := g.stages[i := Done]) else g
      case Break(_) =>
        if g.stages[i].Asked? then g.(flow := DropProvider(g.flow, who), stages := g.stages[i := Broken]) else g
  }

  ghost function RunSteps(g: Gathering, st: MatchState, steps: seq<Step>): (end: Gathering)
    requires Shaped(g, st)
    ensures Shaped(end, st)
    decreases |steps|
  {
    if |steps| == 0 then g else RunSteps(Next(g, st, steps[0]), st, steps[1..])
  }

  function Opening(st: MatchState): Gathering {
    Gathering(OpeningFlow(Flow([], [], []), st.roles),
              seq(|st.roles|, i requires 0 <= i < |st.roles| => None),
              seq(|st.roles|, i requires 0 <= i < |st.roles| => Ready))
  }

  // ---------------------------------------------------------------- what every interleaving keeps

  ghost predicate DistinctRoster(roles: seq<RoleAssignment>) {
    forall i, j | 0 <= i < j < |roles| :: roles[i].role != roles[j].role
  }

  /** The flow and the slot say about role i exactly what its goroutine has done. */
  ghost predicate RoleTracked(g: Gathering, st: MatchState, i: nat)
    requires Shaped(g, st) && i < |st.roles|
  {
    var role, stage := st.roles[i].role, g.stages[i];
    && (role in g.flow.submitted <==> stage.Done?)
    && (role in g.flow.waiting <==> !stage.Done?)
    && (role in g.flow.providerWaiting <==> (stage.Asked? || stage.Written?) && st.roles[i].provider != NO_PROVIDER)
    && (g.slots[i].Some? <==> stage.Written? || stage.Done?)
    && (g.slots[i].Some? ==> exists answer :: g.slots[i].value == Bound(answer, st, role))
  }

  ghost predicate ListedOnce(roles: seq<RoleID>) { forall i, j | 0 <= i < j < |roles| :: roles[i] != roles[j] }

  ghost predicate FromRoster(items: seq<RoleID>, roles: seq<RoleAssignment>) {
    forall r | r in items :: exists i :: 0 <= i < |roles| && roles[i].role == r
  }

  ghost predicate Tracked(g: Gathering, st: MatchState) {
    && Shaped(g, st)
    && (forall i | 0 <= i < |st.roles| :: RoleTracked(g, st, i))
    && ListedOnce(g.flow.submitted) && ListedOnce(g.flow.waiting) && ListedOnce(g.flow.providerWaiting)
    && FromRoster(g.flow.submitted, st.roles) && FromRoster(g.flow.waiting, st.roles)
    && FromRoster(g.flow.providerWaiting, st.roles)
  }

  lemma IncludeIs(roles: seq<RoleID>, role: RoleID)
    ensures forall r :: r in Include(roles, role) <==> r in roles || r == role
    ensures ListedOnce(roles) ==> ListedOnce(Include(roles, role))
  {
    assert forall r :: r in roles + [role] <==> r in roles || r == role;
  }

  lemma OnceMore(role: RoleID, rest: seq<RoleID>)
    requires ListedOnce(rest) && role !in rest
    ensures ListedOnce([role] + rest)
  {
    var all := [role] + rest;
    forall i, j | 0 <= i < j < |all| ensures all[i] != all[j] {
      assert all[j] == rest[j - 1];
      assert i > 0 ==> all[i] == rest[i - 1];
    }
  }

  lemma OnceTail(roles: seq<RoleID>)
    requires ListedOnce(roles) && |roles| > 0
    ensures ListedOnce(roles[1..]) && roles[0] !in roles[1..]
  {
    assert forall i | 0 <= i < |roles| - 1 :: roles[1..][i] == roles[i + 1];
  }

  lemma {:induction false} RemoveIs(roles: seq<RoleID>, role: RoleID)
    ensures forall r :: r in Remove(roles, role) <==> r in roles && r != role
    ensures ListedOnce(roles) ==> ListedOnce(Remove(roles, role))
  {
    hide ListedOnce;
    FilterMembers(Not(role), roles);
    assert forall r :: Not(role)(r) == (r != role);
    if |roles| == 0 {
      assert Remove(roles, role) == roles;
    } else if ListedOnce(roles) {
      OnceTail(roles);
      RemoveIs(roles[1..], role);
      if roles[0] != role {
        OnceMore(roles[0], Remove(roles[1..], role));
      }
    }
  }

  lemma StepTracks(g: Gathering, st: MatchState, step: Step)
    requires Tracked(g, st) && DistinctRoster(st.roles)
    ensures Tracked(Next(g, st, step), st)
  {
    hide Include, Remove, ListedOnce, Bound;
    if step.i < |st.roles| {
      var i, who, t := step.i, st.roles[step.i], Next(g, st, step);
      IncludeIs(g.flow.providerWaiting, who.role);
      IncludeIs(g.flow.submitted, who.role);
      RemoveIs(g.flow.providerWaiting, who.role);
      RemoveIs(g.flow.waiting, who.role);
      assert RoleTracked(g, st, i);
      forall j | 0 <= j < |st.roles| ensures RoleTracked(t, st, j) {
        assert RoleTracked(g, st, j);
        assert j != i ==> st.roles[j].role != who.role;
      }
    }
  }

  /** Every interleaving of the goroutines keeps the flow and the slots in step with what each of them has done. */
  lemma {:induction false} CollectionTracks(g: Gathering, st: MatchState, steps: seq<Step>)
    requires Tracked(g, st) && DistinctRoster(st.roles)
    ensures Tracked(RunSteps(g, st, steps), st)
    decreases |steps|
  {
    hide Next, DistinctRoster, RoleTracked, ListedOnce, FromRoster;
    if |steps| > 0 {
      StepTracks(g, st, steps[0]);
      CollectionTracks(Next(g, st, steps[0]), st, steps[1..]);
    }
  }

  lemma {:induction false} RosterIDs(roles: seq<RoleAssignment>)
    ensures |RoleIDs(roles)| == |roles| && forall i | 0 <= i < |roles| :: RoleIDs(roles)[i] == roles[i].role
  {
    if |roles| > 0 {
      RosterIDs(roles[1..]);
    }
  }

  lemma OpeningIsTracked(st: MatchState)
    requires DistinctRoster(st.roles)
    ensures Tracked(Opening(st), st)
  {
    RosterIDs(st.roles);
  }

  /** In every state of a collection: submitted and waiting roles partition the roster, and a provider is only waited for by a waiting role. */
  lemma RolesArePartitioned(g: Gathering, st: MatchState, role: RoleID)
    requires Tracked(g, st)
    ensures (exists a :: a in st.roles && a.role == role) <==> (role in g.flow.submitted) != (role in g.flow.waiting)
    ensures !(role in g.flow.submitted && role in g.flow.waiting)
    ensures role in g.flow.providerWaiting ==> role in g.flow.waiting
  {
    hide RoleTracked;
    if role in g.flow.submitted || role in g.flow.waiting || role in g.flow.providerWaiting {
      var i :| 0 <= i < |st.roles| && st.roles[i].role == role;
      OneRole(g, st, i);
      assert st.roles[i] in st.roles;
    }
    if exists a :: a in st.roles && a.role == role {
      var a :| a in st.roles && a.role == role;
      var i :| 0 <= i < |st.roles| && st.roles[i] == a;
      OneRole(g, st, i);
    }
  }

  /** From the opening flow, under every interleaving: the roster is partitioned at every moment. */
  lemma EveryCollectionPartitions(st: MatchState, steps: seq<Step>, role: RoleID)
    requires DistinctRoster(st.roles)
    ensures var flow := RunSteps(Opening(st), st, steps).flow;
            && ((exists a :: a in st.roles && a.role == role) <==> (role in flow.submitted) != (role in flow.waiting))
            && !(role in flow.submitted && role in flow.waiting)
            && (role in flow.providerWaiting ==> role in flow.waiting)
  {
    hide RunSteps, Tracked;
    OpeningIsTracked(st);
    CollectionTracks(Opening(st), st, steps);
    RolesArePartitioned(RunSteps(Opening(st), st, steps), st, role);
  }

  lemma OneRole(g: Gathering, st: MatchState, i: nat)
    requires Tracked(g, st) && i < |st.roles|
    ensures var role := st.roles[i].role;
            && (role in g.flow.submitted) != (role in g.flow.waiting)
            && (role in g.flow.providerWaiting ==> role in g.flow.waiting)
  {
    assert RoleTracked(g, st, i);
  }

  // ---------------------------------------------------------------- the answers

  /** The answer of a player, bound to the match, the round and the role it was asked for; it keeps a name of its own. */
  ghost predicate Carries(a: ActionSubmission, answer: ActionSubmission, st: MatchState, role: RoleID) {
    && a.matchID == st.matchID && a.round == st.currentRound && a.role == role && a.action == answer.action
    && if answer.id.NoActionID? then a.id == Generated(role, st.currentRound) else a.id == answer.id
  }

  ghost predicate Answered(st: MatchState, steps: seq<Step>, i: nat, a: ActionSubmission)
    requires i < |st.roles|
  {
    exists k: nat :: k < |steps| && steps[k].Write? && steps[k].i == i && Carries(a, steps[k].answer, st, st.roles[i].role)
  }

  lemma {:induction false} SlotsKeepAnswers(g: Gathering, st: MatchState, steps: seq<Step>, i: nat)
    requires Shaped(g, st) && i < |st.roles|
    ensures var slot := RunSteps(g, st, steps).slots[i];
            slot == g.slots[i] || (slot.Some? && Answered(st, steps, i, slot.value))
    decreases |steps|
  {
    hide Carries;
    if |steps| > 0 {
      var t, slot := Next(g, st, steps[0]), RunSteps(g, st, steps).slots[i];
      SlotsKeepAnswers(t, st, steps[1..], i);
      if slot == t.slots[i] {
        if slot != g.slots[i] {
          WritingCarries(steps[0].answer, st, st.roles[i].role);
          assert steps[0].i == i;
        }
      } else {
        var k: nat :| k < |steps| - 1 && steps[1..][k].Write? && steps[1..][k].i == i
                      && Carries(slot.value, steps[1..][k].answer, st, st.roles[i].role);
        assert steps[k + 1] == steps[1..][k];
      }
    }
  }

  lemma WritingCarries(answer: ActionSubmission, st: MatchState, role: RoleID)
    ensures Carries(Bound(answer, st, role), answer, st, role)
  {
  }

  /** Under every interleaving whatever is in the slot of a role is an answer given by its own player, bound to what was asked for. */
  lemma EverySlotIsAnswered(st: MatchState, steps: seq<Step>, i: nat)
    requires i < |st.roles|
    ensures var slot := RunSteps(Opening(st), st, steps).slots[i];
            slot.Some? ==> Answered(st, steps, i, slot.value)
  {
    hide RunSteps, Answered;
    SlotsKeepAnswers(Opening(st), st, steps, i);
  }

  // ---------------------------------------------------------------- the result

  ghost predicate Complete(g: Gathering) { forall i | 0 <= i < |g.stages| :: g.stages[i].Done? }

  function Collected(slots: seq<Option<ActionSubmission>>): seq<ActionSubmission>
    requires forall s | s in slots :: s.Some?
  {
    seq(|slots|, i requires 0 <= i < |slots| => slots[i].value)
  }

  lemma NobodyLeft(items: seq<RoleID>, roles: seq<RoleAssignment>)
    requires FromRoster(items, roles) && forall i | 0 <= i < |roles| :: roles[i].role !in items
    ensures items == []
  {
    if items != [] {
      Occupied(items);
    }
  }

  lemma Occupied(items: seq<RoleID>)
    requires items != []
    ensures exists r :: r in items
  {
    assert items[0] in items;
  }

  /** After a complete collection nobody is waited for, and slot i holds role i's action for this match and round. */
  lemma CompleteCollection(g: Gathering, st: MatchState)
    requires Tracked(g, st) && Complete(g)
    ensures g.flow.waiting == [] && g.flow.providerWaiting == []
    ensures forall s | s in g.slots :: s.Some?
    ensures forall i | 0 <= i < |st.roles| ::
              var a := Collected(g.slots)[i];
              a.role == st.roles[i].role && a.matchID == st.matchID && a.round == st.currentRound && !a.id.NoActionID?
  {
    forall i | 0 <= i < |st.roles|
      ensures g.slots[i].Some? && st.roles[i].role !in g.flow.waiting && st.roles[i].role !in g.flow.providerWaiting
    {
      assert RoleTracked(g, st, i);
    }
    NobodyLeft(g.flow.waiting, st.roles);
    NobodyLeft(g.flow.providerWaiting, st.roles);
    forall i | 0 <= i < |st.roles|
      ensures var a := Collected(g.slots)[i];
              a.role == st.roles[i].role && a.matchID == st.matchID && a.round == st.currentRound && !a.id.NoActionID?
    {
      assert RoleTracked(g, st, i);
    }
  }

  /**
   A complete collection from canonical roles is accepted by the resolver exactly when every payload is legal for
   its role: match, round and roles always fit. Any other order of the same actions fares alike, and resolves to
   the same round.
   */
  lemma CollectedIsAccepted(cfg: Config, random: Random, drawn: nat, g: Gathering, st: MatchState, shuffled: seq<ActionSubmission>)
    requires Tracked(g, st) && Complete(g) && DistinctRoster(st.roles)
    requires forall i | 0 <= i < |st.roles| :: st.roles[i].role in CANONICAL_ROLES
    requires (forall s | s in g.slots :: s.Some?) && multiset(shuffled) == multiset(Collected(g.slots))
    ensures NormalizeActions(st, shuffled).Ok? <==> forall a | a in Collected(g.slots) :: ValidPayload(st, a.role, a.action)
    ensures NormalizeActions(st, shuffled) == NormalizeActions(st, Collected(g.slots))
    ensures Resolve(cfg, random, drawn, st, shuffled) == Resolve(cfg, random, drawn, st, Collected(g.slots))
  {
    hide NormalizeActions, Tracked, Played, Close, EnvOf, ValidPayload;
    var collected := Collected(g.slots);
    NormalizeIgnoresOrder(st, shuffled, collected);
    NormalizeIsCanonical(st, collected);
    CompleteCollection(g, st);
    TrackedShape(g, st);
    forall i | 0 <= i < |collected|
      ensures Acceptable(st, collected[i]) <==> ValidPayload(st, collected[i].role, collected[i].action)
    {
      assert st.roles[i] in st.roles;
    }
    assert DistinctRoles(collected);
  }

  lemma TrackedShape(g: Gathering, st: MatchState)
    requires Tracked(g, st)
    ensures Shaped(g, st)
  {
  }
}
