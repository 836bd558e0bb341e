/**
 Routing of submissions in a live match. One bounded queue feeds any number of waiting players; a player that
 receives a submission meant for somebody else parks it. Calls interleave freely: each step below is one atomic
 action of one call.
 */
module Routing {
  import opened Seqs
  import opened Domain
  import opened MatchStore

  datatype Key = Key(role: RoleID, round: int)

  function KeyOf(a: ActionSubmission): Key { Key(a.role, a.round) }

  type Parked = map<Key, seq<ActionSubmission>>

  /** `takePending`, on the map: the oldest parked submission leaves; an empty list is deleted. */
  function AfterTake(pending: Parked, key: Key): Parked {
    if key !in pending || |pending[key]| == 0 then pending
    else if |pending[key]| == 1 then pending - {key}
    else pending[key := pending[key][1..]]
  }

  function Taken(pending: Parked, key: Key): Option<ActionSubmission> {
    if key !in pending || |pending[key]| == 0 then None else Some(pending[key][0])
  }

  /** `storePending`. */
  function Park(pending: Parked, a: ActionSubmission): Parked {
    pending[KeyOf(a) := (if KeyOf(a) in pending then pending[KeyOf(a)] else []) + [a]]
  }

  // ---------------------------------------------------------------- the controller

  class LiveGameplayController {
    var latest: MatchState
    var snapshots: seq<MatchState>
    var queue: seq<ActionSubmission>
    const capacity: nat
    var pending: Parked
    var closed: bool

    constructor (initial: MatchState, saved: seq<MatchState>)
      ensures latest == initial && snapshots == (if |saved| == 0 then [initial] else saved)
      ensures queue == [] && pending == map[] && !closed && capacity == |initial.roles| + 1
    {
      latest := initial;
      snapshots := if |saved| == 0 then [initial] else saved;
      queue, pending, closed := [], map[], false;
      capacity := |initial.roles| + 1;
    }

    /** One snapshot per round is kept; after closing nothing is published any more. */
    method Publish(state: MatchState)
      modifies this
      ensures latest == (if old(closed) then old(latest) else state)
      ensures snapshots == (if old(closed) then old(snapshots) else WithSnapshot(old(snapshots), state))
      ensures OneSnapshotPerRound(old(snapshots)) ==> OneSnapshotPerRound(snapshots)
      ensures queue == old(queue) && pending == old(pending) && closed == old(closed)
    {
      if closed { return; }
      latest := state;
      if OneSnapshotPerRound(snapshots) {
        SnapshotsStayUnique(snapshots, state);
      }
      snapshots := AppendOrReplaceSnapshot(snapshots, state);
    }

    /** The send that never blocks. */
    method TrySend(a: ActionSubmission) returns (ok: bool)
      requires !closed
      modifies this`queue
      ensures ok == (|old(queue)| < capacity)
      ensures queue == if ok then old(queue) + [a] else old(queue)
    {
      ok := |queue| < capacity;
      if ok {
        queue := queue + [a];
      }
    }

    /** `Submit` when nothing closes the channel between its two halves: refused once closed, or when the queue is full. */
    method Submit(a: ActionSubmission) returns (ok: bool)
      modifies this`queue
      ensures ok == (!closed && |old(queue)| < capacity)
      ensures queue == if ok then old(queue) + [a] else old(queue)
    {
      if closed { return false; }
      ok := TrySend(a);
    }

    method TakePending(key: Key) returns (found: Option<ActionSubmission>)
      modifies this`pending
      ensures found == Taken(old(pending), key) && pending == AfterTake(old(pending), key)
    {
      if key !in pending || |pending[key]| == 0 { return None; }
      var items := pending[key];
      if |items| == 1 {
        pending := pending - {key};
      } else {
        pending := pending[key := items[1..]];
      }
      return Some(items[0]);
    }

    method StorePending(a: ActionSubmission)
      modifies this`pending
      ensures pending == Park(old(pending), a)
    {
      var items := if KeyOf(a) in pending then pending[KeyOf(a)] else [];
      pending := pending[KeyOf(a) := items + [a]];
    }
  }

  // ---------------------------------------------------------------- interleaved calls

  /** Where a call stands. The first five are calls of `SubmitRound`, the others of `Submit`. */
  datatype Call =
    | Starting(key: Key)
    | Waiting(key: Key)
    | Holding(key: Key, held: ActionSubmission)
    | Returned(key: Key, got: ActionSubmission)
    | GaveUp(key: Key)
    | Sending(sent: ActionSubmission)
    | Accepted(sent: ActionSubmission)
    | Refused(sent: ActionSubmission)
    | Crashed(sent: ActionSubmission)             // sent on a channel closed in between

  /** `accepted` and `delivered` are histories, in the order of the sends and of the returns. */
  datatype System = System(
    capacity: nat, closed: bool, queue: seq<ActionSubmission>, pending: Parked, calls: seq<Call>,
    accepted: seq<ActionSubmission>, delivered: seq<ActionSubmission>)

  datatype Step =
    | CallSubmitRound(key: Key)
    | TakeStep(i: nat)
    | Receive(i: nat)
    | ParkStep(i: nat)
    | Cancel(i: nat)
    | CallSubmit(a: ActionSubmission)
    | Send(i: nat)
    | Close

  function SetCall(s: System, i: nat, c: Call): System
    requires i < |s.calls|
  {
    s.(calls := s.calls[i := c])
  }

  function Deliver(s: System, i: nat, a: ActionSubmission): System
    requires i < |s.calls| && (s.calls[i].Starting? || s.calls[i].Waiting?)
  {
    SetCall(s, i, Returned(s.calls[i].key, a)).(delivered := s.delivered + [a])
  }

  /** One step; a step that is not enabled changes nothing. */
  function Next(s: System, step: Step): System {
    match step
    case CallSubmitRound(key) => s.(calls := s.calls + [Starting(key)])
    case TakeStep(i) =>
      if i >= |s.calls| || !s.calls[i].Starting? then s
      else
        var key := s.calls[i].key;
        (match Taken(s.pending, key)
         case None => SetCall(s, i, Waiting(key))
         case Some(a) => Deliver(s, i, a).(pending := AfterTake(s.pending, key)))
    case Receive(i) =>
      if i >= |s.calls| || !s.calls[i].Waiting? then s
      else if |s.queue| == 0 then if s.closed then SetCall(s, i, GaveUp(s.calls[i].key)) else s
      else
        var a, rest := s.queue[0], s.(queue := s.queue[1..]);
        if KeyOf(a) == s.calls[i].key then Deliver(rest, i, a) else SetCall(rest, i, Holding(s.calls[i].key, a))
    case ParkStep(i) =>
      if i >= |s.calls| || !s.calls[i].Holding? then s
      else SetCall(s, i, Waiting(s.calls[i].key)).(pending := Park(s.pending, s.calls[i].held))
    case Cancel(i) =>
      if i >= |s.calls| || !s.calls[i].Waiting? then s else SetCall(s, i, GaveUp(s.calls[i].key))
    case CallSubmit(a) => s.(calls := s.calls + [if s.closed then Refused(a) else Sending(a)])
    case Send(i) =>
      if i >= |s.calls| || !s.calls[i].Sending? then s
      else if s.closed then SetCall(s, i, Crashed(s.calls[i].sent))
      else if |s.queue| < s.capacity then
        SetCall(s, i, Accepted(s.calls[i].sent))
          .(queue := s.queue + [s.calls[i].sent], accepted := s.accepted + [s.calls[i].sent])
      else SetCall(s, i, Refused(s.calls[i].sent))
    case Close => s.(closed := true)
  }

  function RunSteps(s: System, steps: seq<Step>): System
    decreases |steps|
  {
    if |steps| == 0 then s else RunSteps(Next(s, steps[0]), steps[1..])
  }

  // ---------------------------------------------------------------- when calls end

  /**
   A submission is accepted if and only if it is sent while the controller is open and the queue has room, and then joins the
   end of the queue; nothing else is ever accepted. A full queue refuses it, and a channel closed in between fails the call.
   */
  lemma AcceptedExactlyWhen(s: System, step: Step)
    ensures var t := Next(s, step);
            var sends := step.Send? && step.i < |s.calls| && s.calls[step.i].Sending?;
            && (t.accepted != s.accepted <==> sends && !s.closed && |s.queue| < s.capacity)
            && (t.accepted != s.accepted ==>
                  && t.accepted == s.accepted + [s.calls[step.i].sent] && t.queue == s.queue + [s.calls[step.i].sent]
                  && t.calls == s.calls[step.i := Accepted(s.calls[step.i].sent)])
            && (sends && !s.closed && |s.queue| >= s.capacity ==> t == s.(calls := s.calls[step.i := Refused(s.calls[step.i].sent)]))
            && (sends && s.closed ==> t == s.(calls := s.calls[step.i := Crashed(s.calls[step.i].sent)]))
  {
    assert step.Send? && step.i < |s.calls| && s.calls[step.i].Sending? ==> |s.accepted + [s.calls[step.i].sent]| == |s.accepted| + 1;
  }

  /** Once closed, a controller stays closed, accepts nothing any more, and its queue only drains. */
  lemma {:induction false} ClosedForGood(s: System, steps: seq<Step>)
    requires s.closed
    ensures var t := RunSteps(s, steps); t.closed && t.accepted == s.accepted && |t.queue| <= |s.queue|
    decreases |steps|
  {
    if |steps| > 0 {
      ClosedStep(s, steps[0]);
      hide Next;
      ClosedForGood(Next(s, steps[0]), steps[1..]);
    }
  }

  lemma ClosedStep(s: System, step: Step)
    requires s.closed
    ensures var t := Next(s, step); t.closed && t.accepted == s.accepted && |t.queue| <= |s.queue|
    ensures step.CallSubmit? ==> Next(s, step).calls == s.calls + [Refused(step.a)]
  {
  }

  /** A waiting call gives up if and only if it is cancelled, or finds the queue closed and drained. */
  lemma GivesUpExactlyWhen(s: System, step: Step, i: nat)
    requires i < |s.calls| && s.calls[i].Waiting?
    ensures |Next(s, step).calls| >= |s.calls|
    ensures Next(s, step).calls[i].GaveUp? <==>
            step == Cancel(i) || (step == Receive(i) && s.closed && |s.queue| == 0)
  {
  }

  function Initial(capacity: nat): System { System(capacity, false, [], map[], [], [], []) }

  // ---------------------------------------------------------------- nothing lost, nothing duplicated

  function InHand(x: ActionSubmission): Call -> int { (c: Call) => if c.Holding? && c.held == x then 1 else 0 }

  function ReturnedTo(x: ActionSubmission): Call -> int { (c: Call) => if c.Returned? && c.got == x then 1 else 0 }

  function AcceptedFrom(x: ActionSubmission): Call -> int { (c: Call) => if c.Accepted? && c.sent == x then 1 else 0 }

  function ParkedCount(pending: Parked, x: ActionSubmission): int {
    if KeyOf(x) in pending then multiset(pending[KeyOf(x)])[x] else 0
  }

  /** Parked submissions are filed under their own key. */
  ghost predicate Filed(pending: Parked) {
    forall k | k in pending :: |pending[k]| > 0 && forall a | a in pending[k] :: KeyOf(a) == k
  }

  /** Every accepted submission is in exactly one place: delivered, queued, in hand or parked. */
  ghost predicate Accounted(s: System, x: ActionSubmission) {
    && multiset(s.accepted)[x] ==
         multiset(s.delivered)[x] + multiset(s.queue)[x] + Sum(InHand(x), s.calls) + ParkedCount(s.pending, x)
    && Sum(ReturnedTo(x), s.calls) == multiset(s.delivered)[x]
    && Sum(AcceptedFrom(x), s.calls) == multiset(s.accepted)[x]
  }

  ghost predicate Matching(c: Call) { c.Returned? ==> KeyOf(c.got) == c.key }

  ghost predicate Safe(s: System) {
    && (forall x :: Accounted(s, x))
    && Filed(s.pending)
    && (forall c | c in s.calls :: Matching(c))
    && |s.queue| <= s.capacity
  }

  lemma CallsChange(s: System, i: nat, c: Call, x: ActionSubmission)
    requires i < |s.calls|
    ensures Sum(InHand(x), s.calls[i := c]) == Sum(InHand(x), s.calls) - InHand(x)(s.calls[i]) + InHand(x)(c)
    ensures Sum(ReturnedTo(x), s.calls[i := c]) == Sum(ReturnedTo(x), s.calls) - ReturnedTo(x)(s.calls[i]) + ReturnedTo(x)(c)
    ensures Sum(AcceptedFrom(x), s.calls[i := c]) == Sum(AcceptedFrom(x), s.calls) - AcceptedFrom(x)(s.calls[i]) + AcceptedFrom(x)(c)
  {
    SumUpdate(InHand(x), s.calls, i, c);
    SumUpdate(ReturnedTo(x), s.calls, i, c);
    SumUpdate(AcceptedFrom(x), s.calls, i, c);
  }

  /** A new call holds nothing and has delivered nothing yet. */
  lemma CallAdded(s: System, c: Call, x: ActionSubmission)
    requires !c.Holding? && !c.Returned? && !c.Accepted?
    ensures Sum(InHand(x), s.calls + [c]) == Sum(InHand(x), s.calls)
    ensures Sum(ReturnedTo(x), s.calls + [c]) == Sum(ReturnedTo(x), s.calls)
    ensures Sum(AcceptedFrom(x), s.calls + [c]) == Sum(AcceptedFrom(x), s.calls)
  {
    CallsGrow(s, c, x);
  }

  lemma CallsGrow(s: System, c: Call, x: ActionSubmission)
    ensures Sum(InHand(x), s.calls + [c]) == Sum(InHand(x), s.calls) + InHand(x)(c)
    ensures Sum(ReturnedTo(x), s.calls + [c]) == Sum(ReturnedTo(x), s.calls) + ReturnedTo(x)(c)
    ensures Sum(AcceptedFrom(x), s.calls + [c]) == Sum(AcceptedFrom(x), s.calls) + AcceptedFrom(x)(c)
  {
    SumPush(InHand(x), s.calls, c);
    SumPush(ReturnedTo(x), s.calls, c);
    SumPush(AcceptedFrom(x), s.calls, c);
  }

  lemma HeadCount(items: seq<ActionSubmission>, x: ActionSubmission)
    requires |items| > 0
    ensures multiset(items)[x] == (if items[0] == x then 1 else 0) + multiset(items[1..])[x]
  {
    assert items == [items[0]] + items[1..];
  }

  lemma TakeCount(pending: Parked, key: Key, x: ActionSubmission)
    requires Filed(pending) && Taken(pending, key).Some?
    ensures ParkedCount(pending, x) == ParkedCount(AfterTake(pending, key), x) + (if Taken(pending, key).value == x then 1 else 0)
    ensures Filed(AfterTake(pending, key)) && KeyOf(Taken(pending, key).value) == key
  {
    HeadCount(pending[key], x);
    assert pending[key][0] in pending[key];
    assert forall a | a in pending[key][1..] :: a in pending[key];
  }

  lemma ParkCount(pending: Parked, a: ActionSubmission, x: ActionSubmission)
    requires Filed(pending)
    ensures ParkedCount(Park(pending, a), x) == ParkedCount(pending, x) + (if a == x then 1 else 0)
    ensures Filed(Park(pending, a))
  {
  }

  lemma PushCount(items: seq<ActionSubmission>, a: ActionSubmission, x: ActionSubmission)
    ensures multiset(items + [a])[x] == multiset(items)[x] + (if a == x then 1 else 0)
  {
  }

  lemma StepAccounts(s: System, step: Step, x: ActionSubmission)
    requires Accounted(s, x) && Filed(s.pending)
    ensures Accounted(Next(s, step), x)
  {
    hide ParkedCount, InHand, ReturnedTo, AcceptedFrom, AfterTake, Taken, Park, Sum;
    match step
    case CallSubmitRound(key) => CallAdded(s, Starting(key), x);
    case CallSubmit(a) => CallAdded(s, if s.closed then Refused(a) else Sending(a), x);
    case Close =>
    case TakeStep(i) => if i < |s.calls| && s.calls[i].Starting? { TakeAccounts(s, i, x); }
    case Receive(i) => if i < |s.calls| && s.calls[i].Waiting? { ReceiveAccounts(s, i, x); }
    case ParkStep(i) => if i < |s.calls| && s.calls[i].Holding? { ParkAccounts(s, i, x); }
    case Cancel(i) => if i < |s.calls| && s.calls[i].Waiting? { CancelAccounts(s, i, x); }
    case Send(i) => if i < |s.calls| && s.calls[i].Sending? { SendAccounts(s, i, x); }
  }

  lemma CallMoved(s: System, i: nat, c: Call, x: ActionSubmission)
    requires i < |s.calls|
    ensures Sum(InHand(x), s.calls[i := c]) == Sum(InHand(x), s.calls)
              - (if s.calls[i].Holding? && s.calls[i].held == x then 1 else 0) + (if c.Holding? && c.held == x then 1 else 0)
    ensures Sum(ReturnedTo(x), s.calls[i := c]) == Sum(ReturnedTo(x), s.calls)
              - (if s.calls[i].Returned? && s.calls[i].got == x then 1 else 0) + (if c.Returned? && c.got == x then 1 else 0)
    ensures Sum(AcceptedFrom(x), s.calls[i := c]) == Sum(AcceptedFrom(x), s.calls)
              - (if s.calls[i].Accepted? && s.calls[i].sent == x then 1 else 0) + (if c.Accepted? && c.sent == x then 1 else 0)
  {
    CallsChange(s, i, c, x);
  }

  lemma TakeIs(s: System, i: nat)
    requires i < |s.calls| && s.calls[i].Starting?
    ensures var key := s.calls[i].key;
            Next(s, TakeStep(i)) ==
            match Taken(s.pending, key)
            case None => s.(calls := s.calls[i := Waiting(key)])
            case Some(a) => s.(calls := s.calls[i := Returned(key, a)], delivered := s.delivered + [a],
                               pending := AfterTake(s.pending, key))
  {
  }

  lemma TakeAccounts(s: System, i: nat, x: ActionSubmission)
    requires Accounted(s, x) && Filed(s.pending) && i < |s.calls| && s.calls[i].Starting?
    ensures Accounted(Next(s, TakeStep(i)), x)
  {
    hide ParkedCount, InHand, ReturnedTo, AcceptedFrom, AfterTake, Taken, Sum, Filed, Next;
    var key := s.calls[i].key;
    TakeIs(s, i);
    if Taken(s.pending, key).None? {
      CallMoved(s, i, Waiting(key), x);
    } else {
      var a := Taken(s.pending, key).value;
      CallMoved(s, i, Returned(key, a), x);
      TakeCount(s.pending, key, x);
      PushCount(s.delivered, a, x);
    }
  }

  lemma ReceiveIs(s: System, i: nat)
    requires i < |s.calls| && s.calls[i].Waiting?
    ensures |s.queue| == 0 ==> Next(s, Receive(i)) == if s.closed then SetCall(s, i, GaveUp(s.calls[i].key)) else s
    ensures |s.queue| > 0 ==>
              var a, rest := s.queue[0], s.queue[1..];
              Next(s, Receive(i)) ==
              if KeyOf(a) == s.calls[i].key
              then s.(queue := rest, calls := s.calls[i := Returned(s.calls[i].key, a)], delivered := s.delivered + [a])
              else s.(queue := rest, calls := s.calls[i := Holding(s.calls[i].key, a)])
  {
  }

  lemma ReceiveAccounts(s: System, i: nat, x: ActionSubmission)
    requires Accounted(s, x) && i < |s.calls| && s.calls[i].Waiting?
    ensures Accounted(Next(s, Receive(i)), x)
  {
    hide ParkedCount, InHand, ReturnedTo, AcceptedFrom, Sum, Next, KeyOf;
    var key := s.calls[i].key;
    ReceiveIs(s, i);
    if |s.queue| == 0 {
      CallMoved(s, i, GaveUp(key), x);
    } else {
      var a := s.queue[0];
      HeadCount(s.queue, x);
      if KeyOf(a) == key {
        CallMoved(s, i, Returned(key, a), x);
        PushCount(s.delivered, a, x);
      } else {
        CallMoved(s, i, Holding(key, a), x);
      }
    }
  }

  lemma ParkAccounts(s: System, i: nat, x: ActionSubmission)
    requires Accounted(s, x) && Filed(s.pending) && i < |s.calls| && s.calls[i].Holding?
    ensures Accounted(Next(s, ParkStep(i)), x)
  {
    hide ParkedCount, InHand, ReturnedTo, AcceptedFrom, AfterTake, Taken, Park, Sum, Filed;
    CallMoved(s, i, Waiting(s.calls[i].key), x);
    ParkCount(s.pending, s.calls[i].held, x);
  }

  lemma CancelAccounts(s: System, i: nat, x: ActionSubmission)
    requires Accounted(s, x) && i < |s.calls| && s.calls[i].Waiting?
    ensures Accounted(Next(s, Cancel(i)), x)
  {
    hide ParkedCount, InHand, ReturnedTo, AcceptedFrom, AfterTake, Taken, Park, Sum, Filed;
    CallMoved(s, i, GaveUp(s.calls[i].key), x);
  }

  lemma SendIs(s: System, i: nat)
    requires i < |s.calls| && s.calls[i].Sending?
    ensures var a := s.calls[i].sent;
            Next(s, Send(i)) ==
            if s.closed then s.(calls := s.calls[i := Crashed(a)])
            else if |s.queue| < s.capacity
            then s.(queue := s.queue + [a], calls := s.calls[i := Accepted(a)], accepted := s.accepted + [a])
            else s.(calls := s.calls[i := Refused(a)])
  {
  }

  lemma SendAccounts(s: System, i: nat, x: ActionSubmission)
    requires Accounted(s, x) && i < |s.calls| && s.calls[i].Sending?
    ensures Accounted(Next(s, Send(i)), x)
  {
    hide ParkedCount, InHand, ReturnedTo, AcceptedFrom, Sum, Next, KeyOf;
    var a := s.calls[i].sent;
    SendIs(s, i);
    if s.closed {
      CallMoved(s, i, Crashed(a), x);
    } else if |s.queue| < s.capacity {
      CallMoved(s, i, Accepted(a), x);
      PushCount(s.queue, a, x);
      PushCount(s.accepted, a, x);
    } else {
      CallMoved(s, i, Refused(a), x);
    }
  }

  lemma StepMatches(s: System, step: Step)
    requires Filed(s.pending) && (forall c | c in s.calls :: Matching(c)) && |s.queue| <= s.capacity
    ensures var t := Next(s, step);
            Filed(t.pending) && (forall c | c in t.calls :: Matching(c)) && |t.queue| <= t.capacity
  {
    hide AfterTake, Taken, Park, Filed;
    if step.TakeStep? && step.i < |s.calls| && s.calls[step.i].Starting? && Taken(s.pending, s.calls[step.i].key).Some? {
      TakeCount(s.pending, s.calls[step.i].key, Taken(s.pending, s.calls[step.i].key).value);
    }
    if step.ParkStep? && step.i < |s.calls| && s.calls[step.i].Holding? {
      ParkCount(s.pending, s.calls[step.i].held, s.calls[step.i].held);
    }
  }

  /**
   Under every interleaving of any number of calls: the accepted submissions are exactly those delivered, queued,
   in hand and parked, none lost and none duplicated, and each delivery is for the role and round that asked.
   */
  lemma {:induction false} RoutingIsSafe(s: System, steps: seq<Step>)
    requires Safe(s)
    ensures Safe(RunSteps(s, steps))
    decreases |steps|
  {
    hide Accounted, Matching, Filed, Next;
    if |steps| > 0 {
      forall x ensures Accounted(Next(s, steps[0]), x) {
        StepAccounts(s, steps[0], x);
      }
      StepMatches(s, steps[0]);
      RoutingIsSafe(Next(s, steps[0]), steps[1..]);
    }
  }

  lemma EmptySystemIsSafe(capacity: nat)
    ensures Safe(Initial(capacity))
  {
  }

  /** The same for a controller from its start, spelled out. */
  lemma EveryInterleavingIsSafe(capacity: nat, steps: seq<Step>, x: ActionSubmission)
    ensures var s := RunSteps(Initial(capacity), steps);
            && multiset(s.accepted)[x] ==
                 multiset(s.delivered)[x] + multiset(s.queue)[x] + Sum(InHand(x), s.calls) + ParkedCount(s.pending, x)
            && Sum(ReturnedTo(x), s.calls) == multiset(s.delivered)[x]
            && Sum(AcceptedFrom(x), s.calls) == multiset(s.accepted)[x]
            && (forall c | c in s.calls && c.Returned? :: KeyOf(c.got) == c.key)
            && |s.queue| <= s.capacity
  {
    hide Next, InHand, ReturnedTo, AcceptedFrom, ParkedCount, Filed, RunSteps, Sum;
    EmptySystemIsSafe(capacity);
    RoutingIsSafe(Initial(capacity), steps);
    var s := RunSteps(Initial(capacity), steps);
    assert Accounted(s, x);
    forall c | c in s.calls && c.Returned? ensures KeyOf(c.got) == c.key {
      assert Matching(c);
    }
  }

  // ---------------------------------------------------------------- order

  function ForKey(k: Key): ActionSubmission -> bool { (a: ActionSubmission) => KeyOf(a) == k }

  function ParkedFor(pending: Parked, k: Key): seq<ActionSubmission> { if k in pending then pending[k] else [] }

  /** With `held` in hand, the submissions of one key are spread, in order of acceptance, over the places they can be. */
  ghost predicate Ordered(s: System, held: seq<ActionSubmission>, k: Key) {
    Filter(ForKey(k), s.accepted) ==
    Filter(ForKey(k), s.delivered) + ParkedFor(s.pending, k) + Filter(ForKey(k), held) + Filter(ForKey(k), s.queue)
  }

  predicate Active(c: Call) { c.Starting? || c.Waiting? || c.Holding? }

  ghost predicate OneReceiver(s: System) {
    forall i, j | 0 <= i < j < |s.calls| :: !(Active(s.calls[i]) && Active(s.calls[j]))
  }

  ghost predicate InOrder(s: System) {
    && Filed(s.pending)
    && (forall i | 0 <= i < |s.calls| && s.calls[i].Holding? ::
          && KeyOf(s.calls[i].held) != s.calls[i].key
          && forall k :: Ordered(s, [s.calls[i].held], k))
    && (forall i | 0 <= i < |s.calls| && (s.calls[i].Waiting? || s.calls[i].Holding?) :: s.calls[i].key !in s.pending)
    && ((forall i | 0 <= i < |s.calls| :: !s.calls[i].Holding?) ==> forall k :: Ordered(s, [], k))
  }

  /** At every point of the run at most one call of `SubmitRound` is under way. */
  ghost predicate Sequential(s: System, steps: seq<Step>)
    decreases |steps|
  {
    OneReceiver(s) && (|steps| > 0 ==> Sequential(Next(s, steps[0]), steps[1..]))
  }

  lemma OthersIdle(s: System, i: nat)
    requires OneReceiver(s) && i < |s.calls| && Active(s.calls[i])
    ensures forall j | 0 <= j < |s.calls| && j != i :: !Active(s.calls[j])
  {
  }

  lemma TakenFirst(pending: Parked, key: Key)
    requires Filed(pending)
    ensures Taken(pending, key).Some? ==>
              ParkedFor(pending, key) == [Taken(pending, key).value] + ParkedFor(AfterTake(pending, key), key)
    ensures Taken(pending, key).None? ==> key !in pending
    ensures forall k | k != key :: ParkedFor(AfterTake(pending, key), k) == ParkedFor(pending, k)
  {
  }

  lemma TakeOrdered(s: System, i: nat, k: Key)
    requires Ordered(s, [], k) && Filed(s.pending) && i < |s.calls| && s.calls[i].Starting?
    ensures Ordered(Next(s, TakeStep(i)), [], k)
  {
    hide Sum, KeyOf, AfterTake, Taken, Next, ParkedFor, Filed, Filter;
    TakeIs(s, i);
    var key := s.calls[i].key;
    TakenFirst(s.pending, key);
    if Taken(s.pending, key).Some? {
      var a := Taken(s.pending, key).value;
      TakeCount(s.pending, key, a);
      FilterPush(ForKey(k), s.delivered, a);
      var d, rest := Filter(ForKey(k), s.delivered), ParkedFor(AfterTake(s.pending, key), k);
      assert d + ([a] + rest) == d + [a] + rest;
      assert d + [] == d;
    }
  }

  lemma TakeInOrder(s: System, i: nat)
    requires InOrder(s) && OneReceiver(s) && i < |s.calls| && s.calls[i].Starting?
    ensures InOrder(Next(s, TakeStep(i)))
  {
    hide Sum, KeyOf, AfterTake, Taken, Next, Ordered, Filed;
    OthersIdle(s, i);
    TakeIs(s, i);
    var t := Next(s, TakeStep(i));
    TakenFirst(s.pending, s.calls[i].key);
    if Taken(s.pending, s.calls[i].key).Some? {
      TakeCount(s.pending, s.calls[i].key, Taken(s.pending, s.calls[i].key).value);
    }
    forall k ensures Ordered(t, [], k) {
      TakeOrdered(s, i, k);
    }
    assert forall j | 0 <= j < |s.calls| && j != i :: t.calls[j] == s.calls[j];
  }

  lemma DeliveredFromQueue(s: System, t: System, k: Key)
    requires Ordered(s, [], k) && |s.queue| > 0 && (KeyOf(s.queue[0]) == k ==> ParkedFor(s.pending, k) == [])
    requires t.accepted == s.accepted && t.delivered == s.delivered + [s.queue[0]]
    requires t.queue == s.queue[1..] && t.pending == s.pending
    ensures Ordered(t, [], k)
  {
    hide KeyOf, Filter, ParkedFor;
    NothingKept(k);
    QueueHead(s.queue, k);
    FilterPush(ForKey(k), s.delivered, s.queue[0]);
    if KeyOf(s.queue[0]) == k {
      var d, a, q := Filter(ForKey(k), s.delivered), s.queue[0], Filter(ForKey(k), t.queue);
      assert d + [] + [] + ([a] + q) == d + [a] + [] + [] + q;
    } else {
      assert [] + Filter(ForKey(k), t.queue) == Filter(ForKey(k), t.queue);
    }
  }

  lemma HeldFromQueue(s: System, t: System, k: Key)
    requires Ordered(s, [], k) && |s.queue| > 0
    requires t.accepted == s.accepted && t.delivered == s.delivered
    requires t.queue == s.queue[1..] && t.pending == s.pending
    ensures Ordered(t, [s.queue[0]], k)
  {
    hide KeyOf, Filter, ParkedFor;
    NothingKept(k);
    QueueHead(s.queue, k);
    OneKept(k, s.queue[0]);
    var d, p, q := Filter(ForKey(k), s.delivered), ParkedFor(s.pending, k), Filter(ForKey(k), t.queue);
    var h := Filter(ForKey(k), [s.queue[0]]);
    assert d + p + [] + (h + q) == d + p + h + q;
  }

  lemma OneKept(k: Key, a: ActionSubmission)
    ensures Filter(ForKey(k), [a]) == if KeyOf(a) == k then [a] else []
  {
    assert [a][1..] == [];
  }

  lemma QueueHead(queue: seq<ActionSubmission>, k: Key)
    requires |queue| > 0
    ensures Filter(ForKey(k), queue) ==
            (if KeyOf(queue[0]) == k then [queue[0]] else []) + Filter(ForKey(k), queue[1..])
  {
  }

  lemma NotParked(pending: Parked, k: Key)
    ensures k !in pending ==> ParkedFor(pending, k) == []
  {
  }

  lemma NothingKept(k: Key)
    ensures Filter(ForKey(k), []) == []
  {
  }

  lemma ReceiveInOrder(s: System, i: nat)
    requires InOrder(s) && OneReceiver(s) && i < |s.calls| && s.calls[i].Waiting?
    ensures InOrder(Next(s, Receive(i)))
  {
    hide Sum, KeyOf, Next, Ordered, Filed;
    OthersIdle(s, i);
    ReceiveIs(s, i);
    var t := Next(s, Receive(i));
    if |s.queue| > 0 {
      var held := if KeyOf(s.queue[0]) == s.calls[i].key then [] else [s.queue[0]];
      forall k ensures Ordered(t, held, k) {
        NotParked(s.pending, s.calls[i].key);
        if KeyOf(s.queue[0]) == s.calls[i].key {
          DeliveredFromQueue(s, t, k);
        } else {
          HeldFromQueue(s, t, k);
        }
      }
    } else {
      forall k ensures Ordered(t, [], k) {
        SameOrder(s, t, [], k);
      }
    }
    if t != s {
      assert forall j | 0 <= j < |s.calls| && j != i :: t.calls[j] == s.calls[j];
      assert |s.queue| > 0 && t.calls[i].Holding? ==> t.calls[i] == Holding(s.calls[i].key, s.queue[0]);
    }
  }

  lemma SameOrder(s: System, t: System, held: seq<ActionSubmission>, k: Key)
    requires Ordered(s, held, k)
    requires t.queue == s.queue && t.pending == s.pending && t.accepted == s.accepted && t.delivered == s.delivered
    ensures Ordered(t, held, k)
  {
  }

  lemma ParkOrdered(s: System, i: nat, k: Key)
    requires i < |s.calls| && s.calls[i].Holding? && Ordered(s, [s.calls[i].held], k)
    ensures Ordered(Next(s, ParkStep(i)), [], k)
  {
    hide Sum, KeyOf, Filter;
    var a := s.calls[i].held;
    FilterPush(ForKey(k), [], a);
    NothingKept(k);
    assert [] + [a] == [a];
    var d, p, q := Filter(ForKey(k), s.delivered), ParkedFor(s.pending, k), Filter(ForKey(k), s.queue);
    assert d + p + [a] + q == d + (p + [a]) + [] + q;
    assert d + p + [] + q == d + p + q;
  }

  lemma ParkInOrder(s: System, i: nat)
    requires InOrder(s) && OneReceiver(s) && i < |s.calls| && s.calls[i].Holding?
    ensures InOrder(Next(s, ParkStep(i)))
  {
    hide Sum, KeyOf, Ordered, Filed;
    OthersIdle(s, i);
    var t, a := Next(s, ParkStep(i)), s.calls[i].held;
    ParkCount(s.pending, a, a);
    forall k ensures Ordered(t, [], k) {
      ParkOrdered(s, i, k);
    }
    assert forall j | 0 <= j < |s.calls| && j != i :: t.calls[j] == s.calls[j];
  }

  lemma SendOrdered(s: System, i: nat, held: seq<ActionSubmission>, k: Key)
    requires i < |s.calls| && s.calls[i].Sending? && Ordered(s, held, k)
    ensures Ordered(Next(s, Send(i)), held, k)
  {
    hide Sum, KeyOf, Next, ParkedFor, Filter;
    SendIs(s, i);
    FilterPush(ForKey(k), s.accepted, s.calls[i].sent);
    FilterPush(ForKey(k), s.queue, s.calls[i].sent);
  }

  lemma SendInOrder(s: System, i: nat)
    requires InOrder(s) && i < |s.calls| && s.calls[i].Sending?
    ensures InOrder(Next(s, Send(i)))
  {
    hide Sum, KeyOf, Next, Ordered, Filed;
    SendIs(s, i);
    var t := Next(s, Send(i));
    assert forall j | 0 <= j < |s.calls| && j != i :: t.calls[j] == s.calls[j];
    forall j, k | 0 <= j < |t.calls| && t.calls[j].Holding? ensures Ordered(t, [t.calls[j].held], k) {
      assert Ordered(s, [s.calls[j].held], k);
      SendOrdered(s, i, [s.calls[j].held], k);
    }
    if forall j | 0 <= j < |t.calls| :: !t.calls[j].Holding? {
      forall k ensures Ordered(t, [], k) {
        assert forall j | 0 <= j < |s.calls| :: j != i ==> !t.calls[j].Holding?;
        SendOrdered(s, i, [], k);
      }
    }
  }

  lemma OtherInOrder(s: System, step: Step)
    requires InOrder(s) && (step.CallSubmitRound? || step.CallSubmit? || step.Close? || step.Cancel?)
    ensures InOrder(Next(s, step))
  {
    hide Sum, KeyOf, Filed, Ordered;
    var t := Next(s, step);
    var cancelled := if step.Cancel? && step.i < |s.calls| && s.calls[step.i].Waiting? then step.i as int else -1;
    assert forall j | 0 <= j < |s.calls| && j != cancelled :: t.calls[j] == s.calls[j];
    forall j, k | 0 <= j < |t.calls| && t.calls[j].Holding? ensures Ordered(t, [t.calls[j].held], k) {
      assert t.calls[j] == s.calls[j];
      SameOrder(s, t, [s.calls[j].held], k);
    }
    if forall j | 0 <= j < |t.calls| :: !t.calls[j].Holding? {
      assert forall j | 0 <= j < |s.calls| :: j != cancelled ==> !t.calls[j].Holding?;
      forall k ensures Ordered(t, [], k) {
        SameOrder(s, t, [], k);
      }
    }
  }

  lemma StepInOrder(s: System, step: Step)
    requires InOrder(s) && OneReceiver(s)
    ensures InOrder(Next(s, step))
  {
    hide InOrder, OneReceiver;
    match step
    case TakeStep(i) => if i < |s.calls| && s.calls[i].Starting? { TakeInOrder(s, i); }
    case Receive(i) => if i < |s.calls| && s.calls[i].Waiting? { ReceiveInOrder(s, i); }
    case ParkStep(i) => if i < |s.calls| && s.calls[i].Holding? { ParkInOrder(s, i); }
    case Send(i) => if i < |s.calls| && s.calls[i].Sending? { SendInOrder(s, i); }
    case _ => OtherInOrder(s, step);
  }

  /**
   If calls of `SubmitRound` never overlap, each role's submissions for a round are delivered in the order in
   which they were accepted: what was delivered is a prefix of what was accepted.
   */
  lemma {:induction false} DeliveredInOrder(s: System, steps: seq<Step>, k: Key)
    requires InOrder(s) && Sequential(s, steps)
    ensures InOrder(RunSteps(s, steps))
    ensures Filter(ForKey(k), RunSteps(s, steps).delivered) <= Filter(ForKey(k), RunSteps(s, steps).accepted)
    decreases |steps|
  {
    hide Next;
    if |steps| > 0 {
      StepInOrder(s, steps[0]);
      DeliveredInOrder(Next(s, steps[0]), steps[1..], k);
    } else if i :| 0 <= i < |s.calls| && s.calls[i].Holding? {
      assert Ordered(s, [s.calls[i].held], k);
    } else {
      assert Ordered(s, [], k);
    }
  }

  lemma EmptySystemIsInOrder(capacity: nat)
    ensures InOrder(Initial(capacity))
  {
  }

  /** The same for a controller from its start. */
  lemma SeparateCallsKeepOrder(capacity: nat, steps: seq<Step>, k: Key)
    requires Sequential(Initial(capacity), steps)
    ensures var s := RunSteps(Initial(capacity), steps);
            Filter(ForKey(k), s.delivered) <= Filter(ForKey(k), s.accepted)
  {
    EmptySystemIsInOrder(capacity);
    DeliveredInOrder(Initial(capacity), steps, k);
  }

  // ---------------------------------------------------------------- exactly when order is kept

  function Of(k: Key, items: seq<ActionSubmission>): seq<ActionSubmission> { Filter(ForKey(k), items) }

  /** What was delivered for a key is a prefix of what was accepted for it. */
  ghost predicate Orderly(s: System, k: Key) { Of(k, s.delivered) <= Of(k, s.accepted) }

  ghost predicate AlwaysOrderly(s: System, steps: seq<Step>, k: Key)
    decreases |steps|
  {
    Orderly(s, k) && (|steps| > 0 ==> AlwaysOrderly(Next(s, steps[0]), steps[1..], k))
  }

  /** The submissions of a key that have left the queue and are not delivered yet, oldest first. */
  function Line(s: System, k: Key): seq<ActionSubmission> {
    var a, d, q := Of(k, s.accepted), |Of(k, s.delivered)|, |Of(k, s.queue)|;
    if d + q <= |a| then a[d..|a| - q] else []
  }

  /** Delivered, then in line, then queued: everything accepted for a key. */
  ghost predicate Lined(s: System, k: Key) {
    Of(k, s.accepted) == Of(k, s.delivered) + Line(s, k) + Of(k, s.queue)
  }

  /**
   A delivery is in turn: a waiting call gets from the queue what nothing older of its key is in line before, and a
   starting call gets from the parked submissions the one that is first in line.
   */
  ghost predicate InTurn(s: System, step: Step, k: Key) {
    match step
    case Receive(i) =>
      i < |s.calls| && s.calls[i] == Waiting(k) && |s.queue| > 0 && KeyOf(s.queue[0]) == k ==>
        Line(s, k) == [] || Line(s, k)[0] == s.queue[0]
    case TakeStep(i) =>
      i < |s.calls| && s.calls[i] == Starting(k) && Taken(s.pending, k).Some? ==>
        Line(s, k) != [] && Line(s, k)[0] == Taken(s.pending, k).value
    case _ => true
  }

  ghost predicate AllInTurn(s: System, steps: seq<Step>, k: Key)
    decreases |steps|
  {
    |steps| > 0 ==> InTurn(s, steps[0], k) && AllInTurn(Next(s, steps[0]), steps[1..], k)
  }

  /** The line of a key is determined by any way of splitting what was accepted. */
  lemma LineIs(s: System, k: Key, line: seq<ActionSubmission>)
    requires Of(k, s.accepted) == Of(k, s.delivered) + line + Of(k, s.queue)
    ensures Line(s, k) == line && Lined(s, k) && Orderly(s, k)
  {
    hide Of;
    var a, d, q := Of(k, s.accepted), Of(k, s.delivered), Of(k, s.queue);
    assert a[|d|..|a| - |q|] == line;
  }

  lemma LinedIsOrderly(s: System, k: Key)
    requires Lined(s, k)
    ensures Orderly(s, k)
  {
    LineIs(s, k, Line(s, k));
  }

  lemma OfPush(k: Key, items: seq<ActionSubmission>, a: ActionSubmission)
    ensures Of(k, items + [a]) == if KeyOf(a) == k then Of(k, items) + [a] else Of(k, items)
  {
    FilterPush(ForKey(k), items, a);
  }

  /** A delivery keeps the order if and only if it is the first undelivered submission of its key. */
  lemma FirstUndelivered(d: seq<ActionSubmission>, u: seq<ActionSubmission>, a: ActionSubmission)
    ensures d + [a] <= d + u <==> u != [] && u[0] == a
  {
    assert (d + [a])[|d|] == a;
    if u != [] {
      assert (d + u)[|d|] == u[0];
      assert d + [u[0]] <= d + u;
    }
  }

  lemma ReceiveTurn(s: System, i: nat, k: Key)
    requires Lined(s, k) && i < |s.calls| && s.calls[i].Waiting?
    ensures Orderly(Next(s, Receive(i)), k) <==> InTurn(s, Receive(i), k)
    ensures InTurn(s, Receive(i), k) ==> Lined(Next(s, Receive(i)), k)
  {
    hide Next, KeyOf, Of, Line, Filter;
    ReceiveIs(s, i);
    LinedIsOrderly(s, k);
    var t, line := Next(s, Receive(i)), Line(s, k);
    if |s.queue| == 0 {
      LineIs(t, k, line);
    } else {
      var a := s.queue[0];
      QueueOf(s.queue, k);
      if KeyOf(a) != s.calls[i].key {
        LineIs(t, k, if KeyOf(a) == k then line + [a] else line) by {
          assert Of(k, s.delivered) + line + ([a] + Of(k, t.queue)) == Of(k, s.delivered) + (line + [a]) + Of(k, t.queue);
        }
      } else {
        OfPush(k, s.delivered, a);
        if KeyOf(a) == k {
          QueueTurn(s, t, k, line);
        } else {
          LineIs(t, k, line);
        }
      }
    }
  }

  lemma QueueTurn(s: System, t: System, k: Key, line: seq<ActionSubmission>)
    requires |s.queue| > 0 && KeyOf(s.queue[0]) == k && t.accepted == s.accepted
    requires Of(k, s.accepted) == Of(k, s.delivered) + line + ([s.queue[0]] + Of(k, t.queue))
    requires Of(k, t.delivered) == Of(k, s.delivered) + [s.queue[0]]
    ensures Orderly(t, k) <==> line == [] || line[0] == s.queue[0]
    ensures line == [] || line[0] == s.queue[0] ==> Lined(t, k)
  {
    hide KeyOf, Of, Line, Filter, Lined;
    var d, a, q := Of(k, s.delivered), s.queue[0], Of(k, t.queue);
    var u := line + [a];
    assert Of(k, s.accepted) == d + (u + q);
    FirstUndelivered(d, u + q, a);
    if line == [] || line[0] == a {
      assert d + (u + q) == d + [a] + u[1..] + q;
      LineIs(t, k, u[1..]);
    }
  }

  lemma ParkTurn(s: System, t: System, k: Key, line: seq<ActionSubmission>, a: ActionSubmission)
    requires line != [] && t.accepted == s.accepted && t.queue == s.queue
    requires Of(k, s.accepted) == Of(k, s.delivered) + line + Of(k, s.queue)
    requires Of(k, t.delivered) == Of(k, s.delivered) + [a]
    ensures Orderly(t, k) <==> line[0] == a
    ensures line[0] == a ==> Lined(t, k)
  {
    hide KeyOf, Of, Line, Filter, Lined;
    var d, q := Of(k, s.delivered), Of(k, s.queue);
    assert d + line + q == d + (line + q);
    FirstUndelivered(d, line + q, a);
    if line[0] == a {
      assert d + line + q == d + [a] + line[1..] + q;
      LineIs(t, k, line[1..]);
    }
  }

  lemma QueueOf(queue: seq<ActionSubmission>, k: Key)
    requires |queue| > 0
    ensures Of(k, queue) == if KeyOf(queue[0]) == k then [queue[0]] + Of(k, queue[1..]) else Of(k, queue[1..])
  {
    QueueHead(queue, k);
  }

  lemma TakeTurn(s: System, i: nat, k: Key)
    requires Lined(s, k) && Safe(s) && i < |s.calls| && s.calls[i].Starting?
    ensures Orderly(Next(s, TakeStep(i)), k) <==> InTurn(s, TakeStep(i), k)
    ensures InTurn(s, TakeStep(i), k) ==> Lined(Next(s, TakeStep(i)), k)
  {
    hide Next, KeyOf, Of, Line, Filter, Taken, AfterTake, Sum, Accounted, Filed, Orderly;
    TakeIs(s, i);
    LinedIsOrderly(s, k);
    var t, line, key := Next(s, TakeStep(i)), Line(s, k), s.calls[i].key;
    if Taken(s.pending, key).None? {
      LineIs(t, k, line);
    } else {
      var a := Taken(s.pending, key).value;
      TakeCount(s.pending, key, a);
      OfPush(k, s.delivered, a);
      if key == k {
        TakenIsInLine(s, k);
        ParkTurn(s, t, k, line, a);
      } else {
        LineIs(t, k, line);
      }
    }
  }

  /** The line holds exactly what is in hand or parked for its key. */
  lemma LineIsKept(s: System, k: Key, x: ActionSubmission)
    requires Lined(s, k) && Safe(s) && KeyOf(x) == k
    ensures multiset(Line(s, k))[x] == Sum(InHand(x), s.calls) + ParkedCount(s.pending, x)
  {
    hide Next, KeyOf, Line, Filter, Sum, ParkedCount, Filed;
    assert Accounted(s, x);
    FilterCount(ForKey(k), s.accepted, x);
    FilterCount(ForKey(k), s.delivered, x);
    FilterCount(ForKey(k), s.queue, x);
    assert multiset(Of(k, s.delivered) + Line(s, k) + Of(k, s.queue))[x] ==
           multiset(Of(k, s.delivered))[x] + multiset(Line(s, k))[x] + multiset(Of(k, s.queue))[x];
  }

  lemma HandsNotNegative(calls: seq<Call>, x: ActionSubmission)
    ensures Sum(InHand(x), calls) >= 0
    ensures (exists c :: c in calls && c.Holding? && c.held == x) <==> Sum(InHand(x), calls) > 0
  {
    SumNonNegative(InHand(x), calls);
    if forall c | c in calls :: !(c.Holding? && c.held == x) {
      NobodyHolds(calls, x);
    } else {
      var c :| c in calls && c.Holding? && c.held == x;
      assert InHand(x)(c) == 1;
    }
  }

  lemma {:induction false} NobodyHolds(calls: seq<Call>, x: ActionSubmission)
    requires forall c | c in calls :: !(c.Holding? && c.held == x)
    ensures Sum(InHand(x), calls) == 0
  {
    if |calls| > 0 {
      NobodyHolds(calls[1..], x);
    }
  }

  lemma TakenIsInLine(s: System, k: Key)
    requires Lined(s, k) && Safe(s) && Taken(s.pending, k).Some?
    ensures Line(s, k) != []
  {
    hide Line, Accounted, KeyOf, Lined, Of;
    var a := Taken(s.pending, k).value;
    assert a in s.pending[k];
    LineIsKept(s, k, a);
    HandsNotNegative(s.calls, a);
    assert multiset(Line(s, k))[a] > 0;
  }

  /** Nothing is in line exactly when nothing is parked for the key and no call holds anything of it. */
  lemma LineIsEmpty(s: System, k: Key)
    requires Lined(s, k) && Safe(s)
    ensures Line(s, k) == [] <==> ParkedFor(s.pending, k) == [] && forall c | c in s.calls && c.Holding? :: KeyOf(c.held) != k
  {
    hide Line, Accounted, KeyOf, Lined, Of, Sum;
    if Line(s, k) != [] {
      var x := Line(s, k)[0];
      assert x in multiset(Line(s, k));
      LineHasKey(s, k);
      LineIsKept(s, k, x);
      HandsNotNegative(s.calls, x);
    } else {
      forall c | c in s.calls && c.Holding? ensures KeyOf(c.held) != k {
        if KeyOf(c.held) == k {
          LineIsKept(s, k, c.held);
          HandsNotNegative(s.calls, c.held);
        }
      }
      if ParkedFor(s.pending, k) != [] {
        TakenIsInLine(s, k);
      }
    }
  }

  lemma LineHasKey(s: System, k: Key)
    ensures forall x | x in Line(s, k) :: KeyOf(x) == k
  {
    FilterMembers(ForKey(k), s.accepted);
    forall x | x in Line(s, k) ensures KeyOf(x) == k {
      assert x in Of(k, s.accepted);
    }
  }

  /** Steps that deliver nothing leave every line as it is. */
  lemma OtherTurn(s: System, step: Step, k: Key)
    requires Lined(s, k) && !step.Receive? && !step.TakeStep?
    ensures Lined(Next(s, step), k)
  {
    hide KeyOf, Of, Line, Filter, Park, Lined;
    var t, line := Next(s, step), Line(s, k);
    LinedSplit(s, k);
    if t.accepted != s.accepted {
      var a := s.calls[step.i].sent;
      OfPush(k, s.accepted, a);
      OfPush(k, s.queue, a);
      assert Of(k, s.delivered) + line + Of(k, s.queue) + [a] == Of(k, s.delivered) + line + (Of(k, s.queue) + [a]);
    }
    LineIs(t, k, line);
  }

  lemma LinedSplit(s: System, k: Key)
    requires Lined(s, k)
    ensures Of(k, s.accepted) == Of(k, s.delivered) + Line(s, k) + Of(k, s.queue)
  {
  }

  /**
   One step, from a state in order: it keeps the order of a key if and only if it delivers in turn, and then what is
   accepted for the key is again delivered, in line and queued, in this order.
   */
  lemma StepKeepsOrderExactlyWhen(s: System, step: Step, k: Key)
    requires Lined(s, k) && Safe(s)
    ensures Orderly(Next(s, step), k) <==> InTurn(s, step, k)
    ensures InTurn(s, step, k) ==> Lined(Next(s, step), k)
  {
    hide KeyOf, Of, Line, Lined, Safe, Orderly, InTurn, Taken, AfterTake, Park;
    LinedIsOrderly(s, k);
    if step.Receive? && step.i < |s.calls| && s.calls[step.i].Waiting? {
      ReceiveTurn(s, step.i, k);
    } else if step.TakeStep? && step.i < |s.calls| && s.calls[step.i].Starting? {
      TakeTurn(s, step.i, k);
    } else {
      NothingDelivered(s, step, k);
    }
  }

  lemma NothingDelivered(s: System, step: Step, k: Key)
    requires Lined(s, k)
    requires step.Receive? ==> step.i >= |s.calls| || !s.calls[step.i].Waiting?
    requires step.TakeStep? ==> step.i >= |s.calls| || !s.calls[step.i].Starting?
    ensures InTurn(s, step, k) && Lined(Next(s, step), k) && Orderly(Next(s, step), k)
  {
    hide KeyOf, Of, Line, Lined, Orderly, Park;
    if step.Receive? || step.TakeStep? {
      assert Next(s, step) == s;
    } else {
      OtherTurn(s, step, k);
    }
    LinedIsOrderly(Next(s, step), k);
  }

  /**
   Over any run, with any number of overlapping calls: each role's submissions for a round are delivered in the order
   of their acceptance, at every moment of the run, if and only if every delivery of the run is in turn.
   */
  lemma {:induction false} OrderKeptExactlyWhen(s: System, steps: seq<Step>, k: Key)
    requires Lined(s, k) && Safe(s)
    ensures AlwaysOrderly(s, steps, k) <==> AllInTurn(s, steps, k)
    decreases |steps|
  {
    hide Next, Lined, Safe, Orderly, InTurn;
    LinedIsOrderly(s, k);
    if |steps| > 0 {
      StepKeepsOrderExactlyWhen(s, steps[0], k);
      if InTurn(s, steps[0], k) {
        StepIsSafe(s, steps[0]);
        OrderKeptExactlyWhen(Next(s, steps[0]), steps[1..], k);
      }
    }
  }

  lemma StepIsSafe(s: System, step: Step)
    requires Safe(s)
    ensures Safe(Next(s, step))
  {
    hide Next;
    RoutingIsSafe(s, [step]);
    RunOne(s, step);
  }

  /** The same for a controller of any capacity from its start. */
  lemma DeliveryOrderExactlyWhen(capacity: nat, steps: seq<Step>, k: Key)
    ensures AlwaysOrderly(Initial(capacity), steps, k) <==> AllInTurn(Initial(capacity), steps, k)
  {
    EmptySystemIsSafe(capacity);
    OrderKeptExactlyWhen(Initial(capacity), steps, k);
  }

  ghost predicate Distinct(items: seq<ActionSubmission>) {
    forall m, n | 0 <= m < n < |items| :: items[m] != items[n]
  }

  /**
   Where no two accepted submissions are alike, receiving from the queue is in turn if and only if nothing of the key
   is parked and no call holds anything of it.
   */
  lemma DistinctTurn(s: System, i: nat, k: Key)
    requires Lined(s, k) && Safe(s) && i < |s.calls| && s.calls[i] == Waiting(k)
    requires |s.queue| > 0 && KeyOf(s.queue[0]) == k
    requires Distinct(Of(k, s.accepted))
    ensures InTurn(s, Receive(i), k) <==>
            ParkedFor(s.pending, k) == [] && forall c | c in s.calls && c.Holding? :: KeyOf(c.held) != k
  {
    hide KeyOf, Of, Line, Safe;
    LineIsEmpty(s, k);
    QueueOf(s.queue, k);
    var d, line, a := Of(k, s.delivered), Line(s, k), Of(k, s.accepted);
    if line != [] {
      assert a[|d|] == line[0] && a[|d| + |line|] == s.queue[0];
    }
  }

  // ---------------------------------------------------------------- in turn, by what is parked and in hand

  /** Parked for its key, or in the hand of some call. */
  ghost predicate Kept(s: System, x: ActionSubmission) {
    x in ParkedFor(s.pending, KeyOf(x)) || exists c :: c in s.calls && c.Holding? && c.held == x
  }

  /** Accepted earlier, for the same key. */
  ghost predicate Older(s: System, x: ActionSubmission, y: ActionSubmission) {
    var a := Of(KeyOf(y), s.accepted);
    exists m, n :: 0 <= m < n < |a| && a[m] == x && a[n] == y
  }

  /**
   What the controller itself can tell: a waiting call receives for its key only while nothing of it is parked or in
   hand, and a starting call takes a parked submission only while nothing older of its key is.
   */
  ghost predicate Unobstructed(s: System, step: Step, k: Key) {
    match step
    case Receive(i) =>
      i < |s.calls| && s.calls[i] == Waiting(k) && |s.queue| > 0 && KeyOf(s.queue[0]) == k ==>
        forall x | KeyOf(x) == k :: !Kept(s, x)
    case TakeStep(i) =>
      i < |s.calls| && s.calls[i] == Starting(k) && Taken(s.pending, k).Some? ==>
        forall x | KeyOf(x) == k && Kept(s, x) :: !Older(s, x, Taken(s.pending, k).value)
    case _ => true
  }

  ghost predicate AllUnobstructed(s: System, steps: seq<Step>, k: Key)
    decreases |steps|
  {
    |steps| > 0 ==> Unobstructed(s, steps[0], k) && AllUnobstructed(Next(s, steps[0]), steps[1..], k)
  }

  /** What is in line is what is kept. */
  lemma LineIsWhatIsKept(s: System, k: Key, x: ActionSubmission)
    requires Lined(s, k) && Safe(s) && KeyOf(x) == k
    ensures x in Line(s, k) <==> Kept(s, x)
  {
    hide Line, Lined, KeyOf, Accounted, Sum;
    LineIsKept(s, k, x);
    HandsNotNegative(s.calls, x);
    assert x in Line(s, k) <==> multiset(Line(s, k))[x] > 0;
  }

  /** Where a submission in line stands among the accepted ones. */
  lemma LinePlace(s: System, k: Key, j: nat)
    requires Lined(s, k) && j < |Line(s, k)|
    ensures var d := |Of(k, s.delivered)|; d + j < |Of(k, s.accepted)| && Of(k, s.accepted)[d + j] == Line(s, k)[j]
  {
    hide Of, Line;
    var d, line, q := Of(k, s.delivered), Line(s, k), Of(k, s.queue);
    assert (d + line + q)[|d| + j] == line[j];
  }

  /** With distinct submissions, nothing in line is older than the one at its head, and the head is older than the rest. */
  lemma HeadIsOldest(s: System, k: Key, y: ActionSubmission)
    requires Lined(s, k) && Distinct(Of(k, s.accepted)) && y in Line(s, k) && KeyOf(y) == k
    ensures Line(s, k)[0] == y ==> forall x | x in Line(s, k) :: !Older(s, x, y)
    ensures Line(s, k)[0] != y ==> Older(s, Line(s, k)[0], y)
  {
    hide Of, Line, Lined, KeyOf;
    var a, d, line := Of(k, s.accepted), |Of(k, s.delivered)|, Line(s, k);
    LinePlace(s, k, 0);
    if line[0] == y {
      forall x | x in line ensures !Older(s, x, y) {
        var j :| 0 <= j < |line| && line[j] == x;
        LinePlace(s, k, j);
        if m, n :| 0 <= m < n < |a| && a[m] == x && a[n] == y {
          assert false;
        }
      }
    } else {
      var j :| 0 <= j < |line| && line[j] == y;
      LinePlace(s, k, j);
      assert a[d] == line[0] && a[d + j] == y;
    }
  }

  /** Where no two accepted submissions of a key are alike, in turn and unobstructed are the same. */
  lemma TurnIsUnobstructed(s: System, step: Step, k: Key)
    requires Lined(s, k) && Safe(s) && Distinct(Of(k, s.accepted))
    ensures InTurn(s, step, k) <==> Unobstructed(s, step, k)
  {
    hide Lined, Safe, Of, Line, KeyOf, Kept, Older, Taken, Distinct;
    match step
    case Receive(i) =>
      if i < |s.calls| && s.calls[i] == Waiting(k) && |s.queue| > 0 && KeyOf(s.queue[0]) == k {
        ReceiveUnobstructed(s, i, k);
      }
    case TakeStep(i) =>
      if i < |s.calls| && s.calls[i] == Starting(k) && Taken(s.pending, k).Some? {
        TakeUnobstructed(s, i, k);
      }
    case _ =>
  }

  lemma ReceiveUnobstructed(s: System, i: nat, k: Key)
    requires Lined(s, k) && Safe(s) && Distinct(Of(k, s.accepted))
    requires i < |s.calls| && s.calls[i] == Waiting(k) && |s.queue| > 0 && KeyOf(s.queue[0]) == k
    ensures InTurn(s, Receive(i), k) <==> Unobstructed(s, Receive(i), k)
  {
    hide Lined, Safe, Of, Line, KeyOf, Kept;
    DistinctTurn(s, i, k);
    LineIsEmpty(s, k);
    LineHasKey(s, k);
    if Line(s, k) != [] {
      LineIsWhatIsKept(s, k, Line(s, k)[0]);
    } else {
      forall x | KeyOf(x) == k ensures !Kept(s, x) {
        LineIsWhatIsKept(s, k, x);
      }
    }
  }

  lemma TakeUnobstructed(s: System, i: nat, k: Key)
    requires Lined(s, k) && Safe(s) && Distinct(Of(k, s.accepted))
    requires i < |s.calls| && s.calls[i] == Starting(k) && Taken(s.pending, k).Some?
    ensures InTurn(s, TakeStep(i), k) <==> Unobstructed(s, TakeStep(i), k)
  {
    hide Lined, Safe, Of, Line, KeyOf, Kept, Older, Distinct, Taken;
    var a := Taken(s.pending, k).value;
    TakenIsKept(s, k);
    LineIsWhatIsKept(s, k, a);
    LineHasKey(s, k);
    HeadIsOldest(s, k, a);
    if Line(s, k)[0] == a {
      forall x | KeyOf(x) == k && Kept(s, x) ensures !Older(s, x, a) {
        LineIsWhatIsKept(s, k, x);
      }
    } else {
      LineIsWhatIsKept(s, k, Line(s, k)[0]);
    }
  }

  lemma TakenIsKept(s: System, k: Key)
    requires Safe(s) && Taken(s.pending, k).Some?
    ensures var a := Taken(s.pending, k).value; KeyOf(a) == k && Kept(s, a)
  {
    hide KeyOf, Accounted;
    assert Taken(s.pending, k).value in s.pending[k];
  }

  /** What is accepted stays accepted. */
  lemma {:induction false} AcceptedGrows(s: System, steps: seq<Step>)
    ensures s.accepted <= RunSteps(s, steps).accepted
    decreases |steps|
  {
    if |steps| > 0 {
      AcceptedOnce(s, steps[0]);
      hide Next;
      AcceptedGrows(Next(s, steps[0]), steps[1..]);
    }
  }

  lemma AcceptedOnce(s: System, step: Step)
    ensures s.accepted <= Next(s, step).accepted
  {
    hide KeyOf, Park, Taken, AfterTake;
  }

  lemma DistinctBefore(k: Key, a: seq<ActionSubmission>, b: seq<ActionSubmission>)
    requires a <= b && Distinct(Of(k, b))
    ensures Distinct(Of(k, a))
  {
    hide KeyOf;
    assert b == a + b[|a|..];
    FilterConcat(ForKey(k), a, b[|a|..]);
    assert forall m | 0 <= m < |Of(k, a)| :: Of(k, b)[m] == Of(k, a)[m];
  }

  /**
   Over any run in which no two accepted submissions of a key are alike: its submissions are delivered in the order of
   their acceptance, at every moment, if and only if every delivery is unobstructed.
   */
  lemma {:induction false} DistinctOrderExactlyWhen(s: System, steps: seq<Step>, k: Key)
    requires Lined(s, k) && Safe(s) && Distinct(Of(k, RunSteps(s, steps).accepted))
    ensures AlwaysOrderly(s, steps, k) <==> AllUnobstructed(s, steps, k)
    decreases |steps|
  {
    hide Next, Lined, Safe, Orderly, InTurn, Unobstructed, Distinct, Of;
    LinedIsOrderly(s, k);
    AcceptedGrows(s, steps);
    DistinctBefore(k, s.accepted, RunSteps(s, steps).accepted);
    if |steps| > 0 {
      StepKeepsOrderExactlyWhen(s, steps[0], k);
      TurnIsUnobstructed(s, steps[0], k);
      if InTurn(s, steps[0], k) {
        StepIsSafe(s, steps[0]);
        DistinctOrderExactlyWhen(Next(s, steps[0]), steps[1..], k);
      } else {
        assert !Orderly(Next(s, steps[0]), k);
      }
    }
  }

  /** The same for a controller of any capacity from its start. */
  lemma DistinctDeliveriesExactlyWhen(capacity: nat, steps: seq<Step>, k: Key)
    requires Distinct(Of(k, RunSteps(Initial(capacity), steps).accepted))
    ensures AlwaysOrderly(Initial(capacity), steps, k) <==> AllUnobstructed(Initial(capacity), steps, k)
  {
    hide AlwaysOrderly, AllUnobstructed, RunSteps;
    EmptySystemIsSafe(capacity);
    DistinctOrderExactlyWhen(Initial(capacity), steps, k);
  }

  // ---------------------------------------------------------------- the order of what is parked

  /** With the parked submissions first in line, those in hand next: what is in line. */
  lemma OrderedLine(s: System, held: seq<ActionSubmission>, k: Key)
    requires Ordered(s, held, k)
    ensures Line(s, k) == ParkedFor(s.pending, k) + Of(k, held) && Lined(s, k)
  {
    hide Filter, Line, ParkedFor;
    var d, p, h, q := Of(k, s.delivered), ParkedFor(s.pending, k), Of(k, held), Of(k, s.queue);
    assert d + p + h + q == d + (p + h) + q;
    LineIs(s, k, p + h);
  }

  /** Then a waiting call keeps the order if and only if nothing is parked or in hand, or the oldest of it is alike. */
  lemma ReceiveKeepsOrderExactlyWhen(s: System, held: seq<ActionSubmission>, i: nat, k: Key)
    requires Ordered(s, held, k) && i < |s.calls| && s.calls[i] == Waiting(k)
    requires |s.queue| > 0 && KeyOf(s.queue[0]) == k
    ensures var line := ParkedFor(s.pending, k) + Of(k, held);
            Orderly(Next(s, Receive(i)), k) <==> line == [] || line[0] == s.queue[0]
  {
    hide KeyOf, Of, Line, Next, Orderly, ParkedFor, Ordered;
    OrderedLine(s, held, k);
    ReceiveTurn(s, i, k);
  }

  /** A starting call always keeps it: the oldest parked submission is first in line, and parked order is kept. */
  lemma TakeKeepsOrder(s: System, held: seq<ActionSubmission>, i: nat, k: Key)
    requires Ordered(s, held, k) && Filed(s.pending) && i < |s.calls| && s.calls[i].Starting?
    ensures Orderly(Next(s, TakeStep(i)), k) && Ordered(Next(s, TakeStep(i)), held, k)
  {
    hide KeyOf, AfterTake, Taken, Next, ParkedFor, Filed, Filter;
    TakeIs(s, i);
    var t, key := Next(s, TakeStep(i)), s.calls[i].key;
    TakenFirst(s.pending, key);
    if Taken(s.pending, key).Some? {
      var a := Taken(s.pending, key).value;
      TakeCount(s.pending, key, a);
      FilterPush(ForKey(k), s.delivered, a);
      var d, rest, h := Filter(ForKey(k), s.delivered), ParkedFor(AfterTake(s.pending, key), k), Filter(ForKey(k), held);
      assert d + ([a] + rest) + h == d + [a] + rest + h;
    }
    OrderedLine(t, held, k);
    LinedIsOrderly(t, k);
  }

  /** Parking a submission keeps the order of its key if and only if nothing older of the key is in hand. */
  lemma ParkKeepsOrderExactlyWhen(s: System, held: seq<ActionSubmission>, i: nat, j: nat, k: Key)
    requires Ordered(s, held, k) && i < |s.calls| && s.calls[i].Holding?
    requires j < |held| && held[j] == s.calls[i].held && KeyOf(held[j]) == k && held[j] !in held[..j]
    ensures Ordered(Next(s, ParkStep(i)), held[..j] + held[j + 1..], k) <==> Of(k, held[..j]) == []
  {
    hide KeyOf, Filter;
    var t, a := Next(s, ParkStep(i)), held[j];
    var d, p, q := Of(k, s.delivered), ParkedFor(s.pending, k), Of(k, s.queue);
    var before, after := Of(k, held[..j]), Of(k, held[j + 1..]);
    assert held == held[..j] + [a] + held[j + 1..];
    FilterConcat(ForKey(k), held[..j] + [a], held[j + 1..]);
    FilterPush(ForKey(k), held[..j], a);
    FilterConcat(ForKey(k), held[..j], held[j + 1..]);
    assert ParkedFor(t.pending, k) == p + [a];
    Cancelled(d + p, before + [a], [a] + before, after + q);
    assert d + p + (before + [a] + after) + q == d + p + (before + [a]) + (after + q);
    assert d + (p + [a]) + (before + after) + q == d + p + ([a] + before) + (after + q);
    FilterMembers(ForKey(k), held[..j]);
    if before != [] {
      assert (before + [a])[0] == before[0] && before[0] in before;
    }
  }

  lemma Cancelled<T>(a: seq<T>, x: seq<T>, y: seq<T>, b: seq<T>)
    requires |x| == |y|
    ensures a + x + b == a + y + b <==> x == y
  {
    if a + x + b == a + y + b {
      assert x == (a + x + b)[|a|..|a| + |x|];
      assert y == (a + y + b)[|a|..|a| + |y|];
    }
  }

  // ---------------------------------------------------------------- overtaking

  /**
   Overlapping calls may overtake, whatever the capacity of the queue: the second submission of a role is delivered
   while its first one, received by another role's call, lies parked.
   */
  lemma OverlappingCallsOvertake(capacity: nat, mine: Key, other: Key, first: ActionSubmission, second: ActionSubmission)
    requires capacity > 0 && mine != other && KeyOf(first) == mine && KeyOf(second) == mine
    ensures var s := RunSteps(Initial(capacity), [
              CallSubmitRound(other), CallSubmitRound(mine), TakeStep(0), TakeStep(1),
              CallSubmit(first), Send(2), Receive(0), ParkStep(0), CallSubmit(second), Send(3), Receive(1)]);
            && s.accepted == [first, second] && s.delivered == [second]
            && |s.calls| == 4 && s.calls[1] == Returned(mine, second) && ParkedFor(s.pending, mine) == [first]
            && (first != second ==> !Orderly(s, mine))
  {
    hide Next, RunSteps, KeyOf;
    var opening := [CallSubmitRound(other), CallSubmitRound(mine), TakeStep(0), TakeStep(1)];
    var parking := [CallSubmit(first), Send(2), Receive(0), ParkStep(0)];
    var overtaking := [CallSubmit(second), Send(3), Receive(1)];
    BothWait(capacity, mine, other);
    FirstIsParked(capacity, mine, other, first);
    SecondOvertakes(capacity, mine, other, first, second);
    RunOn(Initial(capacity), opening, parking + overtaking);
    RunOn(BothWaiting(capacity, mine, other), parking, overtaking);
    assert opening + (parking + overtaking) == [
      CallSubmitRound(other), CallSubmitRound(mine), TakeStep(0), TakeStep(1),
      CallSubmit(first), Send(2), Receive(0), ParkStep(0), CallSubmit(second), Send(3), Receive(1)];
    TwoOf(mine, first, second);
  }

  lemma TwoOf(k: Key, first: ActionSubmission, second: ActionSubmission)
    requires KeyOf(first) == k && KeyOf(second) == k
    ensures Of(k, [first, second]) == [first, second] && Of(k, [second]) == [second]
  {
    FilterPush(ForKey(k), [first], second);
    OneKept(k, first);
    OneKept(k, second);
    assert [first] + [second] == [first, second];
  }

  lemma {:induction false} RunOn(s: System, a: seq<Step>, b: seq<Step>)
    ensures RunSteps(s, a + b) == RunSteps(RunSteps(s, a), b)
    decreases |a|
  {
    hide Next;
    if |a| == 0 {
      assert a + b == b;
    } else {
      assert (a + b)[1..] == a[1..] + b;
      RunOn(Next(s, a[0]), a[1..], b);
    }
  }

  lemma RunTwo(s: System, a: Step, b: Step)
    ensures RunSteps(s, [a, b]) == Next(Next(s, a), b)
  {
    hide Next, RunSteps;
    RunOn(s, [a], [b]);
    RunOne(s, a);
    RunOne(Next(s, a), b);
    assert [a] + [b] == [a, b];
  }

  function BothWaiting(capacity: nat, mine: Key, other: Key): System {
    System(capacity, false, [], map[], [Waiting(other), Waiting(mine)], [], [])
  }

  function FirstParked(capacity: nat, mine: Key, other: Key, first: ActionSubmission): System {
    System(capacity, false, [], map[mine := [first]], [Waiting(other), Waiting(mine), Accepted(first)], [first], [])
  }

  lemma BothWait(capacity: nat, mine: Key, other: Key)
    ensures RunSteps(Initial(capacity), [CallSubmitRound(other), CallSubmitRound(mine), TakeStep(0), TakeStep(1)]) ==
            BothWaiting(capacity, mine, other)
  {
    hide RunSteps;
    RunTwo(Initial(capacity), CallSubmitRound(other), CallSubmitRound(mine));
    var s := Initial(capacity).(calls := [Starting(other), Starting(mine)]);
    assert Next(Next(Initial(capacity), CallSubmitRound(other)), CallSubmitRound(mine)) == s;
    RunTwo(s, TakeStep(0), TakeStep(1));
    assert Next(s, TakeStep(0)) == s.(calls := [Waiting(other), Starting(mine)]);
    assert Next(s.(calls := [Waiting(other), Starting(mine)]), TakeStep(1)) == BothWaiting(capacity, mine, other);
    RunOn(Initial(capacity), [CallSubmitRound(other), CallSubmitRound(mine)], [TakeStep(0), TakeStep(1)]);
    assert [CallSubmitRound(other), CallSubmitRound(mine)] + [TakeStep(0), TakeStep(1)] ==
           [CallSubmitRound(other), CallSubmitRound(mine), TakeStep(0), TakeStep(1)];
  }

  /** A submission that is sent at once, while nothing is queued. */
  lemma SentAtOnce(s: System, a: ActionSubmission)
    requires !s.closed && s.queue == [] && s.capacity > 0
    ensures RunSteps(s, [CallSubmit(a), Send(|s.calls|)]) ==
            s.(queue := [a], calls := s.calls + [Accepted(a)], accepted := s.accepted + [a])
  {
    hide RunSteps;
    RunTwo(s, CallSubmit(a), Send(|s.calls|));
    var t := Next(s, CallSubmit(a));
    assert t == s.(calls := s.calls + [Sending(a)]);
    SendIs(t, |s.calls|);
    assert (s.calls + [Sending(a)])[|s.calls| := Accepted(a)] == s.calls + [Accepted(a)];
  }

  lemma FirstIsParked(capacity: nat, mine: Key, other: Key, first: ActionSubmission)
    requires capacity > 0 && mine != other && KeyOf(first) == mine
    ensures RunSteps(BothWaiting(capacity, mine, other), [CallSubmit(first), Send(2), Receive(0), ParkStep(0)]) ==
            FirstParked(capacity, mine, other, first)
  {
    hide RunSteps, Next, KeyOf;
    var s := BothWaiting(capacity, mine, other);
    SentAtOnce(s, first);
    var t := s.(queue := [first], calls := s.calls + [Accepted(first)], accepted := [first]);
    assert s.accepted + [first] == [first];
    assert RunSteps(s, [CallSubmit(first), Send(2)]) == t;
    RunTwo(t, Receive(0), ParkStep(0));
    ReceiveIs(t, 0);
    assert [first][1..] == [];
    var held := t.(queue := [], calls := [Holding(other, first), Waiting(mine), Accepted(first)]);
    assert Next(t, Receive(0)) == held;
    assert Next(held, ParkStep(0)) == FirstParked(capacity, mine, other, first) by {
      ParkedAlone(held, mine, other, first);
    }
    RunOn(s, [CallSubmit(first), Send(2)], [Receive(0), ParkStep(0)]);
    assert [CallSubmit(first), Send(2)] + [Receive(0), ParkStep(0)] == [CallSubmit(first), Send(2), Receive(0), ParkStep(0)];
  }

  lemma ParkedAlone(s: System, mine: Key, other: Key, first: ActionSubmission)
    requires |s.calls| > 0 && s.calls[0] == Holding(other, first) && KeyOf(first) == mine && s.pending == map[]
    ensures Next(s, ParkStep(0)) == s.(calls := s.calls[0 := Waiting(other)], pending := map[mine := [first]])
  {
    var none: seq<ActionSubmission> := [];
    assert none + [first] == [first];
    assert Park(s.pending, first) == map[mine := [first]];
  }

  lemma SecondOvertakes(capacity: nat, mine: Key, other: Key, first: ActionSubmission, second: ActionSubmission)
    requires capacity > 0 && mine != other && KeyOf(first) == mine && KeyOf(second) == mine
    ensures var s := RunSteps(FirstParked(capacity, mine, other, first), [CallSubmit(second), Send(3), Receive(1)]);
            && s.accepted == [first, second] && s.delivered == [second]
            && |s.calls| == 4 && s.calls[1] == Returned(mine, second) && ParkedFor(s.pending, mine) == [first]
  {
    hide RunSteps, Next, KeyOf;
    var s := FirstParked(capacity, mine, other, first);
    SentAtOnce(s, second);
    var t := s.(queue := [second], calls := s.calls + [Accepted(second)], accepted := s.accepted + [second]);
    ReceiveIs(t, 1);
    RunOn(s, [CallSubmit(second), Send(3)], [Receive(1)]);
    assert [CallSubmit(second), Send(3)] + [Receive(1)] == [CallSubmit(second), Send(3), Receive(1)];
    RunOne(t, Receive(1));
  }

  lemma RunOne(s: System, a: Step)
    ensures RunSteps(s, [a]) == Next(s, a)
  {
    hide Next;
    assert [a][1..] == [];
  }

  // ---------------------------------------------------------------- what a waiting call can receive

  /** Nothing for this key is queued or about to be sent, and the call has not returned. */
  ghost predicate Unserved(s: System, i: nat, key: Key) {
    && i < |s.calls| && (s.calls[i] == Waiting(key) || (s.calls[i].Holding? && s.calls[i].key == key) || s.calls[i] == GaveUp(key))
    && (forall a | a in s.queue :: KeyOf(a) != key)
    && (forall c | c in s.calls && c.Sending? :: KeyOf(c.sent) != key)
  }

  lemma StepLeavesUnserved(s: System, step: Step, i: nat, key: Key)
    requires Unserved(s, i, key) && (step.CallSubmit? ==> KeyOf(step.a) != key)
    ensures Unserved(Next(s, step), i, key)
  {
    hide KeyOf, AfterTake, Taken, Park;
    assert |s.queue| > 0 ==> s.queue[0] in s.queue;
  }

  /**
   A call that has begun to wait never looks at the parked submissions again: until something new is submitted
   for its key it does not return, whatever lies parked for it.
   */
  lemma {:induction false} WaitingIgnoresParked(s: System, steps: seq<Step>, i: nat, key: Key)
    requires Unserved(s, i, key)
    requires forall step | step in steps && step.CallSubmit? :: KeyOf(step.a) != key
    ensures Unserved(RunSteps(s, steps), i, key)
    decreases |steps|
  {
    hide Next, Unserved, KeyOf;
    if |steps| > 0 {
      assert steps[0] in steps;
      StepLeavesUnserved(s, steps[0], i, key);
      WaitingIgnoresParked(Next(s, steps[0]), steps[1..], i, key);
    }
  }
}
