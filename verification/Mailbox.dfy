/** The child side of an agent (src/mycoagent/node/runtime.py): one slot for the
    work in hand, a bounded queue behind it, and the runner tasks that execute,
    report and hand the slot over. Each function is one stretch of code between
    two suspension points. */
module Mailbox {
  import opened Models

  const REPORT_ATTEMPTS: nat := 2

  datatype Runner =
    | Spawned                      // created, has not read the slot yet
    | Executing(work: ChildWork)
    | Reporting(work: ChildWork, result: ResultMessage, attempt: nat, posted: bool)

  datatype State = State(slot: Option<ChildWork>, queue: seq<AssignMessage>, runners: seq<Runner>)

  datatype Refusal = FromSelf | AgentBusy | QueueFull

  /** What the executor and the upload after it did. */
  datatype Outcome = Finished(summary: string, artifactIds: seq<string>) | Raised(error: string)

  const EMPTY := State(None, [], [])

  function ChildFromAssign(m: AssignMessage): ChildWork {
    ChildWork(m.job, m.sub, m.parent, m.spec.description, m.spec.payload)
  }

  function Status(mb: State): NodeStatus {
    if mb.slot.Some? || |mb.queue| > 0 then Busy else Idle
  }

  /** `_accept_child`: take the slot, queue behind it, or refuse. */
  function Accept(mb: State, self: NodeId, capacity: nat, m: AssignMessage): Result<State, Refusal> {
    if m.parent == self then Err(FromSelf)
    else if mb.slot.None? then
      Ok(mb.(slot := Some(ChildFromAssign(m)), runners := mb.runners + [Spawned]))
    else if capacity == 0 then Err(AgentBusy)
    else if |mb.queue| >= capacity then Err(QueueFull)
    else Ok(mb.(queue := mb.queue + [m]))
  }

  function WithRunner(mb: State, i: nat, r: Runner): State
    requires i < |mb.runners|
  {
    mb.(runners := mb.runners[i := r])
  }

  function WithoutRunner(mb: State, i: nat): State
    requires i < |mb.runners|
  {
    mb.(runners := mb.runners[..i] + mb.runners[i + 1..])
  }

  /** The start of `_run_child`: read the slot, or return when it is empty. */
  function Begin(mb: State, i: nat): State
    requires i < |mb.runners| && mb.runners[i].Spawned?
  {
    if mb.slot.None? then WithoutRunner(mb, i) else WithRunner(mb, i, Executing(mb.slot.value))
  }

  function ResultOf(work: ChildWork, self: NodeId, o: Outcome): ResultMessage {
    match o
    case Finished(summary, ids) => ResultMessage(work.job, work.sub, self, Completed, Some(summary), None, ids)
    case Raised(error) => ResultMessage(work.job, work.sub, self, Failed, None, Some(error), [])
  }

  /** The result tells what the executor did with the work: COMPLETED with its summary and
      artifacts, or FAILED with its error. */
  predicate Reports(m: ResultMessage, work: ChildWork, child: NodeId, o: Outcome) {
    && m.job == work.job && m.sub == work.sub && m.child == child
    && match o
       case Finished(summary, ids) =>
         m.status == Completed && m.result == Some(summary) && m.error == None && m.artifactIds == ids
       case Raised(error) =>
         m.status == Failed && m.result == None && m.error == Some(error) && m.artifactIds == []
  }

  /** The executor has returned or raised; the report is about to be posted. */
  function Execute(mb: State, i: nat, self: NodeId, o: Outcome): State
    requires i < |mb.runners| && mb.runners[i].Executing?
  {
    var work := mb.runners[i].work;
    WithRunner(mb, i, Reporting(work, ResultOf(work, self, o), 0, false))
  }

  function Post(mb: State, i: nat): State
    requires i < |mb.runners| && mb.runners[i].Reporting?
  {
    WithRunner(mb, i, mb.runners[i].(posted := true))
  }

  /** A failed attempt that is not the last one is followed by another. */
  function Retry(mb: State, i: nat): State
    requires i < |mb.runners| && mb.runners[i].Reporting?
  {
    WithRunner(mb, i, mb.runners[i].(attempt := mb.runners[i].attempt + 1, posted := false))
  }

  /** The `finally` of `_run_child`: clear the slot and start the next in the queue. */
  function HandOver(mb: State, i: nat): State
    requires i < |mb.runners|
  {
    var rest := WithoutRunner(mb, i).(slot := None);
    if rest.queue == [] then rest
    else State(Some(ChildFromAssign(rest.queue[0])), rest.queue[1..], rest.runners + [Spawned])
  }

  predicate LastAttempt(r: Runner) {
    r.Reporting? && r.attempt + 1 >= REPORT_ATTEMPTS
  }

  // ----- the invariant

  /** Exactly one runner while the slot is full and none while it is empty; what it
      works on is what the slot holds; nothing waits behind an empty slot; the
      queue keeps to its capacity. */
  predicate Inv(mb: State, self: NodeId, capacity: nat) {
    && (mb.slot.None? ==> mb.runners == [] && mb.queue == [])
    && (mb.slot.Some? ==> |mb.runners| == 1 && (mb.runners[0].Spawned? || mb.runners[0].work == mb.slot.value))
    && |mb.queue| <= capacity
    && (mb.slot.Some? && mb.runners[0].Reporting? ==>
          var r := mb.runners[0];
          r.attempt < REPORT_ATTEMPTS && r.result.job == r.work.job && r.result.sub == r.work.sub
          && r.result.child == self && r.result.status.Terminal())
  }

  // ----- runs

  datatype Event =
    | Arrive(message: AssignMessage)
    | BeginRun(runner: nat)
    | Executed(runner: nat, outcome: Outcome)
    | Posted(runner: nat)
    | AttemptFailed(runner: nat)
    | AttemptDone(runner: nat)

  /** A mailbox with the history of what it accepted and what its runners finished. */
  datatype Log = Log(mb: State, taken: seq<ChildWork>, done: seq<ChildWork>)

  predicate Enabled(mb: State, e: Event) {
    match e
    case Arrive(_) => true
    case BeginRun(i) => i < |mb.runners| && mb.runners[i].Spawned?
    case Executed(i, _) => i < |mb.runners| && mb.runners[i].Executing?
    case Posted(i) => i < |mb.runners| && mb.runners[i].Reporting? && !mb.runners[i].posted
    case AttemptFailed(i) => i < |mb.runners| && mb.runners[i].Reporting? && mb.runners[i].posted
    case AttemptDone(i) => i < |mb.runners| && mb.runners[i].Reporting? && mb.runners[i].posted
  }

  function Step(mb: State, self: NodeId, capacity: nat, e: Event): State
    requires Enabled(mb, e)
  {
    match e
    case Arrive(m) => (match Accept(mb, self, capacity, m) case Ok(next) => next case Err(_) => mb)
    case BeginRun(i) => Begin(mb, i)
    case Executed(i, o) => Execute(mb, i, self, o)
    case Posted(i) => Post(mb, i)
    case AttemptFailed(i) => if LastAttempt(mb.runners[i]) then HandOver(mb, i) else Retry(mb, i)
    case AttemptDone(i) => HandOver(mb, i)
  }

  /** The event ends its runner's life and frees the slot. */
  predicate Frees(mb: State, e: Event)
    requires Enabled(mb, e)
  {
    e.AttemptDone? || (e.AttemptFailed? && LastAttempt(mb.runners[e.runner]))
  }

  function LogStep(l: Log, self: NodeId, capacity: nat, e: Event): Log
    requires Enabled(l.mb, e)
  {
    Log(
      Step(l.mb, self, capacity, e),
      if e.Arrive? && Accept(l.mb, self, capacity, e.message).Ok? then l.taken + [ChildFromAssign(e.message)]
      else l.taken,
      if Frees(l.mb, e) then l.done + [l.mb.runners[e.runner].work] else l.done)
  }

  predicate CanRun(l: Log, self: NodeId, capacity: nat, events: seq<Event>)
    decreases |events|
  {
    events == []
    || (Enabled(l.mb, events[0]) && CanRun(LogStep(l, self, capacity, events[0]), self, capacity, events[1..]))
  }

  function RunAll(l: Log, self: NodeId, capacity: nat, events: seq<Event>): Log
    requires CanRun(l, self, capacity, events)
    decreases |events|
  {
    if events == [] then l else RunAll(LogStep(l, self, capacity, events[0]), self, capacity, events[1..])
  }

  function Works(queue: seq<AssignMessage>): (ws: seq<ChildWork>)
    ensures |ws| == |queue| && forall i :: 0 <= i < |queue| ==> ws[i] == ChildFromAssign(queue[i])
  {
    seq(|queue|, i requires 0 <= i < |queue| => ChildFromAssign(queue[i]))
  }

  function InHand(mb: State): seq<ChildWork> {
    if mb.slot.Some? then [mb.slot.value] else []
  }

  /** First in, first out: what was accepted is what is finished, then the work in
      the slot, then the queue. */
  predicate Fifo(l: Log) {
    l.taken == l.done + InHand(l.mb) + Works(l.mb.queue)
  }

  lemma StepKeepsInv(mb: State, self: NodeId, capacity: nat, e: Event)
    requires Inv(mb, self, capacity) && Enabled(mb, e)
    ensures Inv(Step(mb, self, capacity, e), self, capacity)
  {
    if e.Arrive? {
    } else {
      assert e.runner == 0;
      assert mb.runners[..0] + mb.runners[1..] == [];
    }
  }

  lemma StepKeepsFifo(l: Log, self: NodeId, capacity: nat, e: Event)
    requires Inv(l.mb, self, capacity) && Fifo(l) && Enabled(l.mb, e)
    ensures Fifo(LogStep(l, self, capacity, e))
  {
    if e.Arrive? {
      ArrivalKeepsFifo(l, self, capacity, e.message);
    } else if Frees(l.mb, e) {
      FreeingKeepsFifo(l, self, capacity, e);
    } else {
      hide Works;
    }
  }

  lemma ArrivalKeepsFifo(l: Log, self: NodeId, capacity: nat, m: AssignMessage)
    requires Inv(l.mb, self, capacity) && Fifo(l)
    ensures Fifo(LogStep(l, self, capacity, Arrive(m)))
  {
    var q, next := l.mb.queue, LogStep(l, self, capacity, Arrive(m));
    if l.mb.slot.None? {
      assert Works(q) == [] && Works(next.mb.queue) == [];
    } else if Accept(l.mb, self, capacity, m).Ok? {
      assert Works(next.mb.queue) == Works(q) + [ChildFromAssign(m)];
    }
  }

  lemma FreeingKeepsFifo(l: Log, self: NodeId, capacity: nat, e: Event)
    requires Inv(l.mb, self, capacity) && Fifo(l) && Enabled(l.mb, e) && !e.Arrive? && Frees(l.mb, e)
    ensures Fifo(LogStep(l, self, capacity, e))
  {
    WorksFirst(l.mb.queue);
    hide Works, ChildFromAssign;
    assert e.runner == 0 && l.mb.runners[0].work == l.mb.slot.value;
  }

  lemma WorksFirst(queue: seq<AssignMessage>)
    ensures Works([]) == []
    ensures queue != [] ==> Works(queue) == [ChildFromAssign(queue[0])] + Works(queue[1..])
  {}

  /** Over every interleaving of arrivals and runner steps from the empty mailbox:
      the invariant, FIFO order, the bound on outstanding work, and BUSY exactly
      while work is outstanding. */
  lemma {:induction false} EveryRun(l: Log, self: NodeId, capacity: nat, events: seq<Event>)
    requires Inv(l.mb, self, capacity) && Fifo(l) && CanRun(l, self, capacity, events)
    ensures var end := RunAll(l, self, capacity, events);
            && Inv(end.mb, self, capacity) && Fifo(end)
            && |end.taken| - |end.done| <= 1 + capacity
            && (Status(end.mb) == Busy <==> |end.taken| > |end.done|)
    decreases |events|
  {
    if events != [] {
      StepKeepsInv(l.mb, self, capacity, events[0]);
      StepKeepsFifo(l, self, capacity, events[0]);
      EveryRun(LogStep(l, self, capacity, events[0]), self, capacity, events[1..]);
    }
  }

  /** An assignment is refused exactly when it comes from the agent itself or finds
      the slot taken and no room behind it; a refusal changes nothing. */
  lemma RefusalIsHarmless(mb: State, self: NodeId, capacity: nat, m: AssignMessage)
    requires Inv(mb, self, capacity)
    ensures Accept(mb, self, capacity, m).Err?
       <==> m.parent == self || |InHand(mb)| + |mb.queue| == 1 + capacity
    ensures Accept(mb, self, capacity, m) == Err(FromSelf) <==> m.parent == self
    ensures Accept(mb, self, capacity, m) == Err(AgentBusy) <==> m.parent != self && mb.slot.Some? && capacity == 0
    ensures Accept(mb, self, capacity, m) == Err(QueueFull)
       <==> m.parent != self && |mb.queue| == capacity && capacity > 0
    ensures Accept(mb, self, capacity, m).Err? ==> Step(mb, self, capacity, Arrive(m)) == mb
  {}

  /** A result is posted twice if the first exchange fails; only when the second fails
      too does the agent give up and hand the slot over. */
  lemma TwoReportsThenHandOver(l: Log, self: NodeId, capacity: nat)
    requires Inv(l.mb, self, capacity) && l.mb.slot.Some? && l.mb.runners[0].Reporting?
    requires l.mb.runners[0].attempt == 0 && !l.mb.runners[0].posted
    ensures var first, both := [Posted(0), AttemptFailed(0), Posted(0)],
                               [Posted(0), AttemptFailed(0), Posted(0), AttemptFailed(0)];
            && CanRun(l, self, capacity, both)
            && CanRun(l, self, capacity, first)
            && var mid, end := RunAll(l, self, capacity, first), RunAll(l, self, capacity, both);
               && mid.mb.slot == l.mb.slot && mid.done == l.done
               && mid.mb.runners == [Reporting(l.mb.slot.value, l.mb.runners[0].result, 1, true)]
               && end.done == l.done + [l.mb.slot.value]
               && |end.mb.queue| == if l.mb.queue == [] then 0 else |l.mb.queue| - 1
  {
    var r := l.mb.runners[0];
    assert l.mb.runners == [r];
    var l1 := LogStep(l, self, capacity, Posted(0));
    var l2 := LogStep(l1, self, capacity, AttemptFailed(0));
    var l3 := LogStep(l2, self, capacity, Posted(0));
    Follow(l, self, capacity, Posted(0), []);
    Follow(l, self, capacity, Posted(0), [AttemptFailed(0), Posted(0)]);
    Follow(l, self, capacity, Posted(0), [AttemptFailed(0), Posted(0), AttemptFailed(0)]);
    Follow(l1, self, capacity, AttemptFailed(0), [Posted(0)]);
    Follow(l1, self, capacity, AttemptFailed(0), [Posted(0), AttemptFailed(0)]);
    Follow(l2, self, capacity, Posted(0), []);
    Follow(l2, self, capacity, Posted(0), [AttemptFailed(0)]);
    Follow(l3, self, capacity, AttemptFailed(0), []);
  }

  lemma Follow(l: Log, self: NodeId, capacity: nat, e: Event, es: seq<Event>)
    requires Enabled(l.mb, e) && CanRun(LogStep(l, self, capacity, e), self, capacity, es)
    ensures CanRun(l, self, capacity, [e] + es)
    ensures RunAll(l, self, capacity, [e] + es) == RunAll(LogStep(l, self, capacity, e), self, capacity, es)
  {
    assert ([e] + es)[1..] == es;
  }
}
