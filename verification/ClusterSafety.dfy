/** Safety of the protocol over every run. */
module ClusterSafety {
  import opened Models
  import opened Jobs
  import opened Cluster
  import opened ClusterInvariant
  import opened ClusterParent
  import opened ClusterNetwork
  import opened ClusterRunner
  import Dispatch
  import Mailbox
  import Manager

  // ----- the invariant holds of every reachable state

  lemma LookupKeepsInv(st: State, c: nat, mgr: Manager.State, answer: seq<NodeRecord>, counts: map<NodeId, nat>,
                       reason: string)
    requires Inv(st) && CanLookup(st, c, mgr, answer)
    ensures Inv(LookupDone(st, c, mgr, answer, counts, reason))
  {
    hide Inv, Dispatch.Choose, Dispatch.Answered, Send, Refuse, RequestOf;
    var p := st.calls[c].parent;
    Dispatch.ChosenIsEligible(RequestOf(st, c), mgr, answer, counts, if p in st.cursors then st.cursors[p] else 0);
    match Chosen(st, c, mgr, answer, counts)
    case Ok(choice) => ChosenIsNotSelf(st, c, mgr, choice.node); SendKeepsInv(st, c, choice);
    case Err(_) => RefuseKeepsInv(st, c, reason);
  }

  lemma ChosenIsNotSelf(st: State, c: nat, mgr: Manager.State, n: NodeRecord)
    requires CanLook(st, c) && Dispatch.Eligible(mgr, RequestOf(st, c), n)
    ensures n.id != st.calls[c].parent
  {}

  lemma StepKeepsInv(st: State, l: Label)
    requires Inv(st) && Enabled(st, l)
    ensures Inv(After(st, l))
  {
    hide Inv, Submit, Forward, Plan, PlanFails, LocalDone, Begin, LookupDone, Refuse, Send, ReplyAccepted,
         DispatchFails, Deliver, Lose, BeginRun, Execute, Post, AttemptDone, DeliverReport, LoseReport, CanSubmit,
         CanForward, CanLookup, Counted;
    match l
    case SubmitL(p, j, description, specs, ids, planner) => SubmitKeepsInv(st, p, j, description, specs, ids, planner);
    case ForwardL(p, j, d, skills, tools, payload, source, target) =>
      ForwardKeepsInv(st, p, j, d, skills, tools, payload, source, target);
    case PlanL(c, specs) => PlanKeepsInv(st, c, specs);
    case PlanFailsL(c, text) => PlanFailsKeepsInv(st, c, text);
    case LocalDoneL(c, result) => LocalDoneKeepsInv(st, c, result);
    case LocalRaisesL(c) => MoveKeepsInv(st, c, Aborted);
    case BeginL(c, newId) =>
      if st.calls[c].todo[0].Existing? {
        BeginExistingKeepsInv(st, c, newId);
      } else {
        BeginPlannedKeepsInv(st, c, newId);
      }
    case LookupRaisesL(c) => MoveKeepsInv(st, c, Aborted);
    case LookupL(c, mgr, answer, counts, reason) => LookupKeepsInv(st, c, mgr, answer, counts, reason);
    case ReplyAcceptedL(c) => ReplyKeepsInv(st, c);
    case DispatchFailsL(c, reason) => DispatchFailsKeepsInv(st, c, reason);
    case ReturnL(c) => MoveKeepsInv(st, c, Returned);
    case DeliverL(pk) => DeliverKeepsInv(st, pk);
    case LoseL(pk) => LoseKeepsInv(st, pk);
    case BeginRunL(a, i) => BeginRunKeepsInv(st, a, i);
    case ExecuteL(a, i, o) => ExecuteKeepsInv(st, a, i, o);
    case PostL(a, i) => PostKeepsInv(st, a, i);
    case AttemptFailsL(a, i) =>
      if Mailbox.LastAttempt(st.boxes[a].runners[i]) { GiveUpKeepsInv(st, a, i); } else { RetryKeepsInv(st, a, i); }
    case AttemptDoneL(a, i) => AttemptDoneKeepsInv(st, a, i);
    case DeliverReportL(rp) => DeliverReportKeepsInv(st, rp);
    case LoseReportL(rp) => LoseReportKeepsInv(st, rp);
  }

  lemma {:induction false} RunKeepsInv(states: seq<State>, labels: seq<Label>, n: nat)
    requires IsRun(states, labels) && n <= |labels|
    ensures Inv(states[n])
  {
    hide Inv, Enabled, After;
    if n == 0 {
      InitialInv(states[0]);
    } else {
      RunKeepsInv(states, labels, n - 1);
      StepKeepsInv(states[n - 1], labels[n - 1]);
    }
  }

  // ----- one place, one execution

  predicate InNetwork(st: State, s: SubtaskId) {
    exists pk :: pk in st.parcels && pk.msg.sub == s
  }

  predicate SlotHolds(st: State, a: NodeId, s: SubtaskId) {
    a in st.boxes && st.boxes[a].slot.Some? && st.boxes[a].slot.value.sub == s
  }

  predicate QueueHolds(st: State, a: NodeId, s: SubtaskId) {
    a in st.boxes && InQueue(st.boxes[a], s)
  }

  predicate BegunAt(st: State, a: NodeId, s: SubtaskId) {
    (a, s) in st.h.begun
  }

  lemma WhereItIs(st: State, a: NodeId, s: SubtaskId)
    requires Inv(st)
    ensures SlotHolds(st, a, s) ==> PlaceOf(st.h.place, s) == InSlot(a)
    ensures QueueHolds(st, a, s) ==> PlaceOf(st.h.place, s) == Queued(a)
    ensures InNetwork(st, s) ==> PlaceOf(st.h.place, s) == InNet
    ensures BegunAt(st, a, s) ==> PlaceOf(st.h.place, s) == Left(a) || PlaceOf(st.h.place, s) == InSlot(a)
  {
    hide HomesOk, CallsOk, StatusOk, AcksOk, EarlyOk, ReportsOk, RunsOk, AllPlaced, BoxesOk, PlaceOf, Started;
    if a in st.boxes {
      assert BoxFits(a, st.boxes[a], st.h.sent, st.h.place);
    }
  }

  /** No message is in the network twice, no subtask twice in a queue, begun twice or
      executed twice. */
  ghost predicate NoDuplicates(st: State) {
    && (forall pk, qk :: pk in st.parcels && qk in st.parcels && pk.msg.sub == qk.msg.sub ==>
          pk == qk && st.parcels[pk] == 1)
    && (forall a, i, k :: a in st.boxes && 0 <= i < k < |st.boxes[a].queue| ==>
          st.boxes[a].queue[i].sub != st.boxes[a].queue[k].sub)
    && (forall i, k :: 0 <= i < k < |st.h.begun| ==> st.h.begun[i].1 != st.h.begun[k].1)
    && (forall i, k :: 0 <= i < k < |st.h.runs| ==> st.h.runs[i].sub != st.h.runs[k].sub)
  }

  /** Conservation: a subtask's message is in the network at most once, or in one
      queue at one position, or in one slot; it was begun by at most one agent, and
      then it is no longer in the network or in any queue; no executor runs it twice. */
  lemma AtMostOnce(states: seq<State>, labels: seq<Label>, n: nat, s: SubtaskId, a: NodeId, b: NodeId)
    requires IsRun(states, labels) && n <= |labels|
    ensures var st := states[n];
            && (InNetwork(st, s) ==> !SlotHolds(st, a, s) && !QueueHolds(st, a, s) && !BegunAt(st, a, s))
            && (QueueHolds(st, a, s) ==> !SlotHolds(st, b, s) && !BegunAt(st, b, s))
            && (QueueHolds(st, a, s) && QueueHolds(st, b, s) ==> a == b)
            && (SlotHolds(st, a, s) && SlotHolds(st, b, s) ==> a == b)
            && (SlotHolds(st, a, s) && BegunAt(st, b, s) ==> a == b)
            && (BegunAt(st, a, s) && BegunAt(st, b, s) ==> a == b)
    ensures NoDuplicates(states[n])
  {
    hide Inv, Enabled, After, Initial, InNetwork, SlotHolds, QueueHolds, BegunAt, NoDuplicates;
    RunKeepsInv(states, labels, n);
    WhereItIs(states[n], a, s);
    WhereItIs(states[n], b, s);
    NothingTwice(states[n]);
    if BegunAt(states[n], a, s) && BegunAt(states[n], b, s) { BegunOnce(states[n], a, b, s); }
  }

  /** The response to an assign message is true: after a refusal no agent ever holds or
      begins the subtask, and after an acceptance the agent that it was sent to holds it
      or has reported it, or has given up reporting it. */
  lemma ReplyIsTrue(states: seq<State>, labels: seq<Label>, n: nat, s: SubtaskId, a: NodeId)
    requires IsRun(states, labels) && n <= |labels| && s in states[n].replies
    ensures var st := states[n];
            && s in st.h.sent && !InNetwork(st, s)
            && (if st.replies[s]
                then SlotHolds(st, st.h.sent[s].to, s) || QueueHolds(st, st.h.sent[s].to, s)
                     || s in st.h.handled || s in st.h.exhausted
                else !SlotHolds(st, a, s) && !QueueHolds(st, a, s) && !BegunAt(st, a, s))
  {
    hide Inv, Enabled, After, Initial, InNetwork, SlotHolds, QueueHolds, BegunAt, NoDuplicates;
    RunKeepsInv(states, labels, n);
    WhereItIs(states[n], a, s);
    ReplyFits(states[n], s);
  }

  lemma ReplyFits(st: State, s: SubtaskId)
    requires Inv(st) && s in st.replies
    ensures s in st.h.sent && !PlaceOf(st.h.place, s).InNet?
    ensures st.replies[s] <==> Taken(PlaceOf(st.h.place, s))
    ensures st.replies[s] ==> SlotHolds(st, st.h.sent[s].to, s) || QueueHolds(st, st.h.sent[s].to, s)
                              || s in st.h.handled || s in st.h.exhausted
  {
    hide HomesOk, CallsOk, StatusOk, EarlyOk, ReportsOk, RunsOk, AllBoxed, ParcelsOk, BoxesOk, PlaceOf, Started;
    assert PlaceFits(s, PlaceOf(st.h.place, s), st.boxes, st.parcels, st.h.sent);
  }

  lemma NothingTwice(st: State)
    requires Inv(st)
    ensures NoDuplicates(st)
  {
    hide HomesOk, CallsOk, StatusOk, AcksOk, EarlyOk, ReportsOk, AllPlaced, BoxesOk, PlaceOf, Started, RunFits;
    forall a, i, k | a in st.boxes && 0 <= i < k < |st.boxes[a].queue|
      ensures st.boxes[a].queue[i].sub != st.boxes[a].queue[k].sub
    {
      assert BoxFits(a, st.boxes[a], st.h.sent, st.h.place);
    }
  }

  lemma BegunOnce(st: State, a: NodeId, b: NodeId, s: SubtaskId)
    requires NoDuplicates(st) && BegunAt(st, a, s) && BegunAt(st, b, s)
    ensures a == b
  {
    var i :| 0 <= i < |st.h.begun| && st.h.begun[i] == (a, s);
    var k :| 0 <= k < |st.h.begun| && st.h.begun[k] == (b, s);
  }

  /** While the parent holds a subtask RUNNING, and no result of it was handled while
      its dispatch awaited the response, the subtask is in its assignee's slot or
      queue, unless it was given up after two reports of which none arrived. */
  lemma RunningIsHeld(states: seq<State>, labels: seq<Label>, n: nat, a: NodeId, j: JobId, s: SubtaskId)
    requires IsRun(states, labels) && n <= |labels| && RecordAt(states[n].stores, a, j, s).Some?
    ensures var st := states[n];
            var r := RecordAt(st.stores, a, j, s).value;
            r.status.Running? && s !in st.h.early && !(s in st.h.exhausted && s !in st.h.handled) ==>
              r.assignee.Some? && (SlotHolds(st, r.assignee.value, s) || QueueHolds(st, r.assignee.value, s))
  {
    hide Inv, Enabled, After, Initial, RecordAt, SlotHolds, QueueHolds;
    RunKeepsInv(states, labels, n);
    HeldNow(states[n], a, j, s);
  }

  lemma HeldNow(st: State, a: NodeId, j: JobId, s: SubtaskId)
    requires Inv(st) && RecordAt(st.stores, a, j, s).Some?
    ensures var r := RecordAt(st.stores, a, j, s).value;
            r.status.Running? && s !in st.h.early && !(s in st.h.exhausted && s !in st.h.handled) ==>
              r.assignee.Some? && (SlotHolds(st, r.assignee.value, s) || QueueHolds(st, r.assignee.value, s))
  {
    hide CallsOk, RunsOk, BegunOk, EarlyOk, ReportsOk, BoxesOk, AllBoxed, ParcelsOk, SentOk, RecordAt, PlaceOf, InQueue;
    assert Rec(st.stores, st.h.home, s) == RecordAt(st.stores, a, j, s);
    assert PlaceFits(s, PlaceOf(st.h.place, s), st.boxes, st.parcels, st.h.sent);
  }

  // ----- one supervisor

  /** Agent a alone keeps job j, and what agent b or the network holds of it says so. */
  ghost predicate Supervises(st: State, a: NodeId, b: NodeId, j: JobId)
    requires a in st.stores && j in st.stores[a]
  {
    && st.stores[a][j].parent == a
    && (b in st.stores && j in st.stores[b] ==> b == a)
    && (forall pk :: pk in st.parcels && pk.msg.job == j ==> pk.msg.parent == a && pk.to != a)
    && (b in st.boxes && st.boxes[b].slot.Some? && st.boxes[b].slot.value.job == j ==>
          b != a && st.boxes[b].slot.value.parent == a)
    && (b in st.boxes ==> forall i :: 0 <= i < |st.boxes[b].queue| && st.boxes[b].queue[i].job == j ==>
          b != a && st.boxes[b].queue[i].parent == a)
  }

  /** A job lives in one store only, under its parent's id; the assign messages that
      carry it name that agent, and neither its slot nor its queue ever holds it. */
  lemma OneSupervisor(states: seq<State>, labels: seq<Label>, n: nat, a: NodeId, b: NodeId, j: JobId)
    requires IsRun(states, labels) && n <= |labels| && a in states[n].stores && j in states[n].stores[a]
    ensures Supervises(states[n], a, b, j)
  {
    hide Inv, Enabled, After, Initial, Supervises;
    RunKeepsInv(states, labels, n);
    SupervisesNow(states[n], a, b, j);
  }

  lemma SupervisesNow(st: State, a: NodeId, b: NodeId, j: JobId)
    requires Inv(st) && a in st.stores && j in st.stores[a]
    ensures Supervises(st, a, b, j)
  {
    hide CallsOk, RunsOk, BegunOk, EarlyOk, ReportsOk, BoxesOk, AcksOk, StatusOk, PlaceOf, InQueue, RecordAt;
    forall s | s in st.h.sent && st.h.sent[s].msg.job == j
      ensures st.h.sent[s].msg.parent == a && st.h.sent[s].to != a
    {
      HomesGiveRecord(st.stores, st.calls, st.h.home, s);
      RecordInJob(st.stores, st.h.home[s].agent, st.h.home[s].job, s);
    }
    if b in st.boxes { assert BoxFits(b, st.boxes[b], st.h.sent, st.h.place); }
  }

  // ----- no stranded subtask

  /** When a call has returned normally, every subtask it created is RUNNING,
      COMPLETED or FAILED, whatever results arrived while it ran. */
  lemma NoneStranded(states: seq<State>, labels: seq<Label>, n: nat, c: nat, s: SubtaskId)
    requires IsRun(states, labels) && n <= |labels|
    requires c < |states[n].calls| && states[n].calls[c].pc.Returned?
    requires s in states[n].h.home && states[n].h.home[s].call == c
    ensures var r := Rec(states[n].stores, states[n].h.home, s);
            r.Some? && (r.value.status.Running? || r.value.status.Completed? || r.value.status.Failed?)
  {
    hide Inv, Enabled, After, Initial, Rec;
    RunKeepsInv(states, labels, n);
    SettledNow(states[n], c, s);
  }

  lemma SettledNow(st: State, c: nat, s: SubtaskId)
    requires Inv(st) && c < |st.calls| && st.calls[c].pc.Returned?
    requires s in st.h.home && st.h.home[s].call == c
    ensures var r := Rec(st.stores, st.h.home, s);
            r.Some? && (r.value.status.Running? || r.value.status.Completed? || r.value.status.Failed?)
  {
    hide HomesOk, RunsOk, BegunOk, EarlyOk, ReportsOk, BoxesOk, AcksOk, SentOk, PlacesOk, PlaceOf, Rec, Vouched;
    assert CallFits(st.calls[c], c, st.h.home, st.h.sent);
  }

  // ----- the end of a dispatch and early results

  /** When a dispatch resumes, its record is still ASSIGNED exactly when no result of
      it was handled meanwhile; otherwise it is COMPLETED or FAILED. */
  lemma AssignedIffNotEarly(st: State, c: nat)
    requires Inv(st) && CanResume(st, c)
    ensures var s := st.calls[c].pc.sub;
            Rec(st.stores, st.h.home, s).Some?
            && var status := Rec(st.stores, st.h.home, s).value.status;
               (status.Assigned? <==> s !in st.h.early) && (status.Terminal() <==> s in st.h.early)
  {
    hide HomesOk, RunsOk, BegunOk, ReportsOk, BoxesOk, AcksOk, SentOk, PlacesOk, PlaceOf, Rec, Vouched;
    assert CallFits(st.calls[c], c, st.h.home, st.h.sent);
  }

  /** The write that ends a dispatch leaves RUNNING, or FAILED with the reason; before,
      the record was COMPLETED or FAILED if and only if a result had been handled while
      the dispatch awaited the response, and ASSIGNED otherwise. */
  ghost predicate OverwritesIffEarly(st: State, c: nat, reason: string)
    requires CanResume(st, c)
  {
    var s := st.calls[c].pc.sub;
    var before := Rec(st.stores, st.h.home, s);
    && before.Some?
    && Rec(ReplyAccepted(st, c).stores, st.h.home, s) == Some(before.value.(status := Running))
    && Rec(DispatchFails(st, c, reason).stores, st.h.home, s)
       == Some(before.value.(status := Failed, error := Some(reason)))
    && (before.value.status.Terminal() <==> s in st.h.early)
    && (before.value.status.Assigned? <==> s !in st.h.early)
  }

  /** Both writes at the end of a dispatch, RUNNING and FAILED, undo a finished subtask
      exactly when its result came early. */
  lemma EndOfDispatchOverwritesIffEarly(states: seq<State>, labels: seq<Label>, n: nat, c: nat, reason: string)
    requires IsRun(states, labels) && n <= |labels| && CanResume(states[n], c)
    ensures OverwritesIffEarly(states[n], c, reason)
  {
    hide Inv, Enabled, After, Initial, OverwritesIffEarly, CanResume;
    RunKeepsInv(states, labels, n);
    OverwritesNow(states[n], c, reason);
  }

  lemma OverwritesNow(st: State, c: nat, reason: string)
    requires Inv(st) && CanResume(st, c)
    ensures OverwritesIffEarly(st, c, reason)
  {
    AssignedIffNotEarly(st, c);
    var call := st.calls[c];
    var s := call.pc.sub;
    assert CallFits(call, c, st.h.home, st.h.sent);
    HomesGiveRecord(st.stores, st.calls, st.h.home, s);
    hide HomesOk, RunsOk, BegunOk, ReportsOk, BoxesOk, AcksOk, SentOk, PlacesOk, PlaceOf, StatusOk, Write, CallsOk,
         EarlyOk;
    assert RecordAt(st.stores, call.parent, call.job, s).Some?;
    hide Rec, RecordAt;
    OverwritesRecord(st, c, reason);
  }

  lemma OverwritesRecord(st: State, c: nat, reason: string)
    requires CanResume(st, c)
    requires var call := st.calls[c];
             var s := call.pc.sub;
             && s in st.h.home && Rec(st.stores, st.h.home, s).Some?
             && st.h.home[s].agent == call.parent && st.h.home[s].job == call.job
             && RecordAt(st.stores, call.parent, call.job, s).Some?
    ensures var s := st.calls[c].pc.sub;
            var before := Rec(st.stores, st.h.home, s).value;
            && Rec(ReplyAccepted(st, c).stores, st.h.home, s) == Some(before.(status := Running))
            && Rec(DispatchFails(st, c, reason).stores, st.h.home, s)
               == Some(before.(status := Failed, error := Some(reason)))
  {
    hide Rec, RecordAt, Write;
    var call := st.calls[c];
    var s := call.pc.sub;
    FailingTwice(st.stores, call.parent, call.job, s, reason);
    RecAfterWrite(st.stores, st.h.home, s, StartRunning);
    RecAfterWrite(st.stores, st.h.home, s, FailWith(reason));
  }
}
