/** What each step leaves alone. The proofs about runs take from here whatever a step
    does not concern. */
module ClusterFrames {
  import opened Models
  import opened Jobs
  import opened Cluster
  import Dispatch
  import Mailbox
  import Scheduler

  /** The step may write to a store. */
  predicate WritesStore(l: Label) {
    l.SubmitL? || l.PlanFailsL? || l.LocalDoneL? || l.BeginL? || l.LookupL? || l.ReplyAcceptedL? || l.DispatchFailsL?
    || l.DeliverReportL?
  }

  /** Calls are only added, and none changes what it dispatches for, what it excludes
      or its target. */
  ghost predicate TermsKept(before: seq<Call>, after: seq<Call>) {
    && |before| <= |after|
    && forall c :: 0 <= c < |before| ==>
         after[c].parent == before[c].parent && after[c].job == before[c].job
         && after[c].exclude == before[c].exclude && after[c].target == before[c].target
  }

  /** Whoever awaits a response afterwards did so before. */
  ghost predicate AwaitsNoMore(before: seq<Call>, after: seq<Call>) {
    forall c :: 0 <= c < |after| && after[c].pc.Awaiting? ==> c < |before| && before[c].pc == after[c].pc
  }

  /** No call is aborted that was not. */
  ghost predicate AbortsNoMore(before: seq<Call>, after: seq<Call>) {
    forall c :: 0 <= c < |after| && after[c].pc.Aborted? ==> c < |before| && before[c].pc.Aborted?
  }

  /** Every call has the same subtasks left to dispatch. */
  ghost predicate TodosKept(before: seq<Call>, after: seq<Call>) {
    |before| <= |after| && forall c :: 0 <= c < |before| ==> after[c].todo == before[c].todo
  }

  /** A step of a call moves no other call, and none that is over. */
  ghost predicate MovesOne(l: Label, before: seq<Call>, after: seq<Call>) {
    |before| <= |after|
    && forall c :: 0 <= c < |before| && (before[c].pc.Over() || !l.Moves(c)) ==> after[c] == before[c]
  }

  /** No call goes back to the planner or to its own executor. */
  ghost predicate EntersNone(l: Label, before: seq<Call>, after: seq<Call>) {
    |before| <= |after|
    && forall c :: 0 <= c < |before| && l.Moves(c) ==> !after[c].pc.Planning? && !after[c].pc.Local?
  }

  /** All that holds of the calls. */
  ghost predicate CallsFrame(l: Label, before: seq<Call>, after: seq<Call>) {
    && TermsKept(before, after) && MovesOne(l, before, after) && EntersNone(l, before, after)
    && (l.SubmitL? || l.ForwardL? || |after| == |before|)
    && (l.PlanL? || l.BeginL? || TodosKept(before, after))
    && (l.LookupL? || AwaitsNoMore(before, after))
    && (l.LocalRaisesL? || l.LookupRaisesL? || AbortsNoMore(before, after))
    && (l.OfCall() || after == before)
  }

  ghost predicate SameTraffic(st: State, next: State) {
    && next.boxes == st.boxes && next.parcels == st.parcels && next.reports == st.reports
    && next.acks == st.acks && next.replies == st.replies && next.h.place == st.h.place
  }

  /** All that a step of this kind leaves as it was. */
  ghost predicate Frame(st: State, l: Label, next: State) {
    && next.config == st.config
    && CallsFrame(l, st.calls, next.calls) && (l.LookupL? || next.cursors == st.cursors)
    && (l.OfCall() && !l.LookupL? ==> SameTraffic(st, next))
    && (WritesStore(l) || next.stores == st.stores) && (l.SubmitL? || l.BeginL? || next.h.home == st.h.home)
    && (l.LookupL? || next.h.sent == st.h.sent)
    && (l.ExecuteL? || next.h.runs == st.h.runs) && st.h.runs <= next.h.runs
    && (l.DeliverReportL? || (next.h.handled == st.h.handled && next.h.early == st.h.early))
    && (l.DeliverReportL? || l.ReplyAcceptedL? || l.DispatchFailsL? || next.h.covered == st.h.covered)
    && (l.AttemptFailsL? || next.h.exhausted == st.h.exhausted)
  }

  lemma NoCallMoves(calls: seq<Call>)
    ensures forall l: Label :: !l.OfCall() ==> CallsFrame(l, calls, calls)
  {}

  lemma EntryFrame(st: State, l: Label)
    requires Enabled(st, l) && (l.SubmitL? || l.ForwardL?)
    ensures Frame(st, l, After(st, l))
  {
    hide CanSubmit, CanForward, Create, Todos, ForwardPayload, SourceAssignee, LookupDone, CanLookup, Counted;
  }

  lemma PlanningFrame(st: State, c: nat, specs: seq<SubtaskSpec>, text: string)
    requires CanPlan(st, c)
    ensures Frame(st, PlanL(c, specs), Plan(st, c, specs)) && Frame(st, PlanFailsL(c, text), PlanFails(st, c, text))
  {
    hide Fail;
  }

  lemma LocalFrame(st: State, c: nat, result: string)
    requires CanEndLocal(st, c)
    ensures Frame(st, LocalDoneL(c, result), LocalDone(st, c, result)) && Frame(st, LocalRaisesL(c), LocalRaises(st, c))
  {
    hide CompleteLocal;
  }

  lemma OneCallMoves(l: Label, calls: seq<Call>, c: nat, call: Call)
    requires c < |calls| && l.Moves(c) && !calls[c].pc.Over()
    requires call.parent == calls[c].parent && call.job == calls[c].job && call.exclude == calls[c].exclude
    requires call.target == calls[c].target && !call.pc.Planning? && !call.pc.Local?
    requires l.PlanL? || l.BeginL? || call.todo == calls[c].todo
    requires l.LookupL? || !call.pc.Awaiting?
    requires l.LocalRaisesL? || l.LookupRaisesL? || !call.pc.Aborted?
    ensures CallsFrame(l, calls, calls[c := call])
  {}

  lemma BeginFrame(st: State, c: nat, newId: SubtaskId)
    requires CanBegin(st, c, newId)
    ensures Frame(st, BeginL(c, newId), Begin(st, c, newId))
  {
    hide Write, AddSubtask, WorksOn, CallsFrame;
    OneCallMoves(BeginL(c, newId), st.calls, c, Begin(st, c, newId).calls[c]);
  }

  lemma SendFrame(st: State, c: nat, choice: Scheduler.Choice, l: Label)
    requires CanLook(st, c) && l.LookupL? && l.c == c
    ensures Frame(st, l, Send(st, c, choice))
  {
    hide Write, MessageOf;
  }

  lemma RefuseFrame(st: State, c: nat, reason: string, l: Label)
    requires CanLook(st, c) && l.LookupL? && l.c == c
    ensures Frame(st, l, Refuse(st, c, reason))
  {
    hide Write;
  }

  lemma MoveFrame(st: State, c: nat)
    ensures CanLook(st, c) ==> Frame(st, LookupRaisesL(c), LookupRaises(st, c))
    ensures CanReturn(st, c) ==> Frame(st, ReturnL(c), Return(st, c))
  {}

  lemma ResumeFrame(st: State, c: nat, reason: string)
    requires CanResume(st, c)
    ensures Frame(st, ReplyAcceptedL(c), ReplyAccepted(st, c))
    ensures Frame(st, DispatchFailsL(c, reason), DispatchFails(st, c, reason))
  {
    hide Write;
  }

  lemma DeliverFrame(st: State, pk: Parcel)
    requires CanDeliver(st, pk)
    ensures Frame(st, DeliverL(pk), Deliver(st, pk))
  {
    hide Mailbox.Accept, CallsFrame;
    NoCallMoves(st.calls);
  }

  lemma LossFrame(st: State, pk: Parcel, rp: Report)
    ensures Frame(st, LoseL(pk), Lose(st, pk)) && Frame(st, LoseReportL(rp), LoseReport(st, rp))
  {
    hide CallsFrame;
    NoCallMoves(st.calls);
  }

  lemma RunnerFrame(st: State, a: NodeId, i: nat, o: Mailbox.Outcome)
    ensures CanBeginRun(st, a, i) ==> Frame(st, BeginRunL(a, i), BeginRun(st, a, i))
    ensures CanExecute(st, a, i) ==> Frame(st, ExecuteL(a, i, o), Execute(st, a, i, o))
    ensures CanPost(st, a, i) ==> Frame(st, PostL(a, i), Post(st, a, i))
  {
    hide Mailbox.Begin, Mailbox.Execute, Mailbox.Post, CallsFrame;
    NoCallMoves(st.calls);
  }

  lemma AttemptFrame(st: State, a: NodeId, i: nat)
    ensures CanEndAttempt(st, a, i) ==> Frame(st, AttemptFailsL(a, i), AttemptFails(st, a, i))
    ensures CanFinish(st, a, i) ==> Frame(st, AttemptDoneL(a, i), AttemptDone(st, a, i))
  {
    hide Mailbox.HandOver, Mailbox.Retry, Moved, CallsFrame;
    NoCallMoves(st.calls);
  }

  lemma ReportFrame(st: State, rp: Report)
    requires CanReport(st, rp)
    ensures Frame(st, DeliverReportL(rp), DeliverReport(st, rp))
  {
    hide Write, RecordAt, Awaited, CallsFrame;
    NoCallMoves(st.calls);
  }

  const NO_SPEC := SubtaskSpec("", [], [], map[], None, None, None)
  const NO_PARCEL := Parcel("", AssignMessage("", "", "", NO_SPEC))
  const NO_REPORT := Report("", ResultMessage("", "", "", Completed, None, None, []), 0)

  lemma StepFrame(st: State, l: Label)
    requires Enabled(st, l)
    ensures Frame(st, l, After(st, l))
  {
    hide Frame, Submit, Forward, Plan, PlanFails, LocalDone, LocalRaises, Begin, Send, Refuse, LookupRaises, Chosen,
         ReplyAccepted, DispatchFails, Return, Deliver, Lose, BeginRun, Execute, Post, AttemptFails, AttemptDone,
         DeliverReport, LoseReport, CanSubmit, CanForward, Counted, Dispatch.Answered, CanFinish;
    match l
    case SubmitL(_, _, _, _, _, _) => EntryFrame(st, l);
    case ForwardL(_, _, _, _, _, _, _, _) => EntryFrame(st, l);
    case PlanL(c, specs) => PlanningFrame(st, c, specs, "");
    case PlanFailsL(c, text) => PlanningFrame(st, c, [], text);
    case LocalDoneL(c, result) => LocalFrame(st, c, result);
    case LocalRaisesL(c) => LocalFrame(st, c, "");
    case BeginL(c, newId) => BeginFrame(st, c, newId);
    case LookupRaisesL(c) => MoveFrame(st, c);
    case LookupL(c, mgr, answer, counts, reason) =>
      match Chosen(st, c, mgr, answer, counts) {
        case Ok(choice) => SendFrame(st, c, choice, l);
        case Err(_) => RefuseFrame(st, c, reason, l);
      }
    case ReplyAcceptedL(c) => ResumeFrame(st, c, "");
    case DispatchFailsL(c, reason) => ResumeFrame(st, c, reason);
    case ReturnL(c) => MoveFrame(st, c);
    case DeliverL(pk) => DeliverFrame(st, pk);
    case LoseL(pk) => LossFrame(st, pk, NO_REPORT);
    case BeginRunL(a, i) => RunnerFrame(st, a, i, Mailbox.Raised(""));
    case ExecuteL(a, i, o) => RunnerFrame(st, a, i, o);
    case PostL(a, i) => RunnerFrame(st, a, i, Mailbox.Raised(""));
    case AttemptFailsL(a, i) => AttemptFrame(st, a, i);
    case AttemptDoneL(a, i) => AttemptFrame(st, a, i);
    case DeliverReportL(rp) => ReportFrame(st, rp);
    case LoseReportL(rp) => LossFrame(st, NO_PARCEL, rp);
  }
}
