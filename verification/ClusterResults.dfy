/** What a handled result leaves behind: the record says what the executor's run said, but
    for the status and error that the end of its dispatch may write over it. */
module ClusterResults {
  import opened Models
  import opened Jobs
  import opened Cluster
  import opened ClusterFrames
  import opened ClusterInvariant
  import opened ClusterSafety
  import ClusterParent
  import ClusterRunner
  import Dispatch
  import Manager

  /** The record holds everything the result says. */
  predicate Tells(r: SubtaskRecord, m: ResultMessage) {
    && r.status == m.status && r.result == m.result && r.error == m.error
    && r.assignee == Some(m.child) && r.artifactIds == m.artifactIds
  }

  /** The record holds the result, under a write that ended the dispatch: RUNNING, or
      FAILED with the reason. */
  predicate TellsUnder(r: SubtaskRecord, m: ResultMessage, running: bool) {
    && r.result == m.result && r.assignee == Some(m.child) && r.artifactIds == m.artifactIds
    && if running then r.status.Running? && r.error == m.error else r.status.Failed? && r.error.Some?
  }

  /** What the record says of the result, given what has happened to it. */
  predicate Says(r: SubtaskRecord, m: ResultMessage, covered: map<SubtaskId, bool>) {
    if m.sub in covered then TellsUnder(r, m, covered[m.sub]) else Tells(r, m)
  }

  /** The record of the subtask tells what a finished run of it said. */
  ghost predicate Told(st: State, s: SubtaskId) {
    exists m :: m in st.h.runs && m.sub == s && Rec(st.stores, st.h.home, s).Some?
                && Says(Rec(st.stores, st.h.home, s).value, m, st.h.covered)
  }

  /** No result is covered while its dispatch still awaits the response. */
  predicate Uncovered(calls: seq<Call>, covered: map<SubtaskId, bool>) {
    forall c :: 0 <= c < |calls| && calls[c].pc.Awaiting? ==> calls[c].pc.sub !in covered
  }

  ghost predicate AllTold(st: State) {
    && (forall s :: s in st.h.handled ==> Told(st, s))
    && (forall s :: s in st.h.covered ==> s in st.h.early && s in st.h.handled)
    && Uncovered(st.calls, st.h.covered)
  }

  /** A step that handles no report and leaves the records of handled results alone. */
  ghost predicate Calm(st: State, next: State) {
    && next.h.handled == st.h.handled && next.h.early == st.h.early && next.h.covered == st.h.covered
    && (forall m :: m in st.h.runs ==> m in next.h.runs)
    && (forall s :: s in st.h.handled ==> Rec(next.stores, next.h.home, s) == Rec(st.stores, st.h.home, s))
    && (forall c :: 0 <= c < |next.calls| && next.calls[c].pc.Awaiting? ==>
          (c < |st.calls| && st.calls[c].pc == next.calls[c].pc) || next.calls[c].pc.sub !in st.h.handled)
  }

  lemma CalmKeepsTold(st: State, next: State)
    requires AllTold(st) && Calm(st, next)
    ensures AllTold(next)
  {
    hide Rec, Says;
    forall s | s in next.h.handled ensures Told(next, s) {
      assert Told(st, s);
    }
  }

  // ----- the parent's steps are calm

  /** The subtask that a call looks up or awaits is its own; no result of one that is
      looked up has been handled, and one handled for one that is awaited came early. */
  lemma OwnSubtask(st: State, c: nat, s: SubtaskId)
    requires Inv(st) && c < |st.calls| && (st.calls[c].pc == Looking(s) || st.calls[c].pc == Awaiting(s))
    ensures st.calls[c].pc.Looking? ==> s !in st.h.handled
    ensures st.calls[c].pc.Awaiting? && s in st.h.handled ==> s in st.h.early
    ensures s in st.h.home && Rec(st.stores, st.h.home, s).Some?
    ensures st.h.home[s].agent == st.calls[c].parent && st.h.home[s].job == st.calls[c].job
  {
    hide SentOk, BoxesOk, PlacesOk, RunsOk, BegunOk, ReportsOk, StatusOk, RecordAt;
    assert CallFits(st.calls[c], c, st.h.home, st.h.sent);
  }

  /** The write of a call leaves every other handled record alone. */
  lemma OthersStay(st: State, c: nat, s: SubtaskId, change: Change, t: SubtaskId)
    requires Inv(st) && c < |st.calls| && (st.calls[c].pc == Looking(s) || st.calls[c].pc == Awaiting(s))
    requires t in st.h.handled && t != s
    ensures Rec(Write(st.stores, st.calls[c].parent, st.calls[c].job, s, change), st.h.home, t)
         == Rec(st.stores, st.h.home, t)
  {
    hide Inv, Write, Rec;
    OwnSubtask(st, c, s);
    ClusterParent.RecAfterWrite(st.stores, st.h.home, s, change);
    HandledHasHome(st, t);
  }

  lemma LookupIsCalm(st: State, c: nat, mgr: Manager.State, answer: seq<NodeRecord>, counts: map<NodeId, nat>,
                     reason: string)
    requires Inv(st) && CanLookup(st, c, mgr, answer)
    ensures Calm(st, LookupDone(st, c, mgr, answer, counts, reason))
  {
    hide Inv, Rec, Write, Chosen, Dispatch.Answered, MessageOf, RequestOf;
    var s := st.calls[c].pc.sub;
    OwnSubtask(st, c, s);
    match Chosen(st, c, mgr, answer, counts)
    case Ok(choice) =>
      forall t | t in st.h.handled
        ensures Rec(Send(st, c, choice).stores, st.h.home, t) == Rec(st.stores, st.h.home, t)
      {
        OthersStay(st, c, s, Assign(choice.node.id), t);
      }
    case Err(_) =>
      forall t | t in st.h.handled
        ensures Rec(Refuse(st, c, reason).stores, st.h.home, t) == Rec(st.stores, st.h.home, t)
      {
        OthersStay(st, c, s, FailWith(reason), t);
      }
  }

  /** The end of a dispatch covers the result if one has been handled. */
  ghost predicate Covers(st: State, next: State, s: SubtaskId, change: Change, running: bool) {
    && next.h == Covering(st.h, s, running)
    && (forall c :: 0 <= c < |next.calls| && next.calls[c].pc.Awaiting? ==>
          c < |st.calls| && st.calls[c].pc == next.calls[c].pc && next.calls[c].pc.sub != s)
    && Rec(st.stores, st.h.home, s).Some?
    && Rec(next.stores, st.h.home, s) == Some(Amend(Rec(st.stores, st.h.home, s).value, change))
    && (forall t :: t in st.h.handled && t != s ==> Rec(next.stores, st.h.home, t) == Rec(st.stores, st.h.home, t))
  }

  lemma OneAwaits(st: State, c: nat)
    requires Inv(st) && CanResume(st, c)
    ensures forall k :: 0 <= k < |st.calls| && k != c ==> st.calls[k].pc != st.calls[c].pc
  {
    hide HomesOk, SentOk, BoxesOk, PlacesOk, RunsOk, BegunOk, ReportsOk, AcksOk, EarlyOk, StatusOk;
    forall k | 0 <= k < |st.calls| && k != c ensures st.calls[k].pc != st.calls[c].pc {
      assert CallFits(st.calls[k], k, st.h.home, st.h.sent) && CallFits(st.calls[c], c, st.h.home, st.h.sent);
    }
  }

  lemma ResumeCovers(st: State, c: nat, reason: string)
    requires Inv(st) && CanResume(st, c)
    ensures Covers(st, ReplyAccepted(st, c), st.calls[c].pc.sub, StartRunning, true)
    ensures Covers(st, DispatchFails(st, c, reason), st.calls[c].pc.sub, FailWith(reason), false)
  {
    hide Inv, Rec, Write, Amend, Covering;
    var call := st.calls[c];
    var s := call.pc.sub;
    OwnSubtask(st, c, s);
    OneAwaits(st, c);
    assert RecordAt(st.stores, call.parent, call.job, s).Some? by { RecIsRecordAt(st, s); }
    hide RecordAt;
    ClusterParent.FailingTwice(st.stores, call.parent, call.job, s, reason);
    ClusterParent.RecAfterWrite(st.stores, st.h.home, s, StartRunning);
    ClusterParent.RecAfterWrite(st.stores, st.h.home, s, FailWith(reason));
    forall t | t in st.h.handled && t != s
      ensures Rec(ReplyAccepted(st, c).stores, st.h.home, t) == Rec(st.stores, st.h.home, t)
      ensures Rec(DispatchFails(st, c, reason).stores, st.h.home, t) == Rec(st.stores, st.h.home, t)
    {
      OthersStay(st, c, s, StartRunning, t);
      OthersStay(st, c, s, FailWith(reason), t);
    }
  }

  lemma CoveredSays(r: SubtaskRecord, m: ResultMessage, reason: string, covered: map<SubtaskId, bool>)
    requires m.sub !in covered && Tells(r, m)
    ensures Says(Amend(r, StartRunning), m, covered[m.sub := true])
    ensures Says(Amend(r, FailWith(reason)), m, covered[m.sub := false])
  {}

  lemma CoveringKeepsTold(st: State, next: State, s: SubtaskId, reason: string, running: bool)
    requires AllTold(st) && (s in st.h.handled ==> s in st.h.early && s !in st.h.covered)
    requires Covers(st, next, s, if running then StartRunning else FailWith(reason), running)
    ensures AllTold(next)
  {
    hide Rec, Amend, Tells, TellsUnder;
    forall t | t in next.h.handled ensures Told(next, t) {
      assert Told(st, t);
      var m :| m in st.h.runs && m.sub == t && Rec(st.stores, st.h.home, t).Some?
               && Says(Rec(st.stores, st.h.home, t).value, m, st.h.covered);
      if t == s { CoveredSays(Rec(st.stores, st.h.home, s).value, m, reason, st.h.covered); }
      assert Says(Rec(next.stores, next.h.home, t).value, m, next.h.covered);
    }
  }

  lemma ResumeKeepsTold(st: State, c: nat, reason: string)
    requires Inv(st) && AllTold(st) && CanResume(st, c)
    ensures AllTold(ReplyAccepted(st, c)) && AllTold(DispatchFails(st, c, reason))
  {
    hide Inv, Told, Covers, ReplyAccepted, DispatchFails;
    var s := st.calls[c].pc.sub;
    OwnSubtask(st, c, s);
    ResumeCovers(st, c, reason);
    CoveringKeepsTold(st, ReplyAccepted(st, c), s, reason, true);
    CoveringKeepsTold(st, DispatchFails(st, c, reason), s, reason, false);
  }

  lemma RecIsRecordAt(st: State, s: SubtaskId)
    requires s in st.h.home
    ensures Rec(st.stores, st.h.home, s) == RecordAt(st.stores, st.h.home[s].agent, st.h.home[s].job, s)
  {}

  /** A step that writes no store is calm, and so is one that keeps the handled records. */
  lemma FrameIsCalm(st: State, l: Label, next: State)
    requires Frame(st, l, next)
    requires !l.LookupL? && !l.ReplyAcceptedL? && !l.DispatchFailsL? && !l.DeliverReportL?
    requires !WritesStore(l) || forall s :: s in st.h.handled ==>
      Rec(next.stores, next.h.home, s) == Rec(st.stores, st.h.home, s)
    ensures Calm(st, next)
  {
    hide Rec;
  }

  lemma EndRecords(st: State, c: nat, text: string, t: SubtaskId)
    ensures CanPlan(st, c) ==>
              var next := PlanFails(st, c, text); Rec(next.stores, next.h.home, t) == Rec(st.stores, st.h.home, t)
    ensures CanEndLocal(st, c) ==>
              var next := LocalDone(st, c, text); Rec(next.stores, next.h.home, t) == Rec(st.stores, st.h.home, t)
  {
    hide Fail, CompleteLocal, RecordAt;
    if c < |st.calls| {
      var call := st.calls[c];
      ClusterParent.FailKeepsRecords(st.stores, call.parent, call.job, "planning failed: " + text);
      ClusterParent.LocalKeepsRecords(st.stores, call.parent, call.job, text);
    }
  }

  lemma SubmitRecords(st: State, p: NodeId, j: JobId, description: string, specs: seq<SubtaskSpec>,
                      ids: seq<SubtaskId>, planner: bool, t: SubtaskId)
    requires Inv(st) && CanSubmit(st, p, j, specs, ids) && t in st.h.home
    ensures var next := Submit(st, p, j, description, specs, ids, planner);
            Rec(next.stores, next.h.home, t) == Rec(st.stores, st.h.home, t)
  {
    hide CanSubmit, CallsOk, SentOk, BoxesOk, PlacesOk, RunsOk, BegunOk, ReportsOk, AcksOk, EarlyOk, StatusOk, HomesOk,
         Rec, ClusterParent.JobAdded, Submit;
    var next := Submit(st, p, j, description, specs, ids, planner);
    ClusterParent.SubmitAddsJob(st, p, j, description, specs, ids, planner);
    ClusterParent.JobAddedSame(st.stores, next.stores, st.calls, next.calls[|st.calls|], st.h.home, next.h.home, ids,
                               t);
  }

  lemma HandledHasHome(st: State, s: SubtaskId)
    requires Inv(st) && s in st.h.handled
    ensures s in st.h.home
  {
    hide HomesOk, CallsOk, BoxesOk, PlacesOk, RunsOk, BegunOk, ReportsOk, EarlyOk, StatusOk, PlaceOf;
  }

  lemma BeginRecords(st: State, c: nat, newId: SubtaskId, t: SubtaskId)
    requires Inv(st) && CanBegin(st, c, newId) && t in st.h.home
    ensures var next := Begin(st, c, newId); Rec(next.stores, next.h.home, t) == Rec(st.stores, st.h.home, t)
  {
    hide SentOk, BoxesOk, PlacesOk, RunsOk, BegunOk, ReportsOk, AcksOk, EarlyOk, StatusOk, CallsOk, RecordAt,
         AddSubtask, Write;
    var call := st.calls[c];
    ClusterParent.GuardNeverFires(st, call.parent, call.job);
    hide WorksOn;
    if call.todo[0].Planned? {
      assert RecordAt(st.stores, call.parent, call.job, newId).None?;
      ClusterParent.AddedOk(st, call.parent, call.job, call.todo[0].spec, newId);
      ClusterParent.AddRecords(st.stores, call.parent, call.job, call.todo[0].spec, newId);
    }
    hide HomesOk;
  }

  // ----- the report

  /** Handling a known report writes it over its record and changes no other. */
  lemma ReportWrites(st: State, rp: Report)
    requires Inv(st) && CanReport(st, rp)
    ensures var next, s := DeliverReport(st, rp), rp.msg.sub;
            && rp.msg in st.h.runs && s in st.h.home && Rec(st.stores, st.h.home, s).Some?
            && next.calls == st.calls && next.h.home == st.h.home && next.h.runs == st.h.runs
            && next.h.handled == st.h.handled + {s} && st.h.early <= next.h.early
            && next.h.covered == st.h.covered - {s}
            && next.stores == Write(st.stores, st.h.home[s].agent, st.h.home[s].job, s, Accept(rp.msg))
  {
    ClusterRunner.ReportFacts(st, rp);
    HomesRecord(st, rp.msg.sub);
    RecIsRecordAt(st, rp.msg.sub);
    hide Inv, Rec, Write, RecordAt, Awaited;
  }

  lemma ReportTells(st: State, rp: Report)
    requires Inv(st) && AllTold(st) && CanReport(st, rp)
    ensures AllTold(DeliverReport(st, rp))
  {
    hide Inv, Rec, Write, DeliverReport, CanReport, Amend, Tells, TellsUnder;
    var m, s := rp.msg, rp.msg.sub;
    var next := DeliverReport(st, rp);
    ReportWrites(st, rp);
    ClusterParent.RecAfterWrite(st.stores, st.h.home, s, Accept(m));
    AcceptTells(Rec(st.stores, st.h.home, s).value, m);
    assert Told(next, s);
    forall t | t in next.h.handled && t != s ensures Told(next, t) {
      assert Told(st, t);
      HandledHasHome(st, t);
    }
  }

  lemma HomesRecord(st: State, s: SubtaskId)
    requires Inv(st) && s in st.h.home
    ensures Rec(st.stores, st.h.home, s).Some?
  {
    hide CallsOk, SentOk, BoxesOk, PlacesOk, RunsOk, BegunOk, ReportsOk, AcksOk, EarlyOk, StatusOk, Rec, RecordAt;
  }

  lemma AcceptTells(r: SubtaskRecord, m: ResultMessage)
    ensures Tells(Amend(r, Accept(m)), m)
  {}

  // ----- every run

  lemma WriteIsCalm(st: State, l: Label)
    requires Inv(st) && Enabled(st, l) && (l.SubmitL? || l.PlanFailsL? || l.LocalDoneL? || l.BeginL?)
    ensures Calm(st, After(st, l))
  {
    hide Inv, Rec, Frame, Calm, Submit, PlanFails, LocalDone, Begin, CanSubmit, CanForward, LookupDone, CanLookup,
         Counted;
    StepFrame(st, l);
    forall t | t in st.h.handled
      ensures Rec(After(st, l).stores, After(st, l).h.home, t) == Rec(st.stores, st.h.home, t)
    {
      HandledHasHome(st, t);
      match l
      case SubmitL(p, j, description, specs, ids, planner) =>
        SubmitRecords(st, p, j, description, specs, ids, planner, t);
      case PlanFailsL(c, text) => EndRecords(st, c, text, t);
      case LocalDoneL(c, text) => EndRecords(st, c, text, t);
      case BeginL(c, newId) => BeginRecords(st, c, newId, t);
    }
    FrameIsCalm(st, l, After(st, l));
  }

  lemma StepKeepsTold(st: State, l: Label)
    requires Inv(st) && AllTold(st) && Enabled(st, l)
    ensures AllTold(After(st, l))
  {
    hide Inv, AllTold, Calm, Frame, LookupDone, ReplyAccepted, DispatchFails, DeliverReport, CanSubmit, CanForward,
         CanLookup, Counted;
    if l.DeliverReportL? {
      ReportTells(st, l.rp);
    } else if l.ReplyAcceptedL? {
      ResumeKeepsTold(st, l.c, "");
    } else if l.DispatchFailsL? {
      ResumeKeepsTold(st, l.c, l.reason);
    } else {
      CalmStep(st, l);
      CalmKeepsTold(st, After(st, l));
    }
  }

  lemma CalmStep(st: State, l: Label)
    requires Inv(st) && Enabled(st, l) && !l.ReplyAcceptedL? && !l.DispatchFailsL? && !l.DeliverReportL?
    ensures Calm(st, After(st, l))
  {
    hide Inv, Calm, Frame, LookupDone, Counted;
    if l.LookupL? {
      LookupIsCalm(st, l.c, l.mgr, l.answer, l.counts, l.reason);
    } else {
      hide Enabled, After;
      if WritesStore(l) {
        WriteIsCalm(st, l);
      } else {
        StepFrame(st, l);
        FrameIsCalm(st, l, After(st, l));
      }
    }
  }

  lemma {:induction false} RunKeepsTold(states: seq<State>, labels: seq<Label>, n: nat)
    requires IsRun(states, labels) && n <= |labels|
    ensures AllTold(states[n])
  {
    hide Inv, Enabled, After, Told;
    if n > 0 {
      RunKeepsTold(states, labels, n - 1);
      RunKeepsInv(states, labels, n - 1);
      StepKeepsTold(states[n - 1], labels[n - 1]);
    }
  }

  /** In every state of every run, once a result of a subtask has been handled: the record
      tells what the one run of that subtask said, in full unless the last write to it
      ended a dispatch; and that write was RUNNING or FAILED, over a result that came
      early. */
  lemma HandledIsRecorded(states: seq<State>, labels: seq<Label>, n: nat, s: SubtaskId) returns (m: ResultMessage)
    requires IsRun(states, labels) && n <= |labels| && s in states[n].h.handled
    ensures var r := Rec(states[n].stores, states[n].h.home, s);
            r.Some? && Says(r.value, m, states[n].h.covered) && m.sub == s && m in states[n].h.runs
    ensures m.status.Terminal() && forall k :: k in states[n].h.runs && k.sub == s ==> k == m
    ensures s in states[n].h.covered ==> s in states[n].h.early
  {
    hide Inv, Enabled, After, Initial, Rec, Says;
    RunKeepsTold(states, labels, n);
    RunKeepsInv(states, labels, n);
    assert Told(states[n], s);
    m :| m in states[n].h.runs && m.sub == s && Rec(states[n].stores, states[n].h.home, s).Some?
         && Says(Rec(states[n].stores, states[n].h.home, s).value, m, states[n].h.covered);
    OneRun(states[n], m);
  }

  lemma OneRun(st: State, m: ResultMessage)
    requires Inv(st) && m in st.h.runs
    ensures m.status.Terminal()
    ensures forall k :: k in st.h.runs && k.sub == m.sub ==> k == m
  {
    hide HomesOk, CallsOk, SentOk, BoxesOk, PlacesOk, BegunOk, ReportsOk, AcksOk, EarlyOk, StatusOk, PlaceOf, Reported;
    var i :| 0 <= i < |st.h.runs| && st.h.runs[i] == m;
    assert RunFits(st.h.runs[i], st.boxes, st.h.sent, st.h.place);
  }
}
