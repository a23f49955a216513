/** Runs in which the child's result overtakes the response to the assign message: the
    work is done and reported, and the parent's record ends RUNNING or FAILED for good. */
module EarlyResult {
  import opened Models
  import opened Jobs
  import opened Inflight
  import opened Cluster
  import opened ClusterQuiescence
  import Mailbox
  import Manager
  import Dispatch
  import Catalog
  import Scheduler

  const SPEC := SubtaskSpec("work", [], [], map[], None, None, None)
  const MSG := AssignMessage("j", "s", "p", SPEC)
  const WORK := Mailbox.ChildFromAssign(MSG)
  const PARCEL := Parcel("c", MSG)
  const RESULT := ResultMessage("j", "s", "c", Completed, Some("ok"), None, [])
  const REPORT := Report("p", RESULT, 0)
  const NODE := NodeRecord("c", "child", "g", 0, [], [], [], [], Idle, "", "", Approved)
  const MANAGER := Manager.State(map["g" := Manager.GroupRow("", "", Auto, [], [])], map["c" := NODE])

  function Record(status: SubtaskStatus, assignee: Option<NodeId>, result: Option<string>): SubtaskRecord {
    SubtaskRecord("s", SPEC, assignee, status, result, None, [])
  }

  function Stores(status: JobStatus, r: SubtaskRecord): map<NodeId, Store> {
    map["p" := map["j" := JobMemory("j", "d", "p", status, [r], None, None)], "c" := map[]]
  }

  function Boxes(box: Mailbox.State): map<NodeId, Mailbox.State> {
    map["p" := Mailbox.EMPTY, "c" := box]
  }

  const HOME := map["s" := Home("p", "j", 0)]
  const CONFIG := map["p" := Config("g", 8), "c" := Config("g", 8)]

  function CallAt(todo: seq<Todo>, pc: Pc): seq<Call> {
    [Call("p", "j", todo, {}, None, pc)]
  }

  function Reporting(posted: bool): Mailbox.State {
    Mailbox.State(Some(WORK), [], [Mailbox.Reporting(WORK, RESULT, 0, posted)])
  }

  const BEGUN := [("c", "s")]
  const PENDING := Record(PendingTask, None, None)
  const ASSIGNED := Record(Assigned, Some("c"), None)
  const DONE := Record(Completed, Some("c"), Some("ok"))
  const STALE := Record(Running, Some("c"), Some("ok"))

  function HistoryAt(place: Place, begun: seq<(NodeId, SubtaskId)>, runs: seq<ResultMessage>,
                     seen: set<SubtaskId>): History {
    History(HOME, map["s" := PARCEL], map["s" := place], begun, runs, seen, seen, {}, map[])
  }

  /** The twelve states, from the start to rest. */
  function StateAt(n: nat): State
    requires n <= 11
  {
    var none: multiset<Parcel> := multiset{};
    var quiet: multiset<Report> := multiset{};
    var unsent := History(HOME, map[], map[], [], [], {}, {}, {}, map[]);
    var empty: map<NodeId, nat> := map[];
    var cursors := map["p" := 1];
    var slot := Mailbox.State(Some(WORK), [], [Mailbox.Spawned]);
    var executing := Mailbox.State(Some(WORK), [], [Mailbox.Executing(WORK)]);
    var yes := map["s" := true];
    if n == 0 then
      State(CONFIG, map["p" := map[], "c" := map[]], Boxes(Mailbox.EMPTY), empty, [], none, map[], quiet, {},
            NO_HISTORY)
    else if n == 1 then
      State(CONFIG, Stores(JobRunning, PENDING), Boxes(Mailbox.EMPTY), empty, CallAt([Existing("s")], Next),
            none, map[],
            quiet, {}, unsent)
    else if n == 2 then
      State(CONFIG, Stores(JobRunning, PENDING), Boxes(Mailbox.EMPTY), empty, CallAt([], Looking("s")), none, map[],
            quiet, {}, unsent)
    else if n == 3 then
      State(CONFIG, Stores(JobRunning, ASSIGNED), Boxes(Mailbox.EMPTY), cursors, CallAt([], Awaiting("s")),
            multiset{PARCEL}, map[], quiet, {}, HistoryAt(InNet, [], [], {}))
    else if n == 4 then
      State(CONFIG, Stores(JobRunning, ASSIGNED), Boxes(slot), cursors, CallAt([], Awaiting("s")), none, yes, quiet, {},
            HistoryAt(InSlot("c"), [], [], {}))
    else if n == 5 then
      State(CONFIG, Stores(JobRunning, ASSIGNED), Boxes(executing), cursors, CallAt([], Awaiting("s")), none, yes,
            quiet, {},
            HistoryAt(InSlot("c"), BEGUN, [], {}))
    else if n == 6 then
      State(CONFIG, Stores(JobRunning, ASSIGNED), Boxes(Reporting(false)), cursors, CallAt([], Awaiting("s")),
            none, yes,
            quiet, {}, HistoryAt(InSlot("c"), BEGUN, [RESULT], {}))
    else if n == 7 then
      State(CONFIG, Stores(JobRunning, ASSIGNED), Boxes(Reporting(true)), cursors, CallAt([], Awaiting("s")), none, yes,
            multiset{REPORT}, {}, HistoryAt(InSlot("c"), BEGUN, [RESULT], {}))
    else if n == 8 then
      State(CONFIG, Stores(JobCompleted, DONE), Boxes(Reporting(true)), cursors, CallAt([], Awaiting("s")), none, yes,
            quiet, {("s", 0)}, HistoryAt(InSlot("c"), BEGUN, [RESULT], {"s"}))
    else if n == 9 then
      State(CONFIG, Stores(JobCompleted, DONE), Boxes(Mailbox.EMPTY), cursors, CallAt([], Awaiting("s")), none, yes,
            quiet, {("s", 0)}, HistoryAt(Left("c"), BEGUN, [RESULT], {"s"}))
    else
      State(CONFIG, Stores(JobRunning, STALE), Boxes(Mailbox.EMPTY), cursors,
            CallAt([], if n == 10 then Next else Returned), none, yes, quiet, {("s", 0)},
            HistoryAt(Left("c"), BEGUN, [RESULT], {"s"}).(covered := map["s" := true]))
  }

  function LabelAt(n: nat): Label
    requires n < 11
  {
    if n == 0 then SubmitL("p", "j", "d", [SPEC], ["s"], false)
    else if n == 1 then BeginL(0, "")
    else if n == 2 then LookupL(0, MANAGER, [NODE], map[], "")
    else if n == 3 then DeliverL(PARCEL)
    else if n == 4 then BeginRunL("c", 0)
    else if n == 5 then ExecuteL("c", 0, Mailbox.Finished("ok", []))
    else if n == 6 then PostL("c", 0)
    else if n == 7 then DeliverReportL(REPORT)
    else if n == 8 then AttemptDoneL("c", 0)
    else if n == 9 then ReplyAcceptedL(0)
    else ReturnL(0)
  }

  ghost predicate Step(n: nat)
    requires n < 11
  {
    Enabled(StateAt(n), LabelAt(n)) && After(StateAt(n), LabelAt(n)) == StateAt(n + 1)
  }

  // ----- what the steps of this run are

  lemma BeginStep(st: State, c: nat, s: SubtaskId)
    requires CanBegin(st, c, s)
    ensures Enabled(st, BeginL(c, s)) && After(st, BeginL(c, s)) == Begin(st, c, s)
  {}

  lemma DeliverStep(st: State, pk: Parcel)
    requires CanDeliver(st, pk)
    ensures Enabled(st, DeliverL(pk)) && After(st, DeliverL(pk)) == Deliver(st, pk)
  {}

  lemma BeginRunStep(st: State, a: NodeId, i: nat)
    requires CanBeginRun(st, a, i)
    ensures Enabled(st, BeginRunL(a, i)) && After(st, BeginRunL(a, i)) == BeginRun(st, a, i)
  {}

  lemma ExecuteStep(st: State, a: NodeId, i: nat, o: Mailbox.Outcome)
    requires CanExecute(st, a, i)
    ensures Enabled(st, ExecuteL(a, i, o)) && After(st, ExecuteL(a, i, o)) == Execute(st, a, i, o)
  {}

  lemma PostStep(st: State, a: NodeId, i: nat)
    requires CanPost(st, a, i)
    ensures Enabled(st, PostL(a, i)) && After(st, PostL(a, i)) == Post(st, a, i)
  {}

  lemma DeliverReportStep(st: State, rp: Report)
    requires CanReport(st, rp)
    ensures Enabled(st, DeliverReportL(rp)) && After(st, DeliverReportL(rp)) == DeliverReport(st, rp)
  {}

  lemma AttemptDoneStep(st: State, a: NodeId, i: nat)
    requires CanFinish(st, a, i)
    ensures Enabled(st, AttemptDoneL(a, i)) && After(st, AttemptDoneL(a, i)) == AttemptDone(st, a, i)
  {}

  lemma ReplyStep(st: State, c: nat)
    requires CanResume(st, c) && st.calls[c].pc.sub in st.replies && st.replies[st.calls[c].pc.sub]
    ensures Enabled(st, ReplyAcceptedL(c)) && After(st, ReplyAcceptedL(c)) == ReplyAccepted(st, c)
  {}

  lemma ReturnStep(st: State, c: nat)
    requires CanReturn(st, c)
    ensures Enabled(st, ReturnL(c)) && After(st, ReturnL(c)) == Return(st, c)
  {}

  /** States with equal parts are equal. */
  lemma Same(a: State, b: State)
    requires a.config == b.config && a.stores == b.stores && a.boxes == b.boxes && a.cursors == b.cursors
    requires a.calls == b.calls && a.parcels == b.parcels && a.replies == b.replies && a.reports == b.reports
    requires a.acks == b.acks && a.h.home == b.h.home && a.h.sent == b.h.sent && a.h.place == b.h.place
    requires a.h.begun == b.h.begun && a.h.runs == b.h.runs && a.h.handled == b.h.handled && a.h.early == b.h.early
    requires a.h.exhausted == b.h.exhausted && a.h.covered == b.h.covered
    ensures a == b
  {}

  lemma SubmitParts()
    ensures Create(map[], "j", "p", "d", [SPEC], ["s"]) == Stores(JobRunning, PENDING)["p"]
    ensures Todos(["s"]) == [Existing("s")]
    ensures CanSubmit(StateAt(0), "p", "j", [SPEC], ["s"])
  {
    assert RecordsFromSpecs([SPEC], ["s"]) == [PENDING];
    assert Todos(["s"]) == [Existing("s")];
  }

  lemma Submits()
    ensures Step(0)
  {
    hide Create, Todos, CanSubmit;
    SubmitParts();
    assert (map s | s in ["s"] :: Home("p", "j", 0)) == HOME;
    assert map[] + HOME == HOME;
    Same(After(StateAt(0), LabelAt(0)), StateAt(1));
  }

  lemma Begins()
    ensures Step(1)
  {
    hide Enabled, After;
    assert [Existing("s")][1..] == [];
    BeginStep(StateAt(1), 0, "");
    Same(Begin(StateAt(1), 0, ""), StateAt(2));
  }

  lemma OneRecord(status: JobStatus, r: SubtaskRecord)
    requires r.id == "s"
    ensures RecordAt(Stores(status, r), "p", "j", "s") == Some(r)
  {
    assert Find([r], "s") == Some(r);
  }

  function StatusOf(s: SubtaskStatus): JobStatus {
    if s.Failed? then JobFailed else if s.Completed? then JobCompleted else JobRunning
  }

  lemma Writes(status: JobStatus, r: SubtaskRecord, c: Change)
    requires r.id == "s"
    ensures Write(Stores(status, r), "p", "j", "s", c) == Stores(StatusOf(Amend(r, c).status), Amend(r, c))
  {
    var out := Amend(r, c);
    assert AmendAll([r], "s", c) == [out];
    assert HasId([r], "s") by { assert [r][0].id == "s"; }
    var job := JobMemory("j", "d", "p", status, [out], None, None);
    assert [out][0] == out;
    assert RollUp(job) == StatusOf(out.status);
    assert UpdatedJob(JobMemory("j", "d", "p", status, [r], None, None), "s", c) == job.(status := RollUp(job));
    assert Write(Stores(status, r), "p", "j", "s", c)["p"] == Stores(StatusOf(out.status), out)["p"];
  }

  lemma NothingInFlight(a: NodeId)
    ensures InflightCount(Stores(JobRunning, PENDING)["p"], a) == 0
  {
    var st := Stores(JobRunning, PENDING)["p"];
    assert InflightOf(st, st.Keys, a) == {};
  }

  const REQUEST := Dispatch.Request("p", "g", SPEC, {}, None)

  lemma Answers()
    ensures Dispatch.Answered(REQUEST, MANAGER, [NODE]) && Dispatch.Eligible(MANAGER, REQUEST, NODE)
  {
    assert Catalog.Suits(NODE, Dispatch.QueryOf(REQUEST));
    assert [NODE][0] == NODE;
  }

  lemma Chooses()
    ensures Dispatch.Answered(REQUEST, MANAGER, [NODE])
    ensures Dispatch.Choose(REQUEST, MANAGER, [NODE], map[], 0) == Ok(Scheduler.Choice(NODE, 1))
  {
    Answers();
    Dispatch.ChosenIsEligible(REQUEST, MANAGER, [NODE], map[], 0);
    assert Dispatch.Choose(REQUEST, MANAGER, [NODE], map[], 0).Ok?;
    hide Scheduler.Pool, Dispatch.Answered, Catalog.Suits;
  }

  lemma Asks()
    ensures CanLook(StateAt(2), 0) && RequestOf(StateAt(2), 0) == REQUEST && MessageOf(StateAt(2), 0) == MSG
  {
    hide RecordAt;
    OneRecord(JobRunning, PENDING);
  }

  lemma Counts()
    ensures Counted(StateAt(2), "p", map[])
  {
    hide InflightCount;
    forall a ensures LoadOf(map[], a) == InflightCount(StateAt(2).stores["p"], a) { NothingInFlight(a); }
  }

  lemma Sends()
    ensures Step(2)
  {
    hide Dispatch.Choose, Dispatch.Answered, Write, RecordAt, Counted, RequestOf, MessageOf;
    Asks();
    Counts();
    Chooses();
    Writes(JobRunning, PENDING, Assign("c"));
    Same(After(StateAt(2), LabelAt(2)), StateAt(3));
  }

  lemma Arrives()
    ensures Step(3)
  {
    hide Enabled, After;
    assert Mailbox.Accept(Mailbox.EMPTY, "c", 8, MSG) == Ok(Mailbox.State(Some(WORK), [], [Mailbox.Spawned])) by {
      assert [] + [Mailbox.Spawned] == [Mailbox.Spawned];
    }
    hide Mailbox.Accept;
    DeliverStep(StateAt(3), PARCEL);
    Same(Deliver(StateAt(3), PARCEL), StateAt(4));
  }

  lemma Starts()
    ensures Step(4)
  {
    hide Enabled, After;
    assert [Mailbox.Spawned][0 := Mailbox.Executing(WORK)] == [Mailbox.Executing(WORK)];
    BeginRunStep(StateAt(4), "c", 0);
    Same(BeginRun(StateAt(4), "c", 0), StateAt(5));
  }

  lemma Executes()
    ensures Step(5)
  {
    hide Enabled, After;
    var r := Mailbox.Reporting(WORK, RESULT, 0, false);
    assert [Mailbox.Executing(WORK)][0 := r] == [r];
    ExecuteStep(StateAt(5), "c", 0, Mailbox.Finished("ok", []));
    Same(Execute(StateAt(5), "c", 0, Mailbox.Finished("ok", [])), StateAt(6));
  }

  lemma Posts()
    ensures Step(6)
  {
    hide Enabled, After;
    var r := Mailbox.Reporting(WORK, RESULT, 0, false);
    assert [r][0 := r.(posted := true)] == [r.(posted := true)];
    PostStep(StateAt(6), "c", 0);
    Same(Post(StateAt(6), "c", 0), StateAt(7));
  }

  lemma ArrivesEarly()
    ensures Step(7)
  {
    hide Enabled, After;
    hide Write, RecordAt;
    OneRecord(JobRunning, ASSIGNED);
    Writes(JobRunning, ASSIGNED, Accept(RESULT));
    assert StateAt(7).calls[0].pc == Awaiting("s");
    DeliverReportStep(StateAt(7), REPORT);
    Same(DeliverReport(StateAt(7), REPORT), StateAt(8));
  }

  lemma LastRunner()
    ensures Mailbox.HandOver(Reporting(true), 0) == Mailbox.EMPTY
  {
    var rs := Reporting(true).runners;
    assert rs[..0] + rs[1..] == [];
  }

  lemma HandsOver()
    ensures Step(8)
  {
    hide Enabled, After;
    hide Mailbox.HandOver;
    LastRunner();
    AttemptDoneStep(StateAt(8), "c", 0);
    Same(AttemptDone(StateAt(8), "c", 0), StateAt(9));
  }

  lemma Overwrites()
    ensures Step(9)
  {
    hide Enabled, After;
    hide Write;
    Writes(JobCompleted, DONE, StartRunning);
    ReplyStep(StateAt(9), 0);
    Same(ReplyAccepted(StateAt(9), 0), StateAt(10));
  }

  lemma Returns()
    ensures Step(10)
  {
    hide Enabled, After;
    ReturnStep(StateAt(10), 0);
    Same(Return(StateAt(10), 0), StateAt(11));
  }

  lemma AllSteps(n: nat)
    requires n < 11
    ensures Step(n)
  {
    hide Step;
    Submits(); Begins(); Sends(); Arrives(); Starts(); Executes(); Posts(); ArrivesEarly(); HandsOver(); Overwrites();
    Returns();
  }

  lemma Ends()
    ensures Initial(StateAt(0))
    ensures var end := StateAt(11);
            && Quiet(end) && |end.calls| == 1 && end.calls[0].pc.Returned?
            && end.h.runs == [RESULT] && RESULT.status.Completed? && "s" in end.h.handled && "s" !in end.h.exhausted
            && RecordAt(end.stores, "p", "j", "s") == Some(STALE)
            && "p" in end.stores && "j" in end.stores["p"] && end.stores["p"]["j"].status.JobRunning?
  {
    OneRecord(JobRunning, STALE);
  }

  /** The run ends at rest: the executor completed the subtask once, the report was
      acknowledged, the call returned, and the record and the job still say RUNNING. */
  lemma ResultIsLost() returns (states: seq<State>, labels: seq<Label>)
    ensures IsRun(states, labels) && |labels| == 11
    ensures var end := states[11];
            && Quiet(end) && |end.calls| == 1 && end.calls[0].pc.Returned?
            && end.h.runs == [RESULT] && RESULT.status.Completed? && "s" in end.h.handled && "s" !in end.h.exhausted
            && RecordAt(end.stores, "p", "j", "s").Some?
            && RecordAt(end.stores, "p", "j", "s").value.status.Running?
            && "p" in end.stores && "j" in end.stores["p"] && end.stores["p"]["j"].status.JobRunning?
  {
    hide StateAt, LabelAt, Enabled, After, Initial, Quiet, RecordAt;
    states := seq(12, n requires 0 <= n < 12 => StateAt(n));
    labels := seq(11, n requires 0 <= n < 11 => LabelAt(n));
    Ends();
    forall n | 0 <= n < 11 ensures Enabled(states[n], labels[n]) && states[n + 1] == After(states[n], labels[n]) {
      AllSteps(n);
    }
  }

  // ----- the response is lost instead

  const REASON := "dispatch timed out"
  const TIMED_OUT := Record(Failed, Some("c"), Some("ok")).(error := Some(REASON))

  /** The same run up to the handled report; then the dispatch times out. */
  function LostAt(n: nat): State
    requires n <= 11
  {
    if n <= 9 then StateAt(n)
    else
      State(CONFIG, Stores(JobFailed, TIMED_OUT), Boxes(Mailbox.EMPTY), map["p" := 1],
            CallAt([], if n == 10 then Next else Returned), multiset{}, map["s" := true], multiset{}, {("s", 0)},
            HistoryAt(Left("c"), BEGUN, [RESULT], {"s"}).(covered := map["s" := false]))
  }

  function LostLabelAt(n: nat): Label
    requires n < 11
  {
    if n == 9 then DispatchFailsL(0, REASON) else LabelAt(n)
  }

  lemma FailsStep(st: State, c: nat, reason: string)
    requires CanResume(st, c)
    ensures Enabled(st, DispatchFailsL(c, reason))
            && After(st, DispatchFailsL(c, reason)) == DispatchFails(st, c, reason)
  {}

  lemma TimesOut()
    ensures Enabled(LostAt(9), LostLabelAt(9)) && After(LostAt(9), LostLabelAt(9)) == LostAt(10)
  {
    hide Enabled, After, Write;
    Writes(JobCompleted, DONE, FailWith(REASON));
    Writes(JobFailed, TIMED_OUT, FailWith(REASON));
    FailsStep(LostAt(9), 0, REASON);
    Same(DispatchFails(LostAt(9), 0, REASON), LostAt(10));
  }

  lemma ReturnsFailed()
    ensures Enabled(LostAt(10), LostLabelAt(10)) && After(LostAt(10), LostLabelAt(10)) == LostAt(11)
  {
    hide Enabled, After;
    ReturnStep(LostAt(10), 0);
    Same(Return(LostAt(10), 0), LostAt(11));
  }

  lemma EndsFailed()
    ensures Initial(LostAt(0))
    ensures var end := LostAt(11);
            && Quiet(end) && |end.calls| == 1 && end.calls[0].pc.Returned?
            && end.h.runs == [RESULT] && RESULT.status.Completed? && "s" in end.h.handled && "s" !in end.h.exhausted
            && RecordAt(end.stores, "p", "j", "s") == Some(TIMED_OUT)
            && "p" in end.stores && "j" in end.stores["p"] && end.stores["p"]["j"].status.JobFailed?
  {
    OneRecord(JobFailed, TIMED_OUT);
  }

  /** The other write has the same effect: when the response is lost, the completed and
      handled subtask ends FAILED, for good. */
  lemma ResultIsFailed() returns (states: seq<State>, labels: seq<Label>)
    ensures IsRun(states, labels) && |labels| == 11
    ensures var end := states[11];
            && Quiet(end) && |end.calls| == 1 && end.calls[0].pc.Returned?
            && end.h.runs == [RESULT] && RESULT.status.Completed? && "s" in end.h.handled && "s" !in end.h.exhausted
            && RecordAt(end.stores, "p", "j", "s").Some?
            && RecordAt(end.stores, "p", "j", "s").value.status.Failed?
            && "p" in end.stores && "j" in end.stores["p"] && end.stores["p"]["j"].status.JobFailed?
  {
    hide LabelAt, Enabled, After, Initial, Quiet, RecordAt;
    states := seq(12, n requires 0 <= n < 12 => LostAt(n));
    labels := seq(11, n requires 0 <= n < 11 => LostLabelAt(n));
    EndsFailed();
    forall n | 0 <= n < 11 ensures Enabled(states[n], labels[n]) && states[n + 1] == After(states[n], labels[n]) {
      LostSteps(n);
    }
  }

  lemma LostSteps(n: nat)
    requires n < 11
    ensures Enabled(LostAt(n), LostLabelAt(n)) && After(LostAt(n), LostLabelAt(n)) == LostAt(n + 1)
  {
    hide StateAt, LabelAt, Enabled, After;
    if n < 9 {
      AllSteps(n);
    } else if n == 9 {
      TimesOut();
    } else {
      ReturnsFailed();
    }
  }
}
