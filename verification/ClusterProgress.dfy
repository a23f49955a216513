/** The protocol does not deadlock: in a run that loses no message, a cluster that is
    not at rest can always take a step that is no failure. */
module ClusterProgress {
  import opened Models
  import opened Jobs
  import opened Inflight
  import opened Cluster
  import opened ClusterFrames
  import opened ClusterInvariant
  import opened ClusterSafety
  import opened ClusterQuiescence
  import ClusterResults
  import ClusterRunner
  import Catalog
  import Dispatch
  import Mailbox
  import Manager
  import Scheduler

  // ----- failures and losses

  /** A step in which something goes wrong. That a dispatch fails because its message
      was refused is not one. */
  predicate Fault(st: State, l: Label) {
    match l
    case PlanFailsL(_, _) => true
    case LocalRaisesL(_) => true
    case LookupRaisesL(_) => true
    case LoseL(_) => true
    case LoseReportL(_) => true
    case AttemptFailsL(_, _) => true
    case ExecuteL(_, _, o) => o.Raised?
    case DispatchFailsL(c, _) =>
      CanResume(st, c) && !(st.calls[c].pc.sub in st.replies && !st.replies[st.calls[c].pc.sub])
    case _ => false
  }

  /** The step loses a message, or sends one to a node that is no agent of the cluster. */
  ghost predicate Loses(st: State, l: Label)
    requires Enabled(st, l)
  {
    || l.LoseL? || l.LoseReportL?
    || (l.LookupL? && var r := Chosen(st, l.c, l.mgr, l.answer, l.counts); r.Ok? && r.value.node.id !in st.config)
  }

  ghost predicate NothingLost(states: seq<State>, labels: seq<Label>, n: nat)
    requires IsRun(states, labels) && n <= |labels|
  {
    forall k :: 0 <= k < n ==> !Loses(states[k], labels[k])
  }

  // ----- what is waited for is on its way

  /** A dispatch that awaits a response has its message in the network, or the response
      is there. */
  ghost predicate ResponsesDue(calls: seq<Call>, place: map<SubtaskId, Place>, replies: map<SubtaskId, bool>) {
    forall c :: 0 <= c < |calls| && calls[c].pc.Awaiting? ==>
      PlaceOf(place, calls[c].pc.sub) == InNet || calls[c].pc.sub in replies
  }

  predicate AckDue(box: Mailbox.State, reports: multiset<Report>, acks: set<(SubtaskId, nat)>) {
    |box.runners| == 1 && box.runners[0].Reporting? && box.runners[0].posted ==>
      var r := box.runners[0];
      Report(r.work.parent, r.result, r.attempt) in reports || (r.work.sub, r.attempt) in acks
  }

  /** A posted report is in the network, or its response is there. */
  ghost predicate AcksDue(boxes: map<NodeId, Mailbox.State>, reports: multiset<Report>, acks: set<(SubtaskId, nat)>) {
    forall a :: a in boxes ==> AckDue(boxes[a], reports, acks)
  }

  ghost predicate Addressed(config: map<NodeId, Config>, parcels: multiset<Parcel>) {
    forall pk :: pk in parcels ==> pk.to in config
  }

  ghost predicate Due(st: State) {
    && ResponsesDue(st.calls, st.h.place, st.replies)
    && AcksDue(st.boxes, st.reports, st.acks)
    && Addressed(st.config, st.parcels)
  }

  // ----- the parent's steps

  /** The step sends, delivers and runs nothing. */
  ghost predicate Plain(st: State, next: State) {
    next.config == st.config && SameTraffic(st, next) && AwaitsNoMore(st.calls, next.calls)
  }

  lemma PlainKeepsDue(st: State, next: State)
    requires Due(st) && Plain(st, next)
    ensures Due(next)
  {
    hide AckDue, PlaceOf;
  }

  lemma CallStepIsPlain(st: State, l: Label)
    requires Enabled(st, l) && l.OfCall() && !l.LookupL?
    ensures Plain(st, After(st, l))
  {
    hide Enabled, After;
    StepFrame(st, l);
  }

  lemma RefuseIsPlain(st: State, c: nat, reason: string)
    requires CanLook(st, c)
    ensures Plain(st, Refuse(st, c, reason))
  {
    hide Write;
  }

  lemma LookupKeepsDue(st: State, l: Label)
    requires Due(st) && Enabled(st, l) && l.LookupL? && !Loses(st, l)
    ensures Due(After(st, l))
  {
    hide Due, Chosen, Dispatch.Answered, Counted, Send, Refuse;
    match Chosen(st, l.c, l.mgr, l.answer, l.counts)
    case Ok(choice) => SendKeepsDue(st, l.c, choice);
    case Err(_) => RefuseIsPlain(st, l.c, l.reason); PlainKeepsDue(st, Refuse(st, l.c, l.reason));
  }

  lemma SendKeepsDue(st: State, c: nat, choice: Scheduler.Choice)
    requires Due(st) && CanLook(st, c) && choice.node.id in st.config
    ensures Due(Send(st, c, choice))
  {
    hide Write, MessageOf, AckDue;
  }

  // ----- the child's steps

  lemma AcceptKeepsAckDue(box: Mailbox.State, a: NodeId, capacity: nat, m: AssignMessage, reports: multiset<Report>,
                          acks: set<(SubtaskId, nat)>)
    requires Mailbox.Inv(box, a, capacity) && AckDue(box, reports, acks)
    ensures Mailbox.Accept(box, a, capacity, m).Ok? ==> AckDue(Mailbox.Accept(box, a, capacity, m).value, reports, acks)
  {}

  lemma BoxKeepsDue(boxes: map<NodeId, Mailbox.State>, a: NodeId, next: Mailbox.State, reports: multiset<Report>,
                    acks: set<(SubtaskId, nat)>)
    requires AcksDue(boxes, reports, acks) && AckDue(next, reports, acks)
    ensures AcksDue(boxes[a := next], reports, acks)
  {
    hide AckDue;
  }

  lemma ReplyKeepsDue(calls: seq<Call>, place: map<SubtaskId, Place>, replies: map<SubtaskId, bool>, s: SubtaskId,
                      p: Place, accepted: bool)
    requires ResponsesDue(calls, place, replies)
    ensures ResponsesDue(calls, place[s := p], replies[s := accepted])
  {}

  lemma FewerParcels(config: map<NodeId, Config>, parcels: multiset<Parcel>, pk: Parcel)
    requires Addressed(config, parcels)
    ensures Addressed(config, parcels - multiset{pk})
  {}

  lemma DeliverKeepsDue(st: State, pk: Parcel)
    requires Inv(st) && Due(st) && CanDeliver(st, pk)
    ensures Due(Deliver(st, pk))
  {
    hide Inv, Mailbox.Inv, Mailbox.Accept, AckDue, AcksDue, ResponsesDue, Addressed;
    BoxIsValid(st, pk.to);
    var box := st.boxes[pk.to];
    assert AckDue(box, st.reports, st.acks) by { DueOf(st, pk.to); }
    AcceptKeepsAckDue(box, pk.to, st.config[pk.to].capacity, pk.msg, st.reports, st.acks);
    FewerParcels(st.config, st.parcels, pk);
    match Mailbox.Accept(box, pk.to, st.config[pk.to].capacity, pk.msg)
    case Ok(next) =>
      BoxKeepsDue(st.boxes, pk.to, next, st.reports, st.acks);
      ReplyKeepsDue(st.calls, st.h.place, st.replies, pk.msg.sub,
                    if box.slot.None? then InSlot(pk.to) else Queued(pk.to), true);
    case Err(_) =>
      ReplyKeepsDue(st.calls, st.h.place, st.replies, pk.msg.sub, Dropped, false);
  }

  lemma DueOf(st: State, a: NodeId)
    requires Due(st) && a in st.boxes
    ensures AckDue(st.boxes[a], st.reports, st.acks)
  {
    hide AckDue;
  }

  lemma RunnerKeepsDue(st: State, a: NodeId, i: nat, o: Mailbox.Outcome)
    requires Inv(st) && Due(st)
    ensures CanBeginRun(st, a, i) ==> Due(BeginRun(st, a, i))
    ensures CanExecute(st, a, i) ==> Due(Execute(st, a, i, o))
    ensures CanPost(st, a, i) ==> Due(Post(st, a, i))
  {
    hide HomesOk, CallsOk, SentOk, PlacesOk, RunsOk, BegunOk, ReportsOk, AcksOk, EarlyOk, StatusOk, PlaceOf;
    if a in st.boxes {
      assert Mailbox.Inv(st.boxes[a], a, st.config[a].capacity);
    }
    hide BoxesOk;
  }

  lemma MovedKeepsDue(calls: seq<Call>, place: map<SubtaskId, Place>, replies: map<SubtaskId, bool>, box: Mailbox.State,
                      a: NodeId, s: SubtaskId)
    requires ResponsesDue(calls, place, replies) && !PlaceOf(place, s).InNet?
    requires box.queue != [] ==> !PlaceOf(place, box.queue[0].sub).InNet?
    ensures ResponsesDue(calls, Moved(place, box, a, s), replies)
  {}

  /** The work of a runner and the head of the queue behind it are not in the network. */
  lemma TakenFromNet(st: State, a: NodeId, i: nat)
    requires Inv(st) && CanEndAttempt(st, a, i)
    ensures var box := st.boxes[a];
            && i == 0 && Mailbox.HandOver(box, i) == ClusterRunner.Passed(box)
            && !PlaceOf(st.h.place, box.runners[i].work.sub).InNet?
            && (box.queue != [] ==> !PlaceOf(st.h.place, box.queue[0].sub).InNet?)
  {
    ClusterRunner.TheRunner(st, a, i);
    hide Inv;
    ClusterRunner.HandOverPasses(st.boxes[a], a, st.config[a].capacity);
    hide Mailbox.HandOver, PlaceOf, Mailbox.Inv;
  }

  lemma AttemptKeepsDue(st: State, a: NodeId, i: nat)
    requires Inv(st) && Due(st) && CanEndAttempt(st, a, i)
    ensures Due(AttemptFails(st, a, i))
    ensures CanFinish(st, a, i) ==> Due(AttemptDone(st, a, i))
  {
    hide Inv, PlaceOf, Moved, Mailbox.HandOver, Mailbox.Retry, ResponsesDue, AcksDue, AckDue, Addressed;
    TakenFromNet(st, a, i);
    var box := st.boxes[a];
    MovedKeepsDue(st.calls, st.h.place, st.replies, box, a, box.runners[i].work.sub);
    NotPosted(box, i, st.reports, st.acks);
    BoxKeepsDue(st.boxes, a, Mailbox.HandOver(box, i), st.reports, st.acks);
    BoxKeepsDue(st.boxes, a, Mailbox.Retry(box, i), st.reports, st.acks);
  }

  lemma NotPosted(box: Mailbox.State, i: nat, reports: multiset<Report>, acks: set<(SubtaskId, nat)>)
    requires i == 0 < |box.runners| && box.runners[i].Reporting?
    requires Mailbox.HandOver(box, i) == ClusterRunner.Passed(box)
    ensures AckDue(Mailbox.HandOver(box, i), reports, acks) && AckDue(Mailbox.Retry(box, i), reports, acks)
  {
    hide Mailbox.HandOver;
  }

  lemma HeardKeepsAckDue(box: Mailbox.State, a: NodeId, capacity: nat, reports: multiset<Report>,
                         acks: set<(SubtaskId, nat)>, rp: Report)
    requires Mailbox.Inv(box, a, capacity) && AckDue(box, reports, acks)
    ensures AckDue(box, reports - multiset{rp}, acks + {(rp.msg.sub, rp.attempt)})
  {}

  lemma HeardParts(st: State, rp: Report)
    requires CanReport(st, rp) && RecordAt(st.stores, rp.to, rp.msg.job, rp.msg.sub).Some?
    ensures var next := DeliverReport(st, rp);
            && next.config == st.config && next.boxes == st.boxes && next.parcels == st.parcels
            && next.calls == st.calls
            && next.replies == st.replies && next.h.place == st.h.place
            && next.reports == st.reports - multiset{rp} && next.acks == st.acks + {(rp.msg.sub, rp.attempt)}
  {
    hide Write, RecordAt, Awaited;
  }

  lemma ReportKeepsDue(st: State, rp: Report)
    requires Inv(st) && Due(st) && CanReport(st, rp)
    ensures Due(DeliverReport(st, rp))
  {
    ClusterRunner.ReportFacts(st, rp);
    ClusterResults.HomesRecord(st, rp.msg.sub);
    ClusterResults.RecIsRecordAt(st, rp.msg.sub);
    hide Inv, DeliverReport, CanReport, RecordAt, Rec, ResponsesDue, AckDue, Mailbox.Inv;
    HeardParts(st, rp);
    forall a | a in st.boxes
      ensures AckDue(st.boxes[a], st.reports - multiset{rp}, st.acks + {(rp.msg.sub, rp.attempt)})
    {
      BoxIsValid(st, a);
      HeardKeepsAckDue(st.boxes[a], a, st.config[a].capacity, st.reports, st.acks, rp);
    }
  }

  // ----- every run

  lemma StepKeepsDue(st: State, l: Label)
    requires Inv(st) && Due(st) && Enabled(st, l) && !Loses(st, l)
    ensures Due(After(st, l))
  {
    hide Inv, Due, Plain, Deliver, BeginRun, Execute, Post, AttemptFails, AttemptDone, DeliverReport, AfterCallStep,
         CanSubmit, CanForward, CanLookup, Counted;
    if l.OfCall() && !l.LookupL? {
      CallStepIsPlain(st, l);
      PlainKeepsDue(st, After(st, l));
    } else {
      match l
      case LookupL(_, _, _, _, _) => LookupKeepsDue(st, l);
      case DeliverL(pk) => DeliverKeepsDue(st, pk);
      case BeginRunL(a, i) => RunnerKeepsDue(st, a, i, Mailbox.Raised(""));
      case ExecuteL(a, i, o) => RunnerKeepsDue(st, a, i, o);
      case PostL(a, i) => RunnerKeepsDue(st, a, i, Mailbox.Raised(""));
      case AttemptFailsL(a, i) => AttemptKeepsDue(st, a, i);
      case AttemptDoneL(a, i) => AttemptKeepsDue(st, a, i);
      case DeliverReportL(rp) => ReportKeepsDue(st, rp);
      case _ =>
    }
  }

  lemma InitiallyDue(st: State)
    requires Initial(st)
    ensures Due(st)
  {}

  lemma {:induction false} RunKeepsDue(states: seq<State>, labels: seq<Label>, n: nat)
    requires IsRun(states, labels) && n <= |labels| && NothingLost(states, labels, n)
    ensures Due(states[n])
  {
    hide Inv, Enabled, After, Loses, Due;
    if n == 0 {
      InitiallyDue(states[0]);
    } else {
      RunKeepsDue(states, labels, n - 1);
      RunKeepsInv(states, labels, n - 1);
      StepKeepsDue(states[n - 1], labels[n - 1]);
    }
  }

  // ----- the step that can be taken

  ghost predicate Healthy(st: State, l: Label) {
    Enabled(st, l) && l.Internal() && !Fault(st, l)
  }

  ghost function Assignees(st: Store): set<NodeId> {
    set j, i | j in st && 0 <= i < |st[j].subtasks| && st[j].subtasks[i].assignee.Some?
      :: st[j].subtasks[i].assignee.value
  }

  /** The counts that `inflight_counts` reports for a store. */
  lemma SomeCounts(st: Store) returns (counts: map<NodeId, nat>)
    ensures forall a :: LoadOf(counts, a) == InflightCount(st, a)
  {
    counts := map a | a in Assignees(st) :: InflightCount(st, a);
    forall a | a !in Assignees(st) ensures InflightCount(st, a) == 0 {
      assert InflightOf(st, st.Keys, a) == {};
    }
  }

  /** Whatever the manager answers to a lookup, the call can go on. */
  lemma LookupGoesOn(st: State, c: nat, mgr: Manager.State, answer: seq<NodeRecord>) returns (l: Label)
    requires CanLookup(st, c, mgr, answer)
    ensures l.LookupL? && l.c == c && l.mgr == mgr && l.answer == answer && Healthy(st, l)
  {
    hide Dispatch.Answered, RequestOf, InflightCount;
    var p := st.calls[c].parent;
    var counts := SomeCounts(if p in st.stores then st.stores[p] else map[]);
    l := LookupL(c, mgr, answer, counts, "");
  }

  lemma SomeAnswer(req: Dispatch.Request) returns (mgr: Manager.State, answer: seq<NodeRecord>)
    ensures Dispatch.Answered(req, mgr, answer)
  {
    answer := [];
    var target := if req.target.Some? then req.target.value else "";
    mgr := if Catalog.Given(req.target)
      then Manager.State(map[], map[target := NodeRecord(target, "", "", 0, [], [], [], [], Idle, "", "", Approved)])
      else Manager.EMPTY;
  }

  lemma EntryGoesOn(st: State, c: nat) returns (l: Label)
    requires c < |st.calls| && (st.calls[c].pc.Planning? || st.calls[c].pc.Local?)
    ensures Healthy(st, l)
  {
    hide CanLookup, Counted, CanSubmit, CanForward;
    if st.calls[c].pc.Planning? {
      l := PlanL(c, [NO_SPEC]);
    } else {
      l := LocalDoneL(c, "");
    }
  }

  lemma NextGoesOn(st: State, c: nat) returns (l: Label)
    requires c < |st.calls| && st.calls[c].pc.Next?
    ensures Healthy(st, l)
  {
    hide CanLookup, Counted, CanSubmit, CanForward, Fresh;
    if st.calls[c].todo == [] {
      l := ReturnL(c);
    } else {
      var s := SomeFreshId(st);
      l := BeginL(c, s);
    }
  }

  lemma LookingGoesOn(st: State, c: nat) returns (l: Label)
    requires CanLook(st, c)
    ensures Healthy(st, l)
  {
    hide Healthy, RequestOf, Dispatch.Answered;
    var mgr, answer := SomeAnswer(RequestOf(st, c));
    l := LookupGoesOn(st, c, mgr, answer);
  }

  lemma CallGoesOn(st: State, c: nat) returns (l: Label)
    requires Inv(st) && Due(st) && c < |st.calls| && !st.calls[c].pc.Over()
    ensures Healthy(st, l)
  {
    hide Inv, Due, Healthy;
    match st.calls[c].pc
    case Planning => l := EntryGoesOn(st, c);
    case Local => l := EntryGoesOn(st, c);
    case Next => l := NextGoesOn(st, c);
    case Looking(_) => l := LookingGoesOn(st, c);
    case Awaiting(_) => l := ResponseComes(st, c);
  }

  lemma ResponseComes(st: State, c: nat) returns (l: Label)
    requires Inv(st) && Due(st) && CanResume(st, c)
    ensures Healthy(st, l)
  {
    hide HomesOk, CallsOk, SentOk, BoxesOk, RunsOk, BegunOk, ReportsOk, AcksOk, EarlyOk, StatusOk, AllBoxed, ParcelsOk,
         PlaceOf, Dispatch.Answered;
    var s := st.calls[c].pc.sub;
    if s in st.replies {
      l := if st.replies[s] then ReplyAcceptedL(c) else DispatchFailsL(c, "");
    } else {
      assert PlaceFits(s, PlaceOf(st.h.place, s), st.boxes, st.parcels, st.h.sent);
      l := DeliverL(st.h.sent[s]);
    }
  }

  lemma RunnerGoesOn(st: State, a: NodeId) returns (l: Label)
    requires Inv(st) && Due(st) && a in st.boxes && st.boxes[a].runners != [] && st.reports == multiset{}
    ensures Healthy(st, l)
  {
    hide HomesOk, CallsOk, SentOk, PlacesOk, RunsOk, BegunOk, ReportsOk, AcksOk, EarlyOk, StatusOk, PlaceOf,
         Dispatch.Answered;
    assert Mailbox.Inv(st.boxes[a], a, st.config[a].capacity);
    assert AckDue(st.boxes[a], st.reports, st.acks);
    hide BoxesOk, ResponsesDue, AcksDue, Addressed, CanLookup, Counted, CanSubmit, CanForward;
    match st.boxes[a].runners[0]
    case Spawned => l := BeginRunL(a, 0);
    case Executing(_) => l := ExecuteL(a, 0, Mailbox.Finished("", []));
    case Reporting(_, _, _, posted) => l := if posted then AttemptDoneL(a, 0) else PostL(a, 0);
  }

  lemma ReportIsHeard(st: State, rp: Report)
    requires Inv(st) && rp in st.reports
    ensures rp.to in st.stores
  {
    hide CallsOk, BoxesOk, PlacesOk, RunsOk, BegunOk, AcksOk, EarlyOk, StatusOk, PlaceOf;
  }

  /** No deadlock: after a run that lost no message and chose only agents of the cluster,
      whatever else failed in it, a cluster that is not at rest can take a step of its
      own that is no failure. */
  lemma NoDeadlock(states: seq<State>, labels: seq<Label>, n: nat) returns (l: Label)
    requires IsRun(states, labels) && n <= |labels| && NothingLost(states, labels, n) && !Quiet(states[n])
    ensures Healthy(states[n], l)
  {
    hide Inv, Due, Enabled, After, Initial, NothingLost, Healthy;
    RunKeepsInv(states, labels, n);
    RunKeepsDue(states, labels, n);
    l := GoesOn(states[n]);
  }

  lemma GoesOn(st: State) returns (l: Label)
    requires Inv(st) && Due(st) && !Quiet(st)
    ensures Healthy(st, l)
  {
    hide Inv, Due, Healthy;
    if c :| 0 <= c < |st.calls| && !st.calls[c].pc.Over() {
      l := CallGoesOn(st, c);
    } else if st.parcels != multiset{} {
      var pk :| pk in st.parcels;
      l := ParcelGoesOn(st, pk);
    } else if st.reports != multiset{} {
      var rp :| rp in st.reports;
      ReportIsHeard(st, rp);
      l := ReportGoesOn(st, rp);
    } else {
      var a :| a in st.boxes && st.boxes[a].runners != [];
      l := RunnerGoesOn(st, a);
    }
  }

  lemma ParcelGoesOn(st: State, pk: Parcel) returns (l: Label)
    requires Inv(st) && Due(st) && pk in st.parcels
    ensures Healthy(st, l)
  {
    hide HomesOk, CallsOk, SentOk, BoxesOk, PlacesOk, RunsOk, BegunOk, ReportsOk, AcksOk, EarlyOk, StatusOk;
    l := DeliverL(pk);
  }

  lemma ReportGoesOn(st: State, rp: Report) returns (l: Label)
    requires rp in st.reports && rp.to in st.stores
    ensures Healthy(st, l)
  {
    l := DeliverReportL(rp);
  }

  // ----- runs without failures

  /** No call was ended by an exception and no report was given up. */
  ghost predicate Unharmed(st: State) {
    st.h.exhausted == {} && forall c :: 0 <= c < |st.calls| ==> !st.calls[c].pc.Aborted?
  }

  lemma HealthyIsHarmless(st: State, l: Label)
    requires Enabled(st, l) && !Fault(st, l) && Unharmed(st)
    ensures Unharmed(After(st, l))
  {
    hide Enabled, After;
    StepFrame(st, l);
  }

  ghost predicate NoFault(states: seq<State>, labels: seq<Label>, n: nat)
    requires IsRun(states, labels) && n <= |labels|
  {
    forall k :: 0 <= k < n ==> !Fault(states[k], labels[k])
  }

  lemma {:induction false} RunStaysUnharmed(states: seq<State>, labels: seq<Label>, n: nat)
    requires IsRun(states, labels) && n <= |labels| && NoFault(states, labels, n)
    ensures Unharmed(states[n])
  {
    hide Enabled, After, Fault;
    if n > 0 {
      RunStaysUnharmed(states, labels, n - 1);
      HealthyIsHarmless(states[n - 1], labels[n - 1]);
    }
  }

  /** A run without failures in which no step without failure is left has finished: the
      cluster is at rest, every call has returned, and every subtask is COMPLETED or
      FAILED, as its run said once its result was handled, unless that came early and the
      RUNNING write of its dispatch is over it. */
  lemma FaultFreeRunFinishes(states: seq<State>, labels: seq<Label>, n: nat, s: SubtaskId)
    requires IsRun(states, labels) && n <= |labels| && NoFault(states, labels, n) && NothingLost(states, labels, n)
    requires forall l :: !Healthy(states[n], l)
    ensures var st := states[n];
            && Quiet(st) && (forall c :: 0 <= c < |st.calls| ==> st.calls[c].pc.Returned?)
            && (s in st.h.home && !(s in st.h.covered && st.h.covered[s]) ==>
                  var r := Rec(st.stores, st.h.home, s);
                  r.Some? && r.value.status.Terminal() && (s in st.h.handled ==> ClusterResults.Told(st, s)))
  {
    hide Inv, Enabled, After, Initial, Healthy, NothingLost, NoFault, Fault, ClusterResults.Told, Rec;
    var st := states[n];
    if !Quiet(st) { var l := NoDeadlock(states, labels, n); }
    RunStaysUnharmed(states, labels, n);
    if s in st.h.home && !(s in st.h.covered && st.h.covered[s]) {
      RunKeepsInv(states, labels, n);
      HomeHasCall(st, s);
      QuietMeansFinished(states, labels, n, s);
    }
  }

  lemma HomeHasCall(st: State, s: SubtaskId)
    requires Inv(st) && s in st.h.home
    ensures st.h.home[s].call < |st.calls|
  {
    hide RunsOk, BegunOk, EarlyOk, ReportsOk, AcksOk, SentOk, PlacesOk, CallsOk, StatusOk, BoxesOk, RecordAt, Rec;
  }
}
