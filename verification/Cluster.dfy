/** The parent/child protocol of N agents as a transition system
    (src/mycoagent/node/runtime.py). A step is a stretch of code between two points
    where the code can be suspended; messages in flight may be delivered late or
    lost, and any exchange may time out on the caller's side. */
module Cluster {
  import opened Models
  import opened Jobs
  import opened Inflight
  import Mailbox
  import Dispatch
  import Scheduler
  import Manager

  datatype Config = Config(group: string, capacity: nat)

  // ----- calls in progress

  /** A subtask still to be dispatched by a call: already recorded, or to be added. */
  datatype Todo = Existing(sub: SubtaskId) | Planned(spec: SubtaskSpec)

  /** Where a `submit_job` or `forward_subtask` call is suspended, or how it ended. */
  datatype Pc =
    | Planning                    // waiting for the planner
    | Local                       // running the job on this agent
    | Next                        // between two dispatches
    | Looking(sub: SubtaskId)     // waiting for the manager
    | Awaiting(sub: SubtaskId)    // waiting for the response to the assign message
    | Returned
    | Aborted                     // ended by an exception other than DispatchError
  {
    predicate Over() { Returned? || Aborted? }
  }

  datatype Call = Call(
    parent: NodeId,
    job: JobId,
    todo: seq<Todo>,
    exclude: set<NodeId>,
    target: Option<NodeId>,
    pc: Pc)

  // ----- messages

  datatype Parcel = Parcel(to: NodeId, msg: AssignMessage)

  /** A result on its way; `attempt` names the exchange, it is not part of the body. */
  datatype Report = Report(to: NodeId, msg: ResultMessage, attempt: nat)

  // ----- history

  /** Which call of which agent created a subtask, for which job. */
  datatype Home = Home(agent: NodeId, job: JobId, call: nat)

  /** Where the assign message of a subtask, or the work it carried, is. */
  datatype Place =
    | Unsent
    | InNet
    | Queued(at: NodeId)
    | InSlot(at: NodeId)
    | Left(at: NodeId)     // the slot has been handed over
    | Dropped              // refused or lost

  /** What has happened. No step reads it, but that new ids are not in `home`. */
  datatype History = History(
    home: map<SubtaskId, Home>,
    sent: map<SubtaskId, Parcel>,
    place: map<SubtaskId, Place>,
    begun: seq<(NodeId, SubtaskId)>,
    runs: seq<ResultMessage>,
    handled: set<SubtaskId>,
    early: set<SubtaskId>,       // a result was handled while its dispatch awaited the response
    exhausted: set<SubtaskId>,   // both report attempts failed
    covered: map<SubtaskId, bool>)  // the write that ended the dispatch is over a handled result; was it RUNNING?

  datatype State = State(
    config: map<NodeId, Config>,
    stores: map<NodeId, Store>,
    boxes: map<NodeId, Mailbox.State>,
    cursors: map<NodeId, nat>,
    calls: seq<Call>,
    parcels: multiset<Parcel>,
    replies: map<SubtaskId, bool>,       // responses to assign messages: accepted or refused
    reports: multiset<Report>,
    acks: set<(SubtaskId, nat)>,         // responses to reports that the parent handled
    h: History)

  function PlaceOf(place: map<SubtaskId, Place>, s: SubtaskId): Place {
    if s in place then place[s] else Unsent
  }

  // ----- the parent's side

  function SetPc(calls: seq<Call>, c: nat, pc: Pc): seq<Call>
    requires c < |calls|
  {
    calls[c := calls[c].(pc := pc)]
  }

  /** One `update_subtask` on the store of agent a. */
  function Write(stores: map<NodeId, Store>, a: NodeId, j: JobId, s: SubtaskId, c: Change): map<NodeId, Store> {
    if a !in stores then stores
    else match UpdateSubtask(stores[a], j, s, c)
      case Ok(next) => stores[a := next]
      case Err(_) => stores
  }

  function RecordAt(stores: map<NodeId, Store>, a: NodeId, j: JobId, s: SubtaskId): Option<SubtaskRecord> {
    if a in stores then Lookup(stores[a], j, s) else None
  }

  predicate Fresh(st: State, s: SubtaskId) {
    s !in st.h.home
  }

  predicate FreshJob(st: State, j: JobId) {
    forall a :: a in st.stores ==> j !in st.stores[a]
  }

  /** The start of `submit_job`, after the membership checks. */
  predicate CanSubmit(st: State, p: NodeId, j: JobId, specs: seq<SubtaskSpec>, ids: seq<SubtaskId>) {
    && p in st.stores && FreshJob(st, j)
    && |specs| == |ids|
    && (forall i :: 0 <= i < |ids| ==> Fresh(st, ids[i]))
    && (forall i, k :: 0 <= i < k < |ids| ==> ids[i] != ids[k])
  }

  function Todos(ids: seq<SubtaskId>): (r: seq<Todo>)
    ensures |r| == |ids| && forall i :: 0 <= i < |ids| ==> r[i] == Existing(ids[i])
  {
    seq(|ids|, i requires 0 <= i < |ids| => Existing(ids[i]))
  }

  function Submit(st: State, p: NodeId, j: JobId, description: string, specs: seq<SubtaskSpec>, ids: seq<SubtaskId>,
                  planner: bool): State
    requires CanSubmit(st, p, j, specs, ids)
  {
    var pc := if specs != [] then Next else if planner then Planning else Local;
    st.(stores := st.stores[p := Create(st.stores[p], j, p, description, specs, ids)],
        calls := st.calls + [Call(p, j, Todos(ids), {}, None, pc)],
        h := st.h.(home := st.h.home + (map s | s in ids :: Home(p, j, |st.calls|))))
  }

  predicate CanPlan(st: State, c: nat) {
    c < |st.calls| && st.calls[c].pc.Planning?
  }

  /** The planner answered with a non-empty list of specs. */
  function Plan(st: State, c: nat, specs: seq<SubtaskSpec>): State
    requires CanPlan(st, c)
  {
    st.(calls := st.calls[c := st.calls[c].(
      todo := seq(|specs|, i requires 0 <= i < |specs| => Planned(specs[i])), pc := Next)])
  }

  function PlanFails(st: State, c: nat, text: string): State
    requires CanPlan(st, c)
  {
    var call := st.calls[c];
    var stores := if call.parent !in st.stores then st.stores
      else match Fail(st.stores[call.parent], call.job, "planning failed: " + text)
        case Ok(next) => st.stores[call.parent := next]
        case Err(_) => st.stores;
    st.(stores := stores, calls := SetPc(st.calls, c, Returned))
  }

  predicate CanEndLocal(st: State, c: nat) {
    c < |st.calls| && st.calls[c].pc.Local?
  }

  function LocalDone(st: State, c: nat, result: string): State
    requires CanEndLocal(st, c)
  {
    var call := st.calls[c];
    var stores := if call.parent !in st.stores then st.stores
      else match CompleteLocal(st.stores[call.parent], call.job, result)
        case Ok(next) => st.stores[call.parent := next]
        case Err(_) => st.stores;
    st.(stores := stores, calls := SetPc(st.calls, c, Returned))
  }

  /** The executor's exception leaves `submit_job`; the job stays RUNNING. */
  function LocalRaises(st: State, c: nat): State
    requires CanEndLocal(st, c)
  {
    st.(calls := SetPc(st.calls, c, Aborted))
  }

  function SourceAssignee(st: State, p: NodeId, j: JobId, source: Option<SubtaskId>): set<NodeId> {
    if !Truthy(source) then {}
    else match RecordAt(st.stores, p, j, source.value)
      case None => {}
      case Some(r) => if Truthy(r.assignee) then {r.assignee.value} else {}
  }

  function ForwardPayload(st: State, p: NodeId, j: JobId, payload: Payload, source: Option<SubtaskId>): Payload {
    if !Truthy(source) then payload
    else match RecordAt(st.stores, p, j, source.value)
      case None => payload
      case Some(r) =>
        payload["source_subtask_id" := TextValue(r.id)]
               ["source_result" := (if r.result.Some? then TextValue(r.result.value) else NullValue)]
               ["source_artifact_ids" := ListValue(r.artifactIds)]
  }

  /** Whether the agent's own slot holds work of the job. */
  predicate WorksOn(boxes: map<NodeId, Mailbox.State>, a: NodeId, j: JobId) {
    a in boxes && boxes[a].slot.Some? && boxes[a].slot.value.job == j
  }

  /** The checks of `forward_subtask`; where one fails the call ends with an error
      and nothing has changed. */
  predicate CanForward(st: State, p: NodeId, j: JobId, source: Option<SubtaskId>) {
    && p in st.stores && !WorksOn(st.boxes, p, j)
    && j in st.stores[p] && st.stores[p][j].parent == p
    && (Truthy(source) ==> RecordAt(st.stores, p, j, source.value).Some?)
  }

  /** `forward_subtask`: the request has no model, context or memory demands. */
  function Forward(st: State, p: NodeId, j: JobId, description: string, skills: seq<string>, tools: seq<string>,
                   payload: Payload, source: Option<SubtaskId>, target: Option<NodeId>): State
    requires CanForward(st, p, j, source)
  {
    var spec := SubtaskSpec(description, skills, tools, ForwardPayload(st, p, j, payload, source), None, None, None);
    st.(calls := st.calls + [Call(p, j, [Planned(spec)], {p} + SourceAssignee(st, p, j, source), target, Next)])
  }

  predicate CanBegin(st: State, c: nat, newId: SubtaskId) {
    && c < |st.calls| && st.calls[c].pc.Next? && st.calls[c].todo != []
    && (st.calls[c].todo[0].Planned? ==> Fresh(st, newId))
  }

  function BeginId(call: Call, newId: SubtaskId): SubtaskId
    requires call.todo != []
  {
    if call.todo[0].Existing? then call.todo[0].sub else newId
  }

  /** The next subtask of a call: add its record if it is planned, then enter
      `_dispatch`, which refuses a job that the agent itself is working on. */
  function Begin(st: State, c: nat, newId: SubtaskId): State
    requires CanBegin(st, c, newId)
  {
    var call := st.calls[c];
    var s := BeginId(call, newId);
    var recorded := match call.todo[0]
      case Existing(_) => st
      case Planned(spec) =>
        if call.parent !in st.stores then st
        else match AddSubtask(st.stores[call.parent], call.job, spec, s)
          case Err(_) => st
          case Ok(next) => st.(stores := st.stores[call.parent := next],
                               h := st.h.(home := st.h.home[s := Home(call.parent, call.job, c)]));
    var blocked := WorksOn(st.boxes, call.parent, call.job);
    recorded.(
      stores := (if blocked
                 then Write(recorded.stores, call.parent, call.job, s,
                            FailWith("child cannot re-dispatch the same job"))
                 else recorded.stores),
      calls := st.calls[c := call.(todo := call.todo[1..], pc := if blocked then Next else Looking(s))])
  }

  predicate CanLook(st: State, c: nat) {
    c < |st.calls| && st.calls[c].pc.Looking?
  }

  /** The manager call raises, and the exception is not a DispatchError. */
  function LookupRaises(st: State, c: nat): State
    requires CanLook(st, c)
  {
    st.(calls := SetPc(st.calls, c, Aborted))
  }

  function RequestOf(st: State, c: nat): Dispatch.Request
    requires CanLook(st, c)
  {
    var call := st.calls[c];
    var spec := match RecordAt(st.stores, call.parent, call.job, call.pc.sub)
      case Some(r) => r.spec
      case None => SubtaskSpec("", [], [], map[], None, None, None);
    var group := if call.parent in st.config then st.config[call.parent].group else "";
    Dispatch.Request(call.parent, group, spec, call.exclude, call.target)
  }

  /** The manager's answer leads to no target: the DispatchError's FAILED write. */
  function Refuse(st: State, c: nat, reason: string): State
    requires CanLook(st, c)
  {
    var call := st.calls[c];
    st.(stores := Write(st.stores, call.parent, call.job, call.pc.sub, FailWith(reason)),
        calls := SetPc(st.calls, c, Next))
  }

  function MessageOf(st: State, c: nat): AssignMessage
    requires CanLook(st, c)
  {
    var call := st.calls[c];
    AssignMessage(call.job, call.pc.sub, call.parent, RequestOf(st, c).spec)
  }

  /** A target was chosen: the ASSIGNED write, then the message. */
  function Send(st: State, c: nat, choice: Scheduler.Choice): State
    requires CanLook(st, c)
  {
    var call := st.calls[c];
    var s := call.pc.sub;
    var parcel := Parcel(choice.node.id, MessageOf(st, c));
    st.(stores := Write(st.stores, call.parent, call.job, s, Assign(choice.node.id)),
        cursors := st.cursors[call.parent := choice.cursor],
        calls := SetPc(st.calls, c, Awaiting(s)),
        parcels := st.parcels + multiset{parcel},
        h := st.h.(sent := st.h.sent[s := parcel],
                   place := st.h.place[s := InNet]))
  }

  /** A write that ends a dispatch covers the result if one has been handled. */
  function Covering(h: History, s: SubtaskId, running: bool): History {
    if s in h.handled then h.(covered := h.covered[s := running]) else h
  }

  predicate CanResume(st: State, c: nat) {
    c < |st.calls| && st.calls[c].pc.Awaiting?
  }

  /** The child accepted: the RUNNING write, whatever the record says by now. */
  function ReplyAccepted(st: State, c: nat): State
    requires CanResume(st, c)
  {
    var call := st.calls[c];
    st.(stores := Write(st.stores, call.parent, call.job, call.pc.sub, StartRunning),
        calls := SetPc(st.calls, c, Next),
        h := Covering(st.h, call.pc.sub, true))
  }

  /** The exchange was refused, failed or timed out: FAILED, and the caller's
      handler for the DispatchError writes FAILED with the same text again. */
  function DispatchFails(st: State, c: nat, reason: string): State
    requires CanResume(st, c)
  {
    var call := st.calls[c];
    var once := Write(st.stores, call.parent, call.job, call.pc.sub, FailWith(reason));
    st.(stores := Write(once, call.parent, call.job, call.pc.sub, FailWith(reason)),
        calls := SetPc(st.calls, c, Next),
        h := Covering(st.h, call.pc.sub, false))
  }

  predicate CanReturn(st: State, c: nat) {
    c < |st.calls| && st.calls[c].pc.Next? && st.calls[c].todo == []
  }

  function Return(st: State, c: nat): State
    requires CanReturn(st, c)
  {
    st.(calls := SetPc(st.calls, c, Returned))
  }

  // ----- the network and the child's side

  predicate CanDeliver(st: State, pk: Parcel) {
    pk in st.parcels && pk.to in st.boxes && pk.to in st.config
  }

  function Deliver(st: State, pk: Parcel): State
    requires CanDeliver(st, pk)
  {
    var box := st.boxes[pk.to];
    var s := pk.msg.sub;
    match Mailbox.Accept(box, pk.to, st.config[pk.to].capacity, pk.msg)
    case Ok(next) =>
      st.(boxes := st.boxes[pk.to := next],
          parcels := st.parcels - multiset{pk},
          replies := st.replies[s := true],
          h := st.h.(place := st.h.place[s := if box.slot.None? then InSlot(pk.to) else Queued(pk.to)]))
    case Err(_) =>
      st.(parcels := st.parcels - multiset{pk},
          replies := st.replies[s := false],
          h := st.h.(place := st.h.place[s := Dropped]))
  }

  function Lose(st: State, pk: Parcel): State {
    st.(parcels := st.parcels - multiset{pk},
        h := st.h.(place := st.h.place[pk.msg.sub := Dropped]))
  }

  predicate HasRunner(st: State, a: NodeId, i: nat) {
    a in st.boxes && a in st.config && i < |st.boxes[a].runners|
  }

  predicate CanBeginRun(st: State, a: NodeId, i: nat) {
    HasRunner(st, a, i) && st.boxes[a].runners[i].Spawned?
  }

  function BeginRun(st: State, a: NodeId, i: nat): State
    requires CanBeginRun(st, a, i)
  {
    var box := st.boxes[a];
    st.(boxes := st.boxes[a := Mailbox.Begin(box, i)],
        h := st.h.(begun := if box.slot.Some? then st.h.begun + [(a, box.slot.value.sub)] else st.h.begun))
  }

  predicate CanExecute(st: State, a: NodeId, i: nat) {
    HasRunner(st, a, i) && st.boxes[a].runners[i].Executing?
  }

  function Execute(st: State, a: NodeId, i: nat, o: Mailbox.Outcome): State
    requires CanExecute(st, a, i)
  {
    var work := st.boxes[a].runners[i].work;
    st.(boxes := st.boxes[a := Mailbox.Execute(st.boxes[a], i, a, o)],
        h := st.h.(runs := st.h.runs + [Mailbox.ResultOf(work, a, o)]))
  }

  predicate CanPost(st: State, a: NodeId, i: nat) {
    HasRunner(st, a, i) && st.boxes[a].runners[i].Reporting? && !st.boxes[a].runners[i].posted
  }

  function Post(st: State, a: NodeId, i: nat): State
    requires CanPost(st, a, i)
  {
    var r := st.boxes[a].runners[i];
    st.(boxes := st.boxes[a := Mailbox.Post(st.boxes[a], i)],
        reports := st.reports + multiset{Report(r.work.parent, r.result, r.attempt)})
  }

  predicate CanEndAttempt(st: State, a: NodeId, i: nat) {
    HasRunner(st, a, i) && st.boxes[a].runners[i].Reporting? && st.boxes[a].runners[i].posted
  }

  function Moved(place: map<SubtaskId, Place>, box: Mailbox.State, a: NodeId, s: SubtaskId): map<SubtaskId, Place> {
    var gone := place[s := Left(a)];
    if box.queue == [] then gone else gone[box.queue[0].sub := InSlot(a)]
  }

  /** The attempt failed from the child's point of view: try again, or give up and
      hand the slot over. */
  function AttemptFails(st: State, a: NodeId, i: nat): State
    requires CanEndAttempt(st, a, i)
  {
    var box := st.boxes[a];
    var s := box.runners[i].work.sub;
    if Mailbox.LastAttempt(box.runners[i]) then
      st.(boxes := st.boxes[a := Mailbox.HandOver(box, i)],
          h := st.h.(place := Moved(st.h.place, box, a, s), exhausted := st.h.exhausted + {s}))
    else
      st.(boxes := st.boxes[a := Mailbox.Retry(box, i)])
  }

  predicate CanFinish(st: State, a: NodeId, i: nat) {
    && CanEndAttempt(st, a, i)
    && var r := st.boxes[a].runners[i]; (r.work.sub, r.attempt) in st.acks
  }

  /** The parent's response arrived: hand the slot over. */
  function AttemptDone(st: State, a: NodeId, i: nat): State
    requires CanFinish(st, a, i)
  {
    var box := st.boxes[a];
    st.(boxes := st.boxes[a := Mailbox.HandOver(box, i)],
        h := st.h.(place := Moved(st.h.place, box, a, box.runners[i].work.sub)))
  }

  /** Some call still awaits the response to this subtask's assign message. */
  predicate Awaited(calls: seq<Call>, s: SubtaskId) {
    exists c :: 0 <= c < |calls| && calls[c].pc == Awaiting(s)
  }

  predicate CanReport(st: State, rp: Report) {
    rp in st.reports && rp.to in st.stores
  }

  /** `_accept_result`: an unknown job or subtask is a 404 and changes nothing. */
  function DeliverReport(st: State, rp: Report): State
    requires CanReport(st, rp)
  {
    var m := rp.msg;
    var known := RecordAt(st.stores, rp.to, m.job, m.sub).Some?;
    if !known then st.(reports := st.reports - multiset{rp})
    else
      st.(stores := Write(st.stores, rp.to, m.job, m.sub, Accept(m)),
          reports := st.reports - multiset{rp},
          acks := st.acks + {(m.sub, rp.attempt)},
          h := st.h.(handled := st.h.handled + {m.sub},
                     early := (if Awaited(st.calls, m.sub) then st.h.early + {m.sub} else st.h.early),
                     covered := st.h.covered - {m.sub}))
  }

  function LoseReport(st: State, rp: Report): State {
    st.(reports := st.reports - multiset{rp})
  }

  // ----- labels and runs

  datatype Label =
    | SubmitL(p: NodeId, j: JobId, description: string, specs: seq<SubtaskSpec>, ids: seq<SubtaskId>, planner: bool)
    | ForwardL(p: NodeId, j: JobId, description: string, skills: seq<string>, tools: seq<string>,
               payload: Payload, source: Option<SubtaskId>, target: Option<NodeId>)
    | PlanL(c: nat, specs: seq<SubtaskSpec>)
    | PlanFailsL(c: nat, text: string)
    | LocalDoneL(c: nat, result: string)
    | LocalRaisesL(c: nat)
    | BeginL(c: nat, newId: SubtaskId)
    | LookupRaisesL(c: nat)
    | LookupL(c: nat, mgr: Manager.State, answer: seq<NodeRecord>, counts: map<NodeId, nat>, reason: string)
    | ReplyAcceptedL(c: nat)
    | DispatchFailsL(c: nat, reason: string)
    | ReturnL(c: nat)
    | DeliverL(pk: Parcel)
    | LoseL(pk: Parcel)
    | BeginRunL(a: NodeId, i: nat)
    | ExecuteL(a: NodeId, i: nat, o: Mailbox.Outcome)
    | PostL(a: NodeId, i: nat)
    | AttemptFailsL(a: NodeId, i: nat)
    | AttemptDoneL(a: NodeId, i: nat)
    | DeliverReportL(rp: Report)
    | LoseReportL(rp: Report)
  {
    /** A step of a `submit_job` or `forward_subtask` call. */
    predicate OfCall() {
      SubmitL? || ForwardL? || PlanL? || PlanFailsL? || LocalDoneL? || LocalRaisesL? || BeginL? || LookupRaisesL?
      || LookupL? || ReplyAcceptedL? || DispatchFailsL? || ReturnL?
    }

    /** A step of this call, which has started before. */
    predicate Moves(call: nat) { OfCall() && !SubmitL? && !ForwardL? && c == call }

    /** Submissions and forwards come from outside; all else the cluster does itself. */
    predicate Internal() { !SubmitL? && !ForwardL? }
  }

  /** The counts are those that `inflight_counts` reports for the caller's jobs. */
  ghost predicate Counted(st: State, p: NodeId, counts: map<NodeId, nat>) {
    p in st.stores ==> forall a :: LoadOf(counts, a) == InflightCount(st.stores[p], a)
  }

  ghost predicate CanLookup(st: State, c: nat, mgr: Manager.State, answer: seq<NodeRecord>) {
    CanLook(st, c) && Dispatch.Answered(RequestOf(st, c), mgr, answer)
  }

  ghost function Chosen(st: State, c: nat, mgr: Manager.State, answer: seq<NodeRecord>, counts: map<NodeId, nat>)
    : Result<Scheduler.Choice, Dispatch.Error>
    requires CanLookup(st, c, mgr, answer)
  {
    var p := st.calls[c].parent;
    Dispatch.Choose(RequestOf(st, c), mgr, answer, counts, if p in st.cursors then st.cursors[p] else 0)
  }

  /** The manager's answer arrives: choose, then write and send, or give up. */
  ghost function LookupDone(st: State, c: nat, mgr: Manager.State, answer: seq<NodeRecord>, counts: map<NodeId, nat>,
                            reason: string): State
    requires CanLookup(st, c, mgr, answer)
  {
    match Chosen(st, c, mgr, answer, counts)
    case Ok(choice) => Send(st, c, choice)
    case Err(_) => Refuse(st, c, reason)
  }

  ghost predicate Enabled(st: State, l: Label) {
    match l
    case SubmitL(p, j, _, specs, ids, _) => CanSubmit(st, p, j, specs, ids)
    case ForwardL(p, j, _, _, _, _, source, _) => CanForward(st, p, j, source)
    case PlanL(c, specs) => CanPlan(st, c) && specs != []
    case PlanFailsL(c, _) => CanPlan(st, c)
    case LocalDoneL(c, _) => CanEndLocal(st, c)
    case LocalRaisesL(c) => CanEndLocal(st, c)
    case BeginL(c, newId) => CanBegin(st, c, newId)
    case LookupRaisesL(c) => CanLook(st, c)
    case LookupL(c, mgr, answer, counts, _) =>
      CanLookup(st, c, mgr, answer) && Counted(st, st.calls[c].parent, counts)
    case ReplyAcceptedL(c) => CanResume(st, c) && st.calls[c].pc.sub in st.replies && st.replies[st.calls[c].pc.sub]
    case DispatchFailsL(c, _) => CanResume(st, c)
    case ReturnL(c) => CanReturn(st, c)
    case DeliverL(pk) => CanDeliver(st, pk)
    case LoseL(pk) => pk in st.parcels
    case BeginRunL(a, i) => CanBeginRun(st, a, i)
    case ExecuteL(a, i, _) => CanExecute(st, a, i)
    case PostL(a, i) => CanPost(st, a, i)
    case AttemptFailsL(a, i) => CanEndAttempt(st, a, i)
    case AttemptDoneL(a, i) => CanFinish(st, a, i)
    case DeliverReportL(rp) => CanReport(st, rp)
    case LoseReportL(rp) => rp in st.reports
  }

  ghost function AfterCallStep(st: State, l: Label): State
    requires Enabled(st, l) && l.OfCall()
  {
    match l
    case SubmitL(p, j, description, specs, ids, planner) => Submit(st, p, j, description, specs, ids, planner)
    case ForwardL(p, j, d, skills, tools, payload, source, target) =>
      Forward(st, p, j, d, skills, tools, payload, source, target)
    case PlanL(c, specs) => Plan(st, c, specs)
    case PlanFailsL(c, text) => PlanFails(st, c, text)
    case LocalDoneL(c, result) => LocalDone(st, c, result)
    case LocalRaisesL(c) => LocalRaises(st, c)
    case BeginL(c, newId) => Begin(st, c, newId)
    case LookupRaisesL(c) => LookupRaises(st, c)
    case LookupL(c, mgr, answer, counts, reason) => LookupDone(st, c, mgr, answer, counts, reason)
    case ReplyAcceptedL(c) => ReplyAccepted(st, c)
    case DispatchFailsL(c, reason) => DispatchFails(st, c, reason)
    case ReturnL(c) => Return(st, c)
  }

  ghost function AfterOtherStep(st: State, l: Label): State
    requires Enabled(st, l) && !l.OfCall()
  {
    match l
    case DeliverL(pk) => Deliver(st, pk)
    case LoseL(pk) => Lose(st, pk)
    case BeginRunL(a, i) => BeginRun(st, a, i)
    case ExecuteL(a, i, o) => Execute(st, a, i, o)
    case PostL(a, i) => Post(st, a, i)
    case AttemptFailsL(a, i) => AttemptFails(st, a, i)
    case AttemptDoneL(a, i) => AttemptDone(st, a, i)
    case DeliverReportL(rp) => DeliverReport(st, rp)
    case LoseReportL(rp) => LoseReport(st, rp)
  }

  ghost function After(st: State, l: Label): State
    requires Enabled(st, l)
  {
    if l.OfCall() then AfterCallStep(st, l) else AfterOtherStep(st, l)
  }

  const NO_HISTORY := History(map[], map[], map[], [], [], {}, {}, {}, map[])

  /** Agents that have just started: no jobs, no work, no messages. */
  ghost predicate Initial(st: State) {
    && st.stores.Keys == st.config.Keys && st.boxes.Keys == st.config.Keys
    && (forall a :: a in st.stores ==> st.stores[a] == map[])
    && (forall a :: a in st.boxes ==> st.boxes[a] == Mailbox.EMPTY)
    && st.calls == [] && st.parcels == multiset{} && st.reports == multiset{}
    && st.replies == map[] && st.acks == {} && st.h == NO_HISTORY
  }

  /** The states of a run, one more than its labels. */
  ghost predicate IsRun(states: seq<State>, labels: seq<Label>) {
    && |states| == |labels| + 1
    && Initial(states[0])
    && forall n :: 0 <= n < |labels| ==> Enabled(states[n], labels[n]) && states[n + 1] == After(states[n], labels[n])
  }
}
