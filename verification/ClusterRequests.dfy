/** What the callers asked for and what came of it: a call creates one subtask for each
    spec it was given, in order and with that spec, and every message carries the
    spec that was asked for. */
module ClusterRequests {
  import opened Models
  import opened Jobs
  import opened Cluster
  import opened ClusterFrames
  import opened ClusterInvariant
  import opened ClusterSafety
  import Dispatch
  import Manager

  /** A subtask that a call created. */
  datatype Part = Part(sub: SubtaskId, spec: SubtaskSpec)

  /** The subtasks of a job's list that call c created, in list order. */
  function Own(rs: seq<SubtaskRecord>, home: map<SubtaskId, Home>, c: nat): seq<Part> {
    if rs == [] then []
    else
      var r := rs[|rs| - 1];
      Own(rs[..|rs| - 1], home, c) + if r.id in home && home[r.id].call == c then [Part(r.id, r.spec)] else []
  }

  function Subtasks(stores: map<NodeId, Store>, p: NodeId, j: JobId): seq<SubtaskRecord> {
    if p in stores && j in stores[p] then stores[p][j].subtasks else []
  }

  function Created(st: State, c: nat): seq<Part>
    requires c < |st.calls|
  {
    Own(Subtasks(st.stores, st.calls[c].parent, st.calls[c].job), st.h.home, c)
  }

  function Specs(parts: seq<Part>): (specs: seq<SubtaskSpec>)
    ensures |specs| == |parts| && forall i :: 0 <= i < |parts| ==> specs[i] == parts[i].spec
  {
    seq(|parts|, i requires 0 <= i < |parts| => parts[i].spec)
  }

  /** The specs of which no record has been added yet. */
  function Uncreated(todo: seq<Todo>): seq<SubtaskSpec> {
    if todo == [] then []
    else (if todo[0].Planned? then [todo[0].spec] else []) + Uncreated(todo[1..])
  }

  /** The specs that call c has created subtasks for, and then those it still will. */
  function Wanted(st: State, c: nat): seq<SubtaskSpec>
    requires c < |st.calls|
  {
    Specs(Created(st, c)) + Uncreated(st.calls[c].todo)
  }

  // ----- what a request asks for

  /** The payload of a forwarded subtask: the caller's, and with a source its id, result
      and artifacts on top. */
  ghost predicate CarriesSource(payload: Payload, given: Payload, source: SubtaskRecord) {
    && payload.Keys == given.Keys + {"source_subtask_id", "source_result", "source_artifact_ids"}
    && payload["source_subtask_id"] == TextValue(source.id)
    && payload["source_result"] == (if source.result.Some? then TextValue(source.result.value) else NullValue)
    && payload["source_artifact_ids"] == ListValue(source.artifactIds)
    && forall k :: k in given && k != "source_subtask_id" && k != "source_result" && k != "source_artifact_ids" ==>
         payload[k] == given[k]
  }

  /** The spec of a forward: the caller's description, skills and tools, no other demand,
      and what is known of the source at that moment. */
  ghost predicate ForwardAsks(st: State, l: Label, spec: SubtaskSpec)
    requires l.ForwardL?
  {
    && spec.description == l.description && spec.skills == l.skills && spec.tools == l.tools
    && spec.model == None && spec.minContextWindow == None && spec.minMemoryMb == None
    && (if l.source.None? || l.source.value == "" then spec.payload == l.payload
        else
          var r := RecordAt(st.stores, l.p, l.j, l.source.value);
          r.Some? && r.value.id == l.source.value && CarriesSource(spec.payload, l.payload, r.value))
  }

  /** The step asks call c for subtasks with these specs: a submission with subtasks, the
      planner's answer, or a forward. */
  ghost predicate Asks(st: State, l: Label, c: nat, specs: seq<SubtaskSpec>) {
    match l
    case SubmitL(_, _, _, given, _, _) => c == |st.calls| && specs == given && given != []
    case PlanL(call, given) => c == call && specs == given
    case ForwardL(_, _, _, _, _, _, _, _) => c == |st.calls| && |specs| == 1 && ForwardAsks(st, l, specs[0])
    case _ => false
  }

  // ----- what the steps do to the records

  /** The same subtasks in the same order, with the same specs. */
  ghost predicate SameParts(rs: seq<SubtaskRecord>, next: seq<SubtaskRecord>) {
    |next| == |rs| && forall i :: 0 <= i < |rs| ==> next[i].id == rs[i].id && next[i].spec == rs[i].spec
  }

  ghost predicate PartsKept(stores: map<NodeId, Store>, next: map<NodeId, Store>) {
    forall a, j :: a in stores && j in stores[a] ==>
      a in next && j in next[a] && SameParts(stores[a][j].subtasks, next[a][j].subtasks)
  }

  /** No job's own result or error changes. */
  ghost predicate EndsKept(stores: map<NodeId, Store>, next: map<NodeId, Store>) {
    forall a, j :: a in stores && j in stores[a] ==>
      a in next && j in next[a]
      && next[a][j].localResult == stores[a][j].localResult && next[a][j].error == stores[a][j].error
  }

  ghost predicate Kept(stores: map<NodeId, Store>, next: map<NodeId, Store>) {
    PartsKept(stores, next) && EndsKept(stores, next)
  }

  ghost predicate HomesGrow(home: map<SubtaskId, Home>, next: map<SubtaskId, Home>) {
    forall s :: s in home ==> s in next && next[s] == home[s]
  }

  lemma WriteKeepsParts(stores: map<NodeId, Store>, a: NodeId, j: JobId, s: SubtaskId, c: Change)
    ensures Kept(stores, Write(stores, a, j, s, c))
  {
    hide RollUp, HasId;
  }

  lemma KeptTwice(stores: map<NodeId, Store>, mid: map<NodeId, Store>, next: map<NodeId, Store>)
    requires Kept(stores, mid) && Kept(mid, next)
    ensures Kept(stores, next)
  {
    forall a, j | a in stores && j in stores[a]
      ensures a in next && j in next[a] && SameParts(stores[a][j].subtasks, next[a][j].subtasks)
    {
      assert SameParts(stores[a][j].subtasks, mid[a][j].subtasks);
      assert SameParts(mid[a][j].subtasks, next[a][j].subtasks);
    }
  }

  lemma EndsKeepParts(st: State, c: nat, text: string)
    ensures CanPlan(st, c) ==> PartsKept(st.stores, PlanFails(st, c, text).stores)
    ensures CanEndLocal(st, c) ==> PartsKept(st.stores, LocalDone(st, c, text).stores)
  {
    hide RollUp;
  }

  lemma SubmitKeepsParts(st: State, p: NodeId, j: JobId, description: string, specs: seq<SubtaskSpec>,
                         ids: seq<SubtaskId>, planner: bool)
    requires CanSubmit(st, p, j, specs, ids)
    ensures var next := Submit(st, p, j, description, specs, ids, planner);
            Kept(st.stores, next.stores) && HomesGrow(st.h.home, next.h.home)
  {}

  lemma LookupKeepsParts(st: State, c: nat, mgr: Manager.State, answer: seq<NodeRecord>, counts: map<NodeId, nat>,
                         reason: string)
    requires CanLookup(st, c, mgr, answer)
    ensures var next := LookupDone(st, c, mgr, answer, counts, reason);
            Kept(st.stores, next.stores) && next.h.home == st.h.home
  {
    hide Kept, Write, Chosen, Dispatch.Answered, RequestOf, MessageOf;
    var call := st.calls[c];
    match Chosen(st, c, mgr, answer, counts)
    case Ok(choice) => WriteKeepsParts(st.stores, call.parent, call.job, call.pc.sub, Assign(choice.node.id));
    case Err(_) => WriteKeepsParts(st.stores, call.parent, call.job, call.pc.sub, FailWith(reason));
  }

  lemma ResumeKeepsParts(st: State, c: nat, reason: string)
    requires CanResume(st, c)
    ensures Kept(st.stores, ReplyAccepted(st, c).stores) && Kept(st.stores, DispatchFails(st, c, reason).stores)
  {
    hide Kept, Write;
    var call := st.calls[c];
    var once := Write(st.stores, call.parent, call.job, call.pc.sub, FailWith(reason));
    WriteKeepsParts(st.stores, call.parent, call.job, call.pc.sub, StartRunning);
    WriteKeepsParts(st.stores, call.parent, call.job, call.pc.sub, FailWith(reason));
    WriteKeepsParts(once, call.parent, call.job, call.pc.sub, FailWith(reason));
    KeptTwice(st.stores, once, Write(once, call.parent, call.job, call.pc.sub, FailWith(reason)));
  }

  lemma ReportKeepsParts(st: State, rp: Report)
    requires CanReport(st, rp)
    ensures Kept(st.stores, DeliverReport(st, rp).stores) && DeliverReport(st, rp).h.home == st.h.home
  {
    hide Kept, Write, RecordAt, Awaited;
    WriteKeepsParts(st.stores, rp.to, rp.msg.job, rp.msg.sub, Accept(rp.msg));
    NothingWritten(st.stores);
  }

  lemma NothingWritten(stores: map<NodeId, Store>)
    ensures Kept(stores, stores)
  {}

  /** Every step but the start of a dispatch leaves the parts of each job as they are, and
      only the end of a planning or a local run its own result and error. */
  lemma StepKeepsParts(st: State, l: Label)
    requires Enabled(st, l) && !l.BeginL?
    ensures PartsKept(st.stores, After(st, l).stores) && HomesGrow(st.h.home, After(st, l).h.home)
    ensures l.PlanFailsL? || l.LocalDoneL? || EndsKept(st.stores, After(st, l).stores)
  {
    hide PartsKept, EndsKept, Write, RecordAt, CanSubmit, CanForward, CanLookup, Counted, Submit, LookupDone,
         RequestOf, MessageOf, DeliverReport, CanReport;
    if !WritesStore(l) {
      hide Enabled, After;
      StepFrame(st, l);
      NothingWritten(st.stores);
    } else {
      match l
      case SubmitL(p, j, description, specs, ids, planner) =>
        SubmitKeepsParts(st, p, j, description, specs, ids, planner);
      case PlanFailsL(c, text) => EndsKeepParts(st, c, text);
      case LocalDoneL(c, result) => EndsKeepParts(st, c, result);
      case LookupL(c, mgr, answer, counts, reason) => LookupKeepsParts(st, c, mgr, answer, counts, reason);
      case ReplyAcceptedL(c) => ResumeKeepsParts(st, c, "");
      case DispatchFailsL(c, reason) => ResumeKeepsParts(st, c, reason);
      case DeliverReportL(rp) => ReportKeepsParts(st, rp);
    }
  }

  // ----- what the steps do to the parts of a call

  lemma {:induction false} OwnKept(rs: seq<SubtaskRecord>, next: seq<SubtaskRecord>, home: map<SubtaskId, Home>,
                                   home': map<SubtaskId, Home>, c: nat)
    requires SameParts(rs, next) && forall i :: 0 <= i < |rs| ==> rs[i].id in home && rs[i].id in home'
                                                                  && home'[rs[i].id] == home[rs[i].id]
    ensures Own(next, home', c) == Own(rs, home, c)
  {
    if rs != [] { OwnKept(rs[..|rs| - 1], next[..|rs| - 1], home, home', c); }
  }

  /** Every record of a job is at home there. */
  lemma RecordsHaveHomes(st: State, p: NodeId, j: JobId)
    requires HomesOk(st.stores, st.calls, st.h.home)
    ensures forall i :: 0 <= i < |Subtasks(st.stores, p, j)| ==> Subtasks(st.stores, p, j)[i].id in st.h.home
  {
    hide Find;
    var rs := Subtasks(st.stores, p, j);
    forall i | 0 <= i < |rs| ensures rs[i].id in st.h.home {
      assert HasId(rs, rs[i].id);
      assert RecordAt(st.stores, p, j, rs[i].id).Some?;
    }
  }

  lemma CreatedKept(st: State, l: Label, c: nat)
    requires HomesOk(st.stores, st.calls, st.h.home) && Enabled(st, l) && !l.BeginL? && c < |st.calls|
    ensures c < |After(st, l).calls| && Created(After(st, l), c) == Created(st, c)
  {
    hide Enabled, After, Own;
    StepKeepsParts(st, l);
    StepFrame(st, l);
    var p, j := st.calls[c].parent, st.calls[c].job;
    RecordsHaveHomes(st, p, j);
    assert p in st.stores && j in st.stores[p];
    OwnKept(Subtasks(st.stores, p, j), Subtasks(After(st, l).stores, p, j), st.h.home, After(st, l).h.home, c);
  }

  /** Beginning an existing subtask changes no parts. */
  lemma BeginExisting(st: State, c: nat, newId: SubtaskId)
    requires CanBegin(st, c, newId) && st.calls[c].todo[0].Existing?
    ensures Kept(st.stores, Begin(st, c, newId).stores) && Begin(st, c, newId).h.home == st.h.home
  {
    hide Kept, Write;
    var call := st.calls[c];
    NothingWritten(st.stores);
    WriteKeepsParts(st.stores, call.parent, call.job, BeginId(call, newId),
                    FailWith("child cannot re-dispatch the same job"));
  }

  /** Beginning a planned one first adds its record at the end of the job's list. */
  lemma BeginPlanned(st: State, c: nat, newId: SubtaskId)
    requires HomesOk(st.stores, st.calls, st.h.home) && CanBegin(st, c, newId) && st.calls[c].todo[0].Planned?
    ensures var call, next := st.calls[c], Begin(st, c, newId);
            exists added ::
              && AddedTo(st.stores, added, call.parent, call.job, newId, call.todo[0].spec)
              && Kept(added, next.stores)
              && next.h.home == st.h.home[newId := Home(call.parent, call.job, c)]
  {
    hide Kept, Write, RecordAt, AddedTo;
    var call := st.calls[c];
    var p, j := call.parent, call.job;
    assert p in st.stores && j in st.stores[p];
    var added := st.stores[p := AddSubtask(st.stores[p], j, call.todo[0].spec, newId).value];
    AddedRecord(st.stores, p, j, newId, call.todo[0].spec);
    NothingWritten(added);
    WriteKeepsParts(added, p, j, newId, FailWith("child cannot re-dispatch the same job"));
  }

  ghost predicate Lengthened(rs: seq<SubtaskRecord>, next: seq<SubtaskRecord>, s: SubtaskId, spec: SubtaskSpec) {
    |next| == |rs| + 1 && SameParts(rs, next[..|rs|]) && next[|rs|].id == s && next[|rs|].spec == spec
  }

  /** The job's list has one more record at its end; every other list is as it was. */
  ghost predicate AddedTo(stores: map<NodeId, Store>, next: map<NodeId, Store>, p: NodeId, j: JobId, s: SubtaskId,
                          spec: SubtaskSpec) {
    && (forall a, k :: !(a == p && k == j) ==> Subtasks(next, a, k) == Subtasks(stores, a, k))
    && Lengthened(Subtasks(stores, p, j), Subtasks(next, p, j), s, spec)
    && EndsKept(stores, next)
  }

  lemma AddedRecord(stores: map<NodeId, Store>, p: NodeId, j: JobId, s: SubtaskId, spec: SubtaskSpec)
    requires p in stores && j in stores[p]
    ensures AddedTo(stores, stores[p := AddSubtask(stores[p], j, spec, s).value], p, j, s, spec)
  {
    hide RollUp;
  }

  lemma OwnAfterBegin(st: State, l: Label, c: nat)
    requires HomesOk(st.stores, st.calls, st.h.home) && Enabled(st, l) && l.BeginL? && c < |st.calls|
    ensures var todo, next := st.calls[l.c].todo, After(st, l);
            && CanBegin(st, l.c, l.newId) && c < |next.calls|
            && Created(next, c) == Created(st, c) + (if c == l.c && todo[0].Planned?
                                                     then [Part(l.newId, todo[0].spec)] else [])
  {
    hide Own, Begin, CanLookup, Counted, CanSubmit, CanForward, WorksOn, RecordAt, HomesOk, Subtasks;
    assert After(st, l) == Begin(st, l.c, l.newId);
    BeginFrame(st, l.c, l.newId);
    ListsAfterBegin(st, l.c, l.newId, c);
    RecordsHaveHomes(st, st.calls[c].parent, st.calls[c].job);
    var rs := Subtasks(st.stores, st.calls[c].parent, st.calls[c].job);
    var rs' := Subtasks(After(st, l).stores, st.calls[c].parent, st.calls[c].job);
    if SameParts(rs, rs') && !(c == l.c && st.calls[l.c].todo[0].Planned?) {
      OwnKept(rs, rs', st.h.home, After(st, l).h.home, c);
    } else {
      OwnAdded(rs, rs', st.h.home, After(st, l).h.home, c, l.newId, st.calls[l.c].todo[0].spec);
    }
  }

  /** The list of the job of call c after call b begins its next subtask. */
  lemma ListsAfterBegin(st: State, b: nat, newId: SubtaskId, c: nat)
    requires HomesOk(st.stores, st.calls, st.h.home) && CanBegin(st, b, newId) && c < |st.calls|
    ensures var p, j, todo, next := st.calls[c].parent, st.calls[c].job, st.calls[b].todo, Begin(st, b, newId);
            var rs, rs' := Subtasks(st.stores, p, j), Subtasks(next.stores, p, j);
            && HomesGrow(st.h.home, next.h.home)
            && (SameParts(rs, rs')
                || (todo[0].Planned? && newId !in st.h.home && Lengthened(rs, rs', newId, todo[0].spec)
                    && newId in next.h.home && next.h.home[newId].call == b))
            && (c == b && todo[0].Planned? ==> Lengthened(rs, rs', newId, todo[0].spec))
  {
    hide Begin, WorksOn, RecordAt, PartsKept, EndsKept;
    assert st.calls[c].parent in st.stores && st.calls[c].job in st.stores[st.calls[c].parent];
    if st.calls[b].todo[0].Existing? {
      BeginExisting(st, b, newId);
      ListKept(st.stores, Begin(st, b, newId).stores, st.calls[c].parent, st.calls[c].job);
    } else {
      ListsAfterPlanned(st, b, newId, st.calls[c].parent, st.calls[c].job);
    }
  }

  lemma ListsAfterPlanned(st: State, b: nat, newId: SubtaskId, p: NodeId, j: JobId)
    requires HomesOk(st.stores, st.calls, st.h.home) && CanBegin(st, b, newId) && st.calls[b].todo[0].Planned?
    requires p in st.stores && j in st.stores[p]
    ensures var call, next := st.calls[b], Begin(st, b, newId);
            var rs, rs' := Subtasks(st.stores, p, j), Subtasks(next.stores, p, j);
            && next.h.home == st.h.home[newId := Home(call.parent, call.job, b)] && EndsKept(st.stores, next.stores)
            && (if p == call.parent && j == call.job then Lengthened(rs, rs', newId, call.todo[0].spec)
                else SameParts(rs, rs'))
  {
    hide WorksOn, RecordAt, HomesOk, EndsKept, PartsKept, AddedTo, Lengthened, SameParts, Subtasks, Begin;
    BeginPlanned(st, b, newId);
    var call, next := st.calls[b], Begin(st, b, newId);
    var added :| AddedTo(st.stores, added, call.parent, call.job, newId, call.todo[0].spec) && Kept(added, next.stores);
    ListAdded(st.stores, added, next.stores, call, newId, call.todo[0].spec, p, j);
  }

  lemma ListAdded(stores: map<NodeId, Store>, added: map<NodeId, Store>, next: map<NodeId, Store>, call: Call,
                  s: SubtaskId, spec: SubtaskSpec, p: NodeId, j: JobId)
    requires AddedTo(stores, added, call.parent, call.job, s, spec) && Kept(added, next)
    requires p in stores && j in stores[p]
    ensures EndsKept(stores, next)
    ensures var rs, rs' := Subtasks(stores, p, j), Subtasks(next, p, j);
            if p == call.parent && j == call.job then Lengthened(rs, rs', s, spec) else SameParts(rs, rs')
  {
    EndsKeptTwice(stores, added, next);
    KeysKept(stores, added);
    hide PartsKept, EndsKept, Subtasks;
    ListKept(added, next, p, j);
  }

  lemma KeysKept(stores: map<NodeId, Store>, next: map<NodeId, Store>)
    requires EndsKept(stores, next)
    ensures forall a, j :: a in stores && j in stores[a] ==> a in next && j in next[a]
  {}

  lemma EndsKeptTwice(stores: map<NodeId, Store>, mid: map<NodeId, Store>, next: map<NodeId, Store>)
    requires EndsKept(stores, mid) && EndsKept(mid, next)
    ensures EndsKept(stores, next)
  {}

  lemma ListKept(stores: map<NodeId, Store>, next: map<NodeId, Store>, p: NodeId, j: JobId)
    requires PartsKept(stores, next) && p in stores && j in stores[p]
    ensures SameParts(Subtasks(stores, p, j), Subtasks(next, p, j))
  {}

  lemma OwnAdded(rs: seq<SubtaskRecord>, next: seq<SubtaskRecord>, home: map<SubtaskId, Home>,
                 home': map<SubtaskId, Home>, c: nat, s: SubtaskId, spec: SubtaskSpec)
    requires Lengthened(rs, next, s, spec) && s !in home && HomesGrow(home, home') && s in home'
    requires forall i :: 0 <= i < |rs| ==> rs[i].id in home
    ensures Own(next, home', c) == Own(rs, home, c) + if home'[s].call == c then [Part(s, spec)] else []
  {
    OwnKept(rs, next[..|rs|], home, home', c);
  }

  lemma {:induction false} NothingUncreated(todo: seq<Todo>)
    requires forall x :: 0 <= x < |todo| ==> todo[x].Existing?
    ensures Uncreated(todo) == []
  {
    if todo != [] { NothingUncreated(todo[1..]); }
  }

  /** Conservation: a step other than the planner's answer takes the specs that a call
      still has to create subtasks for, in order, to those it has created them for. */
  lemma StepKeepsWanted(st: State, l: Label, c: nat)
    requires Inv(st) && Enabled(st, l) && c < |st.calls| && !(l.PlanL? && l.c == c)
    ensures c < |After(st, l).calls| && Wanted(After(st, l), c) == Wanted(st, c)
    ensures Created(st, c) <= Created(After(st, l), c)
  {
    hide Enabled, After, Created, CallsOk, AcksOk, EarlyOk, ReportsOk, RunsOk, BegunOk, PlacesOk, BoxesOk, SentOk,
         StatusOk, HomesOk;
    StepFrame(st, l);
    if l.BeginL? {
      OwnAfterBegin(st, l, c);
      BeginTakesFirst(st, l);
    } else {
      CreatedKept(st, l, c);
      if l.PlanL? { PlanSets(st, l); }
    }
  }

  lemma BeginTakesFirst(st: State, l: Label)
    requires Enabled(st, l) && l.BeginL?
    ensures l.c < |st.calls| && st.calls[l.c].todo != []
    ensures After(st, l).calls[l.c].todo == st.calls[l.c].todo[1..]
    ensures forall c :: 0 <= c < |st.calls| && c != l.c ==> After(st, l).calls[c] == st.calls[c]
  {
    hide Write, AddSubtask, WorksOn, CanLookup, Counted, CanSubmit, CanForward;
  }

  lemma PlanSets(st: State, l: Label)
    requires Enabled(st, l) && l.PlanL?
    ensures l.c < |st.calls| && st.calls[l.c].pc.Planning?
    ensures var next := After(st, l).calls;
            && next[l.c].pc.Next? && |next[l.c].todo| == |l.specs|
            && (forall i :: 0 <= i < |l.specs| ==> next[l.c].todo[i] == Planned(l.specs[i]))
            && forall c :: 0 <= c < |st.calls| && c != l.c ==> next[c] == st.calls[c]
  {
    hide CanLookup, Counted, CanSubmit, CanForward;
  }

  // ----- what a request starts

  lemma {:induction false} OwnAll(rs: seq<SubtaskRecord>, home: map<SubtaskId, Home>, c: nat)
    requires forall i :: 0 <= i < |rs| ==> rs[i].id in home && home[rs[i].id].call == c
    ensures |Own(rs, home, c)| == |rs|
    ensures forall i :: 0 <= i < |rs| ==> Own(rs, home, c)[i] == Part(rs[i].id, rs[i].spec)
  {
    if rs != [] { OwnAll(rs[..|rs| - 1], home, c); }
  }

  lemma {:induction false} OwnNone(rs: seq<SubtaskRecord>, home: map<SubtaskId, Home>, c: nat)
    requires forall s :: s in home ==> home[s].call != c
    ensures Own(rs, home, c) == []
  {
    if rs != [] { OwnNone(rs[..|rs| - 1], home, c); }
  }

  /** What a submission and a forward start: a call for that job; a forward may not go
      to the forwarding agent nor to the one that its source is assigned to. */
  ghost predicate Starts(st: State, l: Label, call: Call) {
    match l
    case SubmitL(p, j, _, _, _, _) => call.parent == p && call.job == j && call.exclude == {} && call.target == None
    case ForwardL(p, j, _, _, _, _, source, target) =>
      && call.parent == p && call.job == j && call.target == target
      && forall x :: x in call.exclude <==> x == p || (source.Some? && HasSource(st, p, j, source.value, x))
    case _ => false
  }

  /** The source is assigned to this agent. */
  predicate HasSource(st: State, p: NodeId, j: JobId, source: SubtaskId, a: NodeId) {
    var r := RecordAt(st.stores, p, j, source);
    source != "" && r.Some? && r.value.assignee == Some(a) && a != ""
  }

  /** The subtasks of a submission, as given. */
  ghost predicate AreGiven(parts: seq<Part>, ids: seq<SubtaskId>, specs: seq<SubtaskSpec>) {
    && |parts| == |ids| == |specs|
    && forall i :: 0 <= i < |parts| ==> parts[i].sub == ids[i] && parts[i].spec == specs[i]
  }

  lemma SubmitStarts(st: State, l: Label)
    requires Enabled(st, l) && l.SubmitL?
    ensures var next, c := After(st, l), |st.calls|;
            && |next.calls| == c + 1 && next.calls[..c] == st.calls && Starts(st, l, next.calls[c])
            && AreGiven(Created(next, c), l.ids, l.specs) && Wanted(next, c) == l.specs
  {
    hide Enabled, After, Own, Uncreated, Created, CanSubmit, Starts;
    SubmitEnters(st, l);
    SubmitCreates(st, l);
    NothingUncreated(Todos(l.ids));
  }

  lemma SubmitEnters(st: State, l: Label)
    requires Enabled(st, l) && l.SubmitL?
    ensures CanSubmit(st, l.p, l.j, l.specs, l.ids)
    ensures var next, c := After(st, l).calls, |st.calls|;
            && |next| == c + 1 && next[..c] == st.calls && next[c].todo == Todos(l.ids) && Starts(st, l, next[c])
            && next[c].pc == if l.specs != [] then Next else if l.planner then Planning else Local
  {
    hide CanLookup, Counted, CanForward, CanSubmit, Create, Todos;
  }

  lemma SubmitCreates(st: State, l: Label)
    requires Enabled(st, l) && l.SubmitL? && |After(st, l).calls| == |st.calls| + 1
    ensures AreGiven(Created(After(st, l), |st.calls|), l.ids, l.specs)
  {
    hide Own, CanLookup, Counted, CanForward, FreshJob, Todos;
    var next, c := After(st, l), |st.calls|;
    assert next == Submit(st, l.p, l.j, l.description, l.specs, l.ids, l.planner);
    var rs := Subtasks(next.stores, l.p, l.j);
    assert |rs| == |l.ids| && forall i :: 0 <= i < |rs| ==> rs[i].id == l.ids[i] && rs[i].spec == l.specs[i];
    OwnAll(rs, next.h.home, c);
  }

  /** A submission records a RUNNING job with its description, for its agent, and nothing
      else changes in any store. */
  lemma SubmitRecordsJob(st: State, l: Label)
    requires Enabled(st, l) && l.SubmitL?
    ensures forall a, j :: a in st.stores && j in st.stores[a] ==>
              a in After(st, l).stores && j in After(st, l).stores[a]
              && After(st, l).stores[a][j] == st.stores[a][j]
    ensures l.p in After(st, l).stores && l.j in After(st, l).stores[l.p]
    ensures var job := After(st, l).stores[l.p][l.j];
            && job.jobId == l.j && job.description == l.description && job.parent == l.p
            && job.status == JobRunning && job.localResult == None && job.error == None
            && |job.subtasks| == |l.specs|
            && forall i :: 0 <= i < |l.specs| ==>
                 job.subtasks[i].spec == l.specs[i] && job.subtasks[i].status == PendingTask
                 && job.subtasks[i].assignee == None
  {
    hide CanLookup, Counted, CanForward, Todos;
  }

  lemma ForwardStarts(st: State, l: Label)
    requires HomesOk(st.stores, st.calls, st.h.home) && Enabled(st, l) && l.ForwardL?
    ensures var next, c := After(st, l), |st.calls|;
            && |next.calls| == c + 1 && next.calls[..c] == st.calls && Starts(st, l, next.calls[c])
            && Created(next, c) == [] && |Wanted(next, c)| == 1 && ForwardAsks(st, l, Wanted(next, c)[0])
            && !next.calls[c].pc.Planning?
  {
    hide Own, CanLookup, Counted, CanSubmit, Find, HomesOk, ForwardPayload;
    var next, c := After(st, l), |st.calls|;
    assert next == Forward(st, l.p, l.j, l.description, l.skills, l.tools, l.payload, l.source, l.target);
    OwnNewest(st, Subtasks(next.stores, l.p, l.j));
    PayloadCarries(st, l.p, l.j, l.payload, l.source);
    var call := next.calls[c];
    assert |call.todo| == 1 && call.todo[0].Planned?;
    assert Uncreated(call.todo[1..]) == [];
    assert Wanted(next, c) == [call.todo[0].spec];
  }

  lemma OwnNewest(st: State, rs: seq<SubtaskRecord>)
    requires HomesOk(st.stores, st.calls, st.h.home)
    ensures Own(rs, st.h.home, |st.calls|) == []
  {
    OwnNone(rs, st.h.home, |st.calls|);
  }

  lemma PayloadCarries(st: State, p: NodeId, j: JobId, payload: Payload, source: Option<SubtaskId>)
    requires Truthy(source) ==> RecordAt(st.stores, p, j, source.value).Some?
    ensures !Truthy(source) ==> ForwardPayload(st, p, j, payload, source) == payload
    ensures Truthy(source) ==>
              var r := RecordAt(st.stores, p, j, source.value).value;
              r.id == source.value && CarriesSource(ForwardPayload(st, p, j, payload, source), payload, r)
  {
    hide Find;
  }

  lemma {:induction false} UncreatedOf(todo: seq<Todo>, specs: seq<SubtaskSpec>)
    requires |todo| == |specs| && forall i :: 0 <= i < |specs| ==> todo[i] == Planned(specs[i])
    ensures Uncreated(todo) == specs
  {
    if todo != [] { UncreatedOf(todo[1..], specs[1..]); }
  }

  /** Calls are numbered in the order in which they start. */
  lemma OtherStepsStartNothing(st: State, l: Label)
    requires Enabled(st, l) && !l.SubmitL? && !l.ForwardL?
    ensures |After(st, l).calls| == |st.calls|
  {
    hide Enabled, After;
    StepFrame(st, l);
  }

  // ----- over runs

  lemma NewCall(st: State, l: Label, c: nat)
    requires Inv(st) && Enabled(st, l) && |st.calls| <= c < |After(st, l).calls|
    ensures c == |st.calls| && (l.SubmitL? || l.ForwardL?) && Starts(st, l, After(st, l).calls[c])
    ensures Wanted(After(st, l), c) == [] || Asks(st, l, c, Wanted(After(st, l), c))
    ensures After(st, l).calls[c].pc.Planning? ==> Wanted(After(st, l), c) == []
  {
    hide Enabled, After, Created, CallsOk, AcksOk, EarlyOk, ReportsOk, RunsOk, BegunOk, PlacesOk, BoxesOk, SentOk,
         StatusOk, HomesOk, Uncreated, ForwardAsks, Starts;
    if l.SubmitL? {
      SubmitStarts(st, l);
      SubmitEnters(st, l);
    } else if l.ForwardL? {
      ForwardStarts(st, l);
    } else {
      OtherStepsStartNothing(st, l);
    }
  }

  /** Every call was started by a submission or a forward, with the job, the exclusions and
      the target that it still has. */
  lemma {:induction false} WhoStarted(states: seq<State>, labels: seq<Label>, n: nat, c: nat) returns (f: nat)
    requires IsRun(states, labels) && n <= |labels| && c < |states[n].calls|
    ensures f < n && c == |states[f].calls| && (labels[f].SubmitL? || labels[f].ForwardL?)
    ensures Starts(states[f], labels[f], states[n].calls[c])
  {
    hide Enabled, After, Inv, Wanted, HasSource;
    if n == 0 {
      assert false;
    } else {
      var st, l := states[n - 1], labels[n - 1];
      RunKeepsInv(states, labels, n - 1);
      f := n - 1;
      if c >= |st.calls| {
        NewCall(st, l, c);
      } else {
        StepFrame(st, l);
        f := WhoStarted(states, labels, n - 1, c);
      }
    }
  }

  /** While the planner is asked, nothing is wanted yet. */
  lemma {:induction false} PlanningHasNothing(states: seq<State>, labels: seq<Label>, n: nat, c: nat)
    requires IsRun(states, labels) && n <= |labels| && c < |states[n].calls| && states[n].calls[c].pc.Planning?
    ensures Wanted(states[n], c) == []
  {
    hide Enabled, After, Inv, Wanted;
    if n > 0 {
      var st, l := states[n - 1], labels[n - 1];
      RunKeepsInv(states, labels, n - 1);
      if c >= |st.calls| {
        NewCall(st, l, c);
      } else {
        StepFrame(st, l);
        PlanningHasNothing(states, labels, n - 1, c);
        if l.PlanL? { PlanSets(st, l); }
        StepKeepsWanted(st, l, c);
      }
    }
  }

  /** The planner's answer to a call that had nothing to do. */
  lemma PlannedIsWanted(st: State, l: Label)
    requires Inv(st) && Enabled(st, l) && l.PlanL? && l.c < |st.calls| && Wanted(st, l.c) == []
    ensures l.c < |After(st, l).calls| && Wanted(After(st, l), l.c) == l.specs
  {
    hide Enabled, After, Created, CallsOk, AcksOk, EarlyOk, ReportsOk, RunsOk, BegunOk, PlacesOk, BoxesOk, SentOk,
         StatusOk, HomesOk, Uncreated;
    StepFrame(st, l);
    CreatedKept(st, l, l.c);
    PlanSets(st, l);
    UncreatedOf(After(st, l).calls[l.c].todo, l.specs);
  }

  /** Whatever a call wants was asked of it at an earlier step. */
  lemma {:induction false} WhoAsked(states: seq<State>, labels: seq<Label>, n: nat, c: nat) returns (f: nat)
    requires IsRun(states, labels) && n <= |labels| && c < |states[n].calls| && Wanted(states[n], c) != []
    ensures f < n && Asks(states[f], labels[f], c, Wanted(states[n], c))
  {
    hide Enabled, After, Inv, Wanted, ForwardAsks;
    if n == 0 {
      assert false;
    } else {
      var st, l := states[n - 1], labels[n - 1];
      RunKeepsInv(states, labels, n - 1);
      f := n - 1;
      if c >= |st.calls| {
        NewCall(st, l, c);
      } else if l.PlanL? && l.c == c {
        PlanSets(st, l);
        PlanningHasNothing(states, labels, n - 1, c);
        PlannedIsWanted(st, l);
      } else {
        StepKeepsWanted(st, l, c);
        f := WhoAsked(states, labels, n - 1, c);
      }
    }
  }

  /** What a call wants stays the same once it is not waiting for a planner. */
  lemma {:induction false} WantedStays(states: seq<State>, labels: seq<Label>, f: nat, n: nat, c: nat)
    requires IsRun(states, labels) && f <= n <= |labels| && c < |states[f].calls| && !states[f].calls[c].pc.Planning?
    ensures c < |states[n].calls| && !states[n].calls[c].pc.Planning?
    ensures Wanted(states[n], c) == Wanted(states[f], c) && Created(states[f], c) <= Created(states[n], c)
    decreases n - f
  {
    hide Enabled, After, Inv, Wanted, Created;
    if f < n {
      var st, l := states[n - 1], labels[n - 1];
      WantedStays(states, labels, f, n - 1, c);
      RunKeepsInv(states, labels, n - 1);
      StepFrame(st, l);
      if l.PlanL? { PlanSets(st, l); }
      StepKeepsWanted(st, l, c);
    }
  }

  /** The step that asks. */
  lemma AskingStep(states: seq<State>, labels: seq<Label>, f: nat, c: nat, specs: seq<SubtaskSpec>)
    requires IsRun(states, labels) && f < |labels| && Asks(states[f], labels[f], c, specs)
    ensures c < |states[f + 1].calls| && !states[f + 1].calls[c].pc.Planning? && Wanted(states[f + 1], c) == specs
    ensures labels[f].SubmitL? ==> AreGiven(Created(states[f + 1], c), labels[f].ids, specs)
  {
    hide Enabled, After, Inv, Wanted, Created, CarriesSource, AreGiven, Initial;
    var st, l := states[f], labels[f];
    assert Enabled(st, l) && states[f + 1] == After(st, l);
    RunKeepsInv(states, labels, f);
    if l.SubmitL? {
      SubmitStarts(st, l);
      SubmitEnters(st, l);
    } else if l.PlanL? {
      PlanSets(st, l);
      PlanningHasNothing(states, labels, f, c);
      PlannedIsWanted(st, l);
    } else {
      assert HomesOk(st.stores, st.calls, st.h.home) by { InvHomes(st); }
      ForwardStarts(st, l);
      ForwardAsksOne(st, l, specs[0], Wanted(states[f + 1], c)[0]);
    }
  }

  lemma InvHomes(st: State)
    requires Inv(st)
    ensures HomesOk(st.stores, st.calls, st.h.home) && CallsOk(st.calls, st.h.home, st.h.sent)
  {}

  lemma ForwardAsksOne(st: State, l: Label, spec: SubtaskSpec, other: SubtaskSpec)
    requires l.ForwardL? && ForwardAsks(st, l, spec) && ForwardAsks(st, l, other)
    ensures spec == other
  {
    if Truthy(l.source) { assert spec.payload == other.payload; }
  }

  /** Over every run, a call creates what it was asked for: the specs of the subtasks it
      has created, followed by those it still has to create, are the specs asked for,
      and a call that has returned has created them all, in order. The subtasks of a
      submission have the ids given with it. */
  lemma AskedIsCreated(states: seq<State>, labels: seq<Label>, f: nat, n: nat, c: nat, specs: seq<SubtaskSpec>)
    requires IsRun(states, labels) && f < n <= |labels| && Asks(states[f], labels[f], c, specs)
    ensures c < |states[n].calls|
    ensures var parts := Created(states[n], c);
            && Specs(parts) + Uncreated(states[n].calls[c].todo) == specs
            && (states[n].calls[c].pc.Returned? ==> Specs(parts) == specs)
            && (labels[f].SubmitL? ==> AreGiven(parts, labels[f].ids, specs))
  {
    hide Enabled, After, Inv, Created, Initial, Asks;
    AskingStep(states, labels, f, c, specs);
    WantedStays(states, labels, f + 1, n, c);
    RunKeepsInv(states, labels, n);
    InvHomes(states[n]);
    assert CallFits(states[n].calls[c], c, states[n].h.home, states[n].h.sent);
  }
}
