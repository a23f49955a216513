/** Every run comes to rest, and what the records say when it does. */
module ClusterQuiescence {
  import opened Models
  import opened Jobs
  import opened Cluster
  import opened ClusterFrames
  import opened ClusterInvariant
  import opened ClusterSafety
  import ClusterParent
  import opened ClusterResults
  import opened ClusterRunner
  import Dispatch
  import Mailbox
  import Manager
  import JobHistory

  // ----- what is left to do

  function RunnerWeight(r: Mailbox.Runner): nat {
    match r
    case Spawned => 8
    case Executing(_) => 7
    case Reporting(_, _, attempt, posted) =>
      if attempt == 0 then (if posted then 4 else 6) else (if posted then 1 else 3)
  }

  function RunnersWeight(rs: seq<Mailbox.Runner>): nat {
    if rs == [] then 0 else RunnerWeight(rs[0]) + RunnersWeight(rs[1..])
  }

  function BoxWeight(box: Mailbox.State): nat {
    8 * |box.queue| + RunnersWeight(box.runners)
  }

  function CallWeight(call: Call): nat {
    12 * |call.todo|
    + match call.pc
      case Planning => 1
      case Local => 1
      case Next => 1
      case Looking(_) => 12
      case Awaiting(_) => 2
      case Returned => 0
      case Aborted => 0
  }

  function CallsWeight(calls: seq<Call>): nat {
    if calls == [] then 0 else CallWeight(calls[0]) + CallsWeight(calls[1..])
  }

  /** Calls whose planner has not answered: its plan may be of any length. */
  function Plans(calls: seq<Call>): nat {
    if calls == [] then 0 else (if calls[0].pc.Planning? then 1 else 0) + Plans(calls[1..])
  }

  ghost function BoxesWeight(boxes: map<NodeId, Mailbox.State>): nat
    decreases |boxes|
  {
    if boxes == map[] then 0
    else
      var a :| a in boxes;
      BoxWeight(boxes[a]) + BoxesWeight(boxes - {a})
  }

  ghost function Weight(st: State): nat {
    CallsWeight(st.calls) + 9 * |st.parcels| + |st.reports| + BoxesWeight(st.boxes)
  }

  // ----- the sums

  lemma {:induction false} CallsWeightAt(calls: seq<Call>, c: nat, call: Call)
    requires c < |calls|
    ensures CallsWeight(calls[c := call]) == CallsWeight(calls) - CallWeight(calls[c]) + CallWeight(call)
    ensures Plans(calls[c := call])
         == Plans(calls) - (if calls[c].pc.Planning? then 1 else 0) + (if call.pc.Planning? then 1 else 0)
  {
    hide CallWeight;
    if c == 0 {
      assert calls[0 := call][1..] == calls[1..];
    } else {
      assert calls[c := call][1..] == calls[1..][c - 1 := call];
      CallsWeightAt(calls[1..], c - 1, call);
    }
  }

  lemma {:induction false} BoxesWeightWithout(boxes: map<NodeId, Mailbox.State>, a: NodeId)
    requires a in boxes
    ensures BoxesWeight(boxes) == BoxWeight(boxes[a]) + BoxesWeight(boxes - {a})
    decreases |boxes|
  {
    hide BoxWeight;
    var b :| b in boxes && BoxesWeight(boxes) == BoxWeight(boxes[b]) + BoxesWeight(boxes - {b});
    if b != a {
      BoxesWeightWithout(boxes - {b}, a);
      BoxesWeightWithout(boxes - {a}, b);
      assert boxes - {b} - {a} == boxes - {a} - {b};
    }
  }

  lemma BoxesWeightAt(boxes: map<NodeId, Mailbox.State>, a: NodeId, box: Mailbox.State)
    requires a in boxes
    ensures BoxesWeight(boxes[a := box]) == BoxesWeight(boxes) - BoxWeight(boxes[a]) + BoxWeight(box)
  {
    hide BoxWeight, BoxesWeight;
    BoxesWeightWithout(boxes, a);
    BoxesWeightWithout(boxes[a := box], a);
    assert boxes[a := box] - {a} == boxes - {a};
  }

  // ----- every internal step does some of it

  ghost predicate Less(st: State, st': State) {
    Plans(st'.calls) < Plans(st.calls) || (Plans(st'.calls) == Plans(st.calls) && Weight(st') < Weight(st))
  }

  /** One call moves; the rest of the weight is unchanged or grows by one parcel. */
  lemma CallMoves(st: State, st': State, c: nat, call: Call)
    requires c < |st.calls| && st'.calls == st.calls[c := call]
    requires st'.boxes == st.boxes && st'.reports == st.reports && |st'.parcels| >= |st.parcels|
    requires if st.calls[c].pc.Planning? then !call.pc.Planning?
             else !call.pc.Planning? && CallWeight(call) + 9 * (|st'.parcels| - |st.parcels|) < CallWeight(st.calls[c])
    ensures Less(st, st')
  {
    CallsWeightAt(st.calls, c, call);
  }

  lemma CallStepLess(st: State, l: Label)
    requires Enabled(st, l)
    requires l.PlanL? || l.PlanFailsL? || l.LocalDoneL? || l.LocalRaisesL? || l.LookupRaisesL?
             || l.ReplyAcceptedL? || l.DispatchFailsL? || l.ReturnL?
    ensures Less(st, After(st, l))
  {
    hide Less, Write, Fail, CompleteLocal, Weight, CanLookup;
    CallMoves(st, After(st, l), l.c, After(st, l).calls[l.c]);
  }

  lemma BeginLess(st: State, c: nat, newId: SubtaskId)
    requires CanBegin(st, c, newId)
    ensures Less(st, Begin(st, c, newId))
  {
    hide Less, Write, AddSubtask, Weight, WorksOn;
    CallMoves(st, Begin(st, c, newId), c, Begin(st, c, newId).calls[c]);
  }

  lemma LookupLess(st: State, c: nat, mgr: Manager.State, answer: seq<NodeRecord>, counts: map<NodeId, nat>,
                   reason: string)
    requires CanLookup(st, c, mgr, answer)
    ensures Less(st, LookupDone(st, c, mgr, answer, counts, reason))
  {
    hide Less, Write, Weight, Dispatch.Choose, Dispatch.Answered, MessageOf, RequestOf;
    var next := LookupDone(st, c, mgr, answer, counts, reason);
    CallMoves(st, next, c, next.calls[c]);
  }

  /** One mailbox changes and the calls do not. */
  lemma BoxMoves(st: State, st': State, a: NodeId, box: Mailbox.State)
    requires a in st.boxes && st'.boxes == st.boxes[a := box] && st'.calls == st.calls
    requires BoxWeight(box) + 9 * |st'.parcels| + |st'.reports|
             < BoxWeight(st.boxes[a]) + 9 * |st.parcels| + |st.reports|
    ensures Less(st, st')
  {
    BoxesWeightAt(st.boxes, a, box);
  }

  lemma AcceptWeight(box: Mailbox.State, a: NodeId, capacity: nat, m: AssignMessage)
    requires Mailbox.Inv(box, a, capacity) && Mailbox.Accept(box, a, capacity, m).Ok?
    ensures BoxWeight(Mailbox.Accept(box, a, capacity, m).value) == BoxWeight(box) + 8
  {
    if box.slot.None? {
      SingleRunner(Mailbox.Spawned);
      assert box.runners + [Mailbox.Spawned] == [Mailbox.Spawned];
    }
  }

  lemma BoxIsValid(st: State, a: NodeId)
    requires Inv(st) && a in st.boxes
    ensures a in st.config && Mailbox.Inv(st.boxes[a], a, st.config[a].capacity)
  {
    hide HomesOk, RunsOk, BegunOk, EarlyOk, ReportsOk, AcksOk, SentOk, PlacesOk, CallsOk, StatusOk, Mailbox.Inv;
  }

  lemma DeliverLess(st: State, pk: Parcel)
    requires Inv(st) && CanDeliver(st, pk)
    ensures Less(st, Deliver(st, pk))
  {
    hide Inv, Less, BoxWeight, Mailbox.Accept, Mailbox.Inv;
    BoxIsValid(st, pk.to);
    var box, capacity := st.boxes[pk.to], st.config[pk.to].capacity;
    match Mailbox.Accept(box, pk.to, capacity, pk.msg) {
      case Ok(next) =>
        AcceptWeight(box, pk.to, capacity, pk.msg);
        BoxMoves(st, Deliver(st, pk), pk.to, next);
      case Err(_) =>
        assert st.boxes[pk.to := box] == st.boxes;
        BoxMoves(st, Deliver(st, pk), pk.to, box);
    }
  }

  lemma SingleRunner(r: Mailbox.Runner)
    ensures RunnersWeight([r]) == RunnerWeight(r)
  {
    assert [r][1..] == [];
  }

  lemma PassedWeight(box: Mailbox.State, a: NodeId, capacity: nat)
    requires Mailbox.Inv(box, a, capacity) && box.slot.Some?
    ensures BoxWeight(Mailbox.HandOver(box, 0)) < BoxWeight(box)
  {
    HandOverPasses(box, a, capacity);
    SingleRunner(box.runners[0]);
    SingleRunner(Mailbox.Spawned);
    assert box.runners == [box.runners[0]];
  }

  lemma RunnerWeights(box: Mailbox.State, a: NodeId, capacity: nat, next: Mailbox.State)
    requires Mailbox.Inv(box, a, capacity) && box.slot.Some?
    requires |next.runners| == 1 && next == Mailbox.WithRunner(box, 0, next.runners[0])
    ensures BoxWeight(next) == BoxWeight(box) - RunnerWeight(box.runners[0]) + RunnerWeight(next.runners[0])
  {
    SingleRunner(box.runners[0]);
    SingleRunner(next.runners[0]);
    assert box.runners == [box.runners[0]] && next.runners == [next.runners[0]];
  }

  lemma RunnerStepBox(box: Mailbox.State, a: NodeId, capacity: nat, o: Mailbox.Outcome)
    requires Mailbox.Inv(box, a, capacity) && box.slot.Some?
    ensures box.runners[0].Spawned? ==> BoxWeight(Mailbox.Begin(box, 0)) < BoxWeight(box)
    ensures box.runners[0].Executing? ==> BoxWeight(Mailbox.Execute(box, 0, a, o)) < BoxWeight(box)
    ensures box.runners[0].Reporting? && !box.runners[0].posted ==> BoxWeight(Mailbox.Post(box, 0)) + 1 < BoxWeight(box)
    ensures box.runners[0].Reporting? && box.runners[0].posted && !Mailbox.LastAttempt(box.runners[0]) ==>
              BoxWeight(Mailbox.Retry(box, 0)) < BoxWeight(box)
  {
    hide BoxWeight, Mailbox.ResultOf;
    match box.runners[0]
    case Spawned => RunnerWeights(box, a, capacity, Mailbox.Begin(box, 0));
    case Executing(_) => RunnerWeights(box, a, capacity, Mailbox.Execute(box, 0, a, o));
    case Reporting(_, _, _, posted) =>
      RunnerWeights(box, a, capacity, Mailbox.Post(box, 0));
      RunnerWeights(box, a, capacity, Mailbox.Retry(box, 0));
  }

  lemma RunnerStepLess(st: State, l: Label)
    requires Inv(st) && Enabled(st, l)
    requires l.BeginRunL? || l.ExecuteL? || l.PostL?
    ensures Less(st, After(st, l))
  {
    hide Inv, Less, BoxWeight, Mailbox.Inv, BoxFits, Mailbox.Begin, Mailbox.Execute, Mailbox.Post;
    TheRunner(st, l.a, l.i);
    RunnerStepBox(st.boxes[l.a], l.a, st.config[l.a].capacity, if l.ExecuteL? then l.o else Mailbox.Raised(""));
    BoxMoves(st, After(st, l), l.a, After(st, l).boxes[l.a]);
  }

  lemma AttemptStepLess(st: State, l: Label)
    requires Inv(st) && Enabled(st, l)
    requires l.AttemptFailsL? || l.AttemptDoneL?
    ensures Less(st, After(st, l))
  {
    hide Inv, Less, BoxWeight, Mailbox.Inv, BoxFits, Moved, Mailbox.HandOver, Mailbox.Retry;
    TheRunner(st, l.a, l.i);
    var box := st.boxes[l.a];
    PassedWeight(box, l.a, st.config[l.a].capacity);
    RunnerStepBox(box, l.a, st.config[l.a].capacity, Mailbox.Raised(""));
    BoxMoves(st, After(st, l), l.a, After(st, l).boxes[l.a]);
  }

  lemma NetworkStepLess(st: State, l: Label)
    requires Enabled(st, l)
    requires l.LoseL? || l.LoseReportL? || l.DeliverReportL?
    ensures Less(st, After(st, l))
  {
    hide Write, RecordAt, CallsWeight, Plans, BoxesWeight, Awaited;
  }

  /** Each step the cluster takes by itself reduces the plans still awaited, or keeps
      them and reduces the weight. */
  lemma InternalStepsReduce(st: State, l: Label)
    requires Inv(st) && Enabled(st, l) && l.Internal()
    ensures Less(st, After(st, l))
  {
    hide Inv, Less, Begin, Deliver, LookupDone;
    match l
    case BeginL(c, newId) => BeginLess(st, c, newId);
    case LookupL(c, mgr, answer, counts, reason) => LookupLess(st, c, mgr, answer, counts, reason);
    case DeliverL(pk) => DeliverLess(st, pk);
    case BeginRunL(_, _) => RunnerStepLess(st, l);
    case ExecuteL(_, _, _) => RunnerStepLess(st, l);
    case PostL(_, _) => RunnerStepLess(st, l);
    case AttemptFailsL(_, _) => AttemptStepLess(st, l);
    case AttemptDoneL(_, _) => AttemptStepLess(st, l);
    case LoseL(_) => NetworkStepLess(st, l);
    case LoseReportL(_) => NetworkStepLess(st, l);
    case DeliverReportL(_) => NetworkStepLess(st, l);
    case _ => CallStepLess(st, l);
  }

  /** Once nothing is submitted or forwarded any more, every sequence of states comes
      to one where it takes no further step. */
  lemma EveryRunEnds(states: nat -> State, labels: nat -> Label, n: nat) returns (end: nat)
    requires Inv(states(n))
    requires forall k: nat :: k >= n && Enabled(states(k), labels(k)) ==> states(k + 1) == After(states(k), labels(k))
    ensures end >= n && !(Enabled(states(end), labels(end)) && labels(end).Internal())
    decreases Plans(states(n).calls), Weight(states(n))
  {
    hide Inv, Enabled, After, Weight, Plans;
    end := n;
    if Enabled(states(n), labels(n)) && labels(n).Internal() {
      InternalStepsReduce(states(n), labels(n));
      StepKeepsInv(states(n), labels(n));
      end := EveryRunEnds(states, labels, n + 1);
    }
  }

  // ----- at rest

  /** All calls are over, nothing is in flight, and no agent has work. */
  ghost predicate Quiet(st: State) {
    && (forall c :: 0 <= c < |st.calls| ==> st.calls[c].pc.Over())
    && st.parcels == multiset{} && st.reports == multiset{}
    && (forall a :: a in st.boxes ==> st.boxes[a].runners == [])
  }

  function LongerThan(n: nat): (s: string)
    ensures |s| == n + 1
  {
    seq(n + 1, _ => 'x')
  }

  lemma {:induction false} LongestOf(ids: set<SubtaskId>) returns (n: nat)
    ensures forall s :: s in ids ==> |s| <= n
    decreases ids
  {
    if ids == {} {
      n := 0;
    } else {
      var s :| s in ids;
      n := LongestOf(ids - {s});
      if n < |s| { n := |s|; }
    }
  }

  /** An id that no subtask has. */
  lemma SomeFreshId(st: State) returns (s: SubtaskId)
    ensures Fresh(st, s)
  {
    var n := LongestOf(st.h.home.Keys);
    s := LongerThan(n);
  }

  /** A state that is not at rest can take a step by itself, if only a failing one. */
  lemma Progress(st: State) returns (l: Label)
    requires Inv(st) && !Quiet(st)
    ensures Enabled(st, l) && l.Internal()
  {
    if c :| 0 <= c < |st.calls| && !st.calls[c].pc.Over() {
      l := CallCanStep(st, c);
    } else if st.parcels != multiset{} {
      var pk :| pk in st.parcels;
      l := LoseL(pk);
    } else if st.reports != multiset{} {
      var rp :| rp in st.reports;
      l := LoseReportL(rp);
    } else {
      var a :| a in st.boxes && st.boxes[a].runners != [];
      match st.boxes[a].runners[0]
      case Spawned => l := BeginRunL(a, 0);
      case Executing(_) => l := ExecuteL(a, 0, Mailbox.Raised(""));
      case Reporting(_, _, _, posted) => l := if posted then AttemptFailsL(a, 0) else PostL(a, 0);
    }
  }

  /** A schedule that takes a step whenever one can be taken brings the cluster to rest,
      whatever fails on the way. */
  lemma EveryRunComesToRest(states: nat -> State, labels: nat -> Label, n: nat) returns (end: nat)
    requires Inv(states(n))
    requires forall k: nat :: k >= n && Enabled(states(k), labels(k)) ==> states(k + 1) == After(states(k), labels(k))
    requires forall k: nat :: k >= n && !Quiet(states(k)) ==> labels(k).Internal()
    requires forall k: nat, l :: k >= n && Enabled(states(k), l) && l.Internal() ==> Enabled(states(k), labels(k))
    ensures end >= n && Quiet(states(end))
    decreases Plans(states(n).calls), Weight(states(n))
  {
    hide Inv, Enabled, After, Weight, Plans, Quiet;
    end := n;
    if !Quiet(states(n)) {
      var l := Progress(states(n));
      assert Enabled(states(n), labels(n)) && labels(n).Internal();
      InternalStepsReduce(states(n), labels(n));
      StepKeepsInv(states(n), labels(n));
      end := EveryRunComesToRest(states, labels, n + 1);
    }
  }

  lemma CallCanStep(st: State, c: nat) returns (l: Label)
    requires c < |st.calls| && !st.calls[c].pc.Over()
    ensures Enabled(st, l) && l.Internal()
  {
    match st.calls[c].pc
    case Planning => l := PlanFailsL(c, "");
    case Local => l := LocalRaisesL(c);
    case Next =>
      if st.calls[c].todo == [] { l := ReturnL(c); } else { var s := SomeFreshId(st); l := BeginL(c, s); }
    case Looking(_) => l := LookupRaisesL(c);
    case Awaiting(_) => l := DispatchFailsL(c, "");
  }

  /** At rest, for a subtask of a call that returned. If a result of it was handled: the
      record says so, it is RUNNING if and only if the RUNNING write of its dispatch was
      the last, which means that the result was early, and COMPLETED or FAILED otherwise.
      If none was: it is terminal too, unless it was given up after two reports of which
      none arrived. */
  lemma QuietMeansFinished(states: seq<State>, labels: seq<Label>, n: nat, s: SubtaskId)
    requires IsRun(states, labels) && n <= |labels| && Quiet(states[n])
    requires s in states[n].h.home && states[n].h.home[s].call < |states[n].calls|
    requires states[n].calls[states[n].h.home[s].call].pc.Returned?
    ensures var st := states[n];
            var r := Rec(st.stores, st.h.home, s);
            && r.Some?
            && (s in st.h.handled ==> Told(st, s))
            && (s in st.h.covered ==> s in st.h.handled && s in st.h.early)
            && (if s in st.h.handled then r.value.status.Running? <==> s in st.h.covered && st.h.covered[s]
                else r.value.status.Terminal() || s in st.h.exhausted)
            && (r.value.status.Running? || r.value.status.Terminal())
  {
    hide Told, Inv, Enabled, After, Initial, Quiet, SlotHolds, QueueHolds, RecordAt;
    RunKeepsInv(states, labels, n);
    var st := states[n];
    var home := st.h.home[s];
    NoneStranded(states, labels, n, home.call, s);
    RunningIsHeld(states, labels, n, home.agent, home.job, s);
    forall a ensures !SlotHolds(st, a, s) && !QueueHolds(st, a, s) { HoldsNothing(st, a, s); }
    RunKeepsTold(states, labels, n);
    EarlyIsHandled(st);
    if s in st.h.handled { var m := HandledIsRecorded(states, labels, n, s); }
  }

  lemma EarlyIsHandled(st: State)
    requires Inv(st)
    ensures st.h.early <= st.h.handled
  {
    hide HomesOk, RunsOk, BegunOk, ReportsOk, AcksOk, SentOk, PlacesOk, CallsOk, StatusOk, BoxesOk;
  }

  lemma HoldsNothing(st: State, a: NodeId, s: SubtaskId)
    requires Inv(st) && Quiet(st)
    ensures !SlotHolds(st, a, s) && !QueueHolds(st, a, s)
  {
    hide Inv, Quiet;
    if a in st.boxes { EmptyMailbox(st, a); }
  }

  lemma EmptyMailbox(st: State, a: NodeId)
    requires Inv(st) && Quiet(st) && a in st.boxes
    ensures st.boxes[a].slot.None? && st.boxes[a].queue == []
  {
    hide HomesOk, RunsOk, BegunOk, EarlyOk, ReportsOk, AcksOk, SentOk, PlacesOk, CallsOk, StatusOk;
  }

  // ----- jobs at rest

  /** Each store's statuses are roll-ups, and the ids within a job are distinct. */
  ghost predicate StoresOk(stores: map<NodeId, Store>) {
    forall a :: a in stores ==>
      JobHistory.RolledUp(stores[a]) && forall j :: j in stores[a] ==> DistinctIds(stores[a][j].subtasks)
  }

  lemma WriteKeepsStores(stores: map<NodeId, Store>, a: NodeId, j: JobId, s: SubtaskId, c: Change)
    requires StoresOk(stores)
    ensures StoresOk(Write(stores, a, j, s, c))
  {
    hide RollUp, Amend;
    if a in stores {
      JobHistory.ApplyKeepsRollUp(stores[a], JobHistory.UpdateOp(j, s, c));
      if UpdateSubtask(stores[a], j, s, c).Ok? { AmendKeepsDistinct(stores[a][j].subtasks, s, c); }
    }
    hide JobHistory.RolledUp;
  }

  lemma AmendKeepsDistinct(rs: seq<SubtaskRecord>, s: SubtaskId, c: Change)
    requires DistinctIds(rs)
    ensures DistinctIds(AmendAll(rs, s, c))
  {
    assert forall i :: 0 <= i < |rs| ==> AmendAll(rs, s, c)[i].id == rs[i].id;
  }

  lemma SubmitKeepsStores(st: State, p: NodeId, j: JobId, description: string, specs: seq<SubtaskSpec>,
                          ids: seq<SubtaskId>, planner: bool)
    requires StoresOk(st.stores) && CanSubmit(st, p, j, specs, ids)
    ensures StoresOk(Submit(st, p, j, description, specs, ids, planner).stores)
  {
    hide RollUp;
    JobHistory.ApplyKeepsRollUp(st.stores[p], JobHistory.CreateOp(j, p, description, specs, ids));
    hide JobHistory.RolledUp;
    assert DistinctIds(RecordsFromSpecs(specs, ids));
  }

  lemma AddKeepsStores(stores: map<NodeId, Store>, p: NodeId, j: JobId, spec: SubtaskSpec, s: SubtaskId)
    requires StoresOk(stores) && p in stores && j in stores[p] && RecordAt(stores, p, j, s).None?
    ensures StoresOk(stores[p := AddSubtask(stores[p], j, spec, s).value])
  {
    hide RollUp, Find;
    JobHistory.ApplyKeepsRollUp(stores[p], JobHistory.AddOp(j, spec, s));
    hide JobHistory.RolledUp;
    var rs := stores[p][j].subtasks;
    assert !HasId(rs, s);
    assert forall i :: 0 <= i < |rs| ==> rs[i].id != s;
    assert DistinctIds(rs + [RecordFromSpec(spec, s)]);
  }

  lemma EndKeepsStores(stores: map<NodeId, Store>, a: NodeId, next: Store)
    requires StoresOk(stores) && a in stores && JobHistory.RolledUp(next)
    requires next.Keys == stores[a].Keys && forall j :: j in next ==> next[j].subtasks == stores[a][j].subtasks
    ensures StoresOk(stores[a := next])
  {
    hide JobHistory.RolledUp;
  }

  lemma PlanFailsKeepsStores(st: State, c: nat, text: string)
    requires Inv(st) && StoresOk(st.stores) && CanPlan(st, c)
    ensures StoresOk(PlanFails(st, c, text).stores)
  {
    hide StatusOk, PlacesOk, RunsOk, BegunOk, BoxesOk, AcksOk, EarlyOk, CallsOk, SentOk, RollUp, DistinctIds;
    var a, j := st.calls[c].parent, st.calls[c].job;
    JobHistory.ApplyKeepsRollUp(st.stores[a], JobHistory.FailOp(j, "planning failed: " + text));
    hide HomesOk, JobHistory.RolledUp;
    EndKeepsStores(st.stores, a, Fail(st.stores[a], j, "planning failed: " + text).value);
  }

  lemma LocalDoneKeepsStores(st: State, c: nat, result: string)
    requires Inv(st) && StoresOk(st.stores) && CanEndLocal(st, c)
    ensures StoresOk(LocalDone(st, c, result).stores)
  {
    hide StatusOk, PlacesOk, RunsOk, BegunOk, BoxesOk, AcksOk, EarlyOk, CallsOk, SentOk, RollUp, DistinctIds;
    var a, j := st.calls[c].parent, st.calls[c].job;
    JobHistory.ApplyKeepsRollUp(st.stores[a], JobHistory.CompleteOp(j, result));
    hide HomesOk, JobHistory.RolledUp;
    EndKeepsStores(st.stores, a, CompleteLocal(st.stores[a], j, result).value);
  }

  lemma BeginKeepsStores(st: State, c: nat, newId: SubtaskId)
    requires Inv(st) && StoresOk(st.stores) && CanBegin(st, c, newId)
    ensures StoresOk(Begin(st, c, newId).stores)
  {
    hide StatusOk, PlacesOk, RunsOk, BegunOk, BoxesOk, AcksOk, EarlyOk, CallsOk, SentOk, StoresOk, RecordAt, Write,
         AddSubtask;
    var call := st.calls[c];
    if call.todo[0].Existing? {
      WriteKeepsStores(st.stores, call.parent, call.job, call.todo[0].sub,
                       FailWith("child cannot re-dispatch the same job"));
    } else {
      AddKeepsStores(st.stores, call.parent, call.job, call.todo[0].spec, newId);
      ClusterParent.AddedOk(st, call.parent, call.job, call.todo[0].spec, newId);
      var next := AddSubtask(st.stores[call.parent], call.job, call.todo[0].spec, newId).value;
      WriteKeepsStores(st.stores[call.parent := next], call.parent, call.job, newId,
                       FailWith("child cannot re-dispatch the same job"));
    }
  }

  lemma LookupKeepsStores(st: State, c: nat, mgr: Manager.State, answer: seq<NodeRecord>, counts: map<NodeId, nat>,
                          reason: string)
    requires StoresOk(st.stores) && CanLookup(st, c, mgr, answer)
    ensures StoresOk(LookupDone(st, c, mgr, answer, counts, reason).stores)
  {
    hide StoresOk, Write, Dispatch.Choose, Dispatch.Answered, RequestOf, MessageOf;
    var call := st.calls[c];
    match Chosen(st, c, mgr, answer, counts)
    case Ok(choice) => WriteKeepsStores(st.stores, call.parent, call.job, call.pc.sub, Assign(choice.node.id));
    case Err(_) => WriteKeepsStores(st.stores, call.parent, call.job, call.pc.sub, FailWith(reason));
  }

  lemma ResumeKeepsStores(st: State, c: nat, reason: string)
    requires StoresOk(st.stores) && CanResume(st, c)
    ensures StoresOk(ReplyAccepted(st, c).stores) && StoresOk(DispatchFails(st, c, reason).stores)
  {
    hide StoresOk, Write;
    var call := st.calls[c];
    WriteKeepsStores(st.stores, call.parent, call.job, call.pc.sub, StartRunning);
    WriteKeepsStores(st.stores, call.parent, call.job, call.pc.sub, FailWith(reason));
    WriteKeepsStores(Write(st.stores, call.parent, call.job, call.pc.sub, FailWith(reason)), call.parent, call.job,
                     call.pc.sub, FailWith(reason));
  }

  lemma ReportKeepsStores(st: State, rp: Report)
    requires StoresOk(st.stores) && CanReport(st, rp)
    ensures StoresOk(DeliverReport(st, rp).stores)
  {
    hide StoresOk, Write, RecordAt;
    WriteKeepsStores(st.stores, rp.to, rp.msg.job, rp.msg.sub, Accept(rp.msg));
  }

  lemma StepKeepsStores(st: State, l: Label)
    requires Inv(st) && StoresOk(st.stores) && Enabled(st, l)
    ensures StoresOk(After(st, l).stores)
  {
    hide Inv, StoresOk, Write, Submit, PlanFails, LocalDone, Begin, LookupDone, ReplyAccepted, DispatchFails, RecordAt,
         CanSubmit, CanForward, CanLookup, Counted, DeliverReport;
    if !WritesStore(l) {
      hide Enabled, After;
      StepFrame(st, l);
    } else {
      match l
      case SubmitL(p, j, description, specs, ids, planner) =>
        SubmitKeepsStores(st, p, j, description, specs, ids, planner);
      case PlanFailsL(c, text) => PlanFailsKeepsStores(st, c, text);
      case LocalDoneL(c, result) => LocalDoneKeepsStores(st, c, result);
      case BeginL(c, newId) => BeginKeepsStores(st, c, newId);
      case LookupL(c, mgr, answer, counts, reason) => LookupKeepsStores(st, c, mgr, answer, counts, reason);
      case ReplyAcceptedL(c) => ResumeKeepsStores(st, c, "");
      case DispatchFailsL(c, reason) => ResumeKeepsStores(st, c, reason);
      case DeliverReportL(rp) => ReportKeepsStores(st, rp);
    }
  }

  lemma {:induction false} StoresAlwaysOk(states: seq<State>, labels: seq<Label>, n: nat)
    requires IsRun(states, labels) && n <= |labels|
    ensures StoresOk(states[n].stores)
  {
    hide Inv, Enabled, After;
    if n > 0 {
      StoresAlwaysOk(states, labels, n - 1);
      RunKeepsInv(states, labels, n - 1);
      StepKeepsStores(states[n - 1], labels[n - 1]);
    }
  }

  /** When the cluster is at rest, every job with subtasks is COMPLETED or FAILED,
      given that its calls returned, no result of it ended under a RUNNING write, and none
      was given up unheard. */
  lemma QuietJobsAreFinished(states: seq<State>, labels: seq<Label>, n: nat, a: NodeId, j: JobId)
    requires IsRun(states, labels) && n <= |labels| && Quiet(states[n])
    requires a in states[n].stores && j in states[n].stores[a] && states[n].stores[a][j].subtasks != []
    requires var st := states[n];
             forall s :: s in st.h.home && st.h.home[s].job == j ==>
               st.h.home[s].call < |st.calls| && st.calls[st.h.home[s].call].pc.Returned?
               && !(s in st.h.covered && st.h.covered[s]) && !(s in st.h.exhausted && s !in st.h.handled)
    ensures states[n].stores[a][j].status.JobCompleted? || states[n].stores[a][j].status.JobFailed?
  {
    hide Enabled, After, Initial, Inv, Quiet;
    var st := states[n];
    RunKeepsInv(states, labels, n);
    StoresAlwaysOk(states, labels, n);
    var job := st.stores[a][j];
    forall i | 0 <= i < |job.subtasks| ensures job.subtasks[i].status.Terminal() {
      RecordsFinished(states, labels, n, a, j, i);
    }
  }

  lemma RecordsFinished(states: seq<State>, labels: seq<Label>, n: nat, a: NodeId, j: JobId, i: nat)
    requires IsRun(states, labels) && n <= |labels| && Quiet(states[n]) && Inv(states[n])
    requires a in states[n].stores && j in states[n].stores[a] && i < |states[n].stores[a][j].subtasks|
    requires DistinctIds(states[n].stores[a][j].subtasks)
    requires var st := states[n];
             forall s :: s in st.h.home && st.h.home[s].job == j ==>
               st.h.home[s].call < |st.calls| && st.calls[st.h.home[s].call].pc.Returned?
               && !(s in st.h.covered && st.h.covered[s]) && !(s in st.h.exhausted && s !in st.h.handled)
    ensures states[n].stores[a][j].subtasks[i].status.Terminal()
  {
    hide Inv, Enabled, After, Initial, Quiet, DistinctIds;
    var s := states[n].stores[a][j].subtasks[i].id;
    RecordHasHome(states[n], a, j, i);
    QuietMeansFinished(states, labels, n, s);
  }

  lemma RecordHasHome(st: State, a: NodeId, j: JobId, i: nat)
    requires Inv(st) && a in st.stores && j in st.stores[a] && i < |st.stores[a][j].subtasks|
    requires DistinctIds(st.stores[a][j].subtasks)
    ensures var r := st.stores[a][j].subtasks[i];
            r.id in st.h.home && st.h.home[r.id].job == j && Rec(st.stores, st.h.home, r.id) == Some(r)
  {
    hide Find, StatusOk, PlacesOk, RunsOk, BegunOk, BoxesOk, AcksOk, EarlyOk, CallsOk, SentOk;
    FindAt(st.stores[a][j].subtasks, i);
    assert RecordAt(st.stores, a, j, st.stores[a][j].subtasks[i].id) == Some(st.stores[a][j].subtasks[i]);
  }
}
