/** A call dispatches its subtasks one after the other, in the order in which it created
    them; and what each dispatch does to the round-robin cursor of its agent. */
module ClusterOrder {
  import opened Models
  import opened Cluster
  import opened ClusterFrames
  import opened ClusterInvariant
  import opened ClusterSafety
  import opened ClusterTrace
  import opened ClusterRequests
  import opened ClusterMessages
  import opened ClusterEnds
  import Catalog
  import ClusterParent
  import Dispatch
  import Manager
  import Scheduler

  // ----- one after the other

  function Recorded(todo: seq<Todo>): seq<SubtaskId> {
    if todo == [] then []
    else (if todo[0].Existing? then [todo[0].sub] else []) + Recorded(todo[1..])
  }

  /** The subtask that the call looks up, and then those on its list. */
  function Remaining(call: Call): seq<SubtaskId> {
    (if call.pc.Looking? then [call.pc.sub] else []) + Recorded(call.todo)
  }

  /** The remaining subtasks are the last that the call created, in the same order. */
  ghost predicate IsTail(ids: seq<SubtaskId>, parts: seq<Part>) {
    |ids| <= |parts| && forall i :: 0 <= i < |ids| ==> parts[|parts| - |ids| + i].sub == ids[i]
  }

  /** A list is either of recorded subtasks or of planned ones. */
  predicate OneKind(todo: seq<Todo>) {
    (forall x :: 0 <= x < |todo| ==> todo[x].Existing?) || (forall x :: 0 <= x < |todo| ==> todo[x].Planned?)
  }

  ghost predicate Ordered(st: State, c: nat)
    requires c < |st.calls|
  {
    OneKind(st.calls[c].todo) && IsTail(Remaining(st.calls[c]), Created(st, c))
  }

  lemma {:induction false} RecordedAll(todo: seq<Todo>)
    requires forall x :: 0 <= x < |todo| ==> todo[x].Existing?
    ensures |Recorded(todo)| == |todo| && forall x :: 0 <= x < |todo| ==> Recorded(todo)[x] == todo[x].sub
  {
    if todo != [] { RecordedAll(todo[1..]); }
  }

  lemma {:induction false} RecordedNone(todo: seq<Todo>)
    requires forall x :: 0 <= x < |todo| ==> todo[x].Planned?
    ensures Recorded(todo) == []
  {
    if todo != [] { RecordedNone(todo[1..]); }
  }

  lemma NewIsOrdered(st: State, l: Label)
    requires Inv(st) && Enabled(st, l) && (l.SubmitL? || l.ForwardL?)
    ensures |After(st, l).calls| == |st.calls| + 1 && Ordered(After(st, l), |st.calls|)
  {
    hide Created, Enabled, After, Inv, Wanted, IsTail, OneKind, Remaining;
    if l.SubmitL? {
      SubmitStarts(st, l);
      SubmitEnters(st, l);
      ListIsTail(After(st, l).calls[|st.calls|], Created(After(st, l), |st.calls|), l.ids, l.specs);
    } else {
      InvHomes(st);
      hide HomesOk, CallsOk, ForwardAsks;
      ForwardStarts(st, l);
      ForwardLists(st, l);
      PlanIsTail(After(st, l).calls[|st.calls|], []);
    }
  }

  lemma ListIsTail(call: Call, parts: seq<Part>, ids: seq<SubtaskId>, specs: seq<SubtaskSpec>)
    requires call.todo == Todos(ids) && !call.pc.Looking? && AreGiven(parts, ids, specs)
    ensures OneKind(call.todo) && IsTail(Remaining(call), parts)
  {
    RecordedAll(call.todo);
  }

  lemma PlanIsTail(call: Call, parts: seq<Part>)
    requires (forall x :: 0 <= x < |call.todo| ==> call.todo[x].Planned?) && !call.pc.Looking?
    ensures OneKind(call.todo) && IsTail(Remaining(call), parts)
  {
    RecordedNone(call.todo);
  }

  lemma ForwardLists(st: State, l: Label)
    requires Enabled(st, l) && l.ForwardL? && |After(st, l).calls| == |st.calls| + 1
    ensures var call := After(st, l).calls[|st.calls|];
            call.pc.Next? && forall x :: 0 <= x < |call.todo| ==> call.todo[x].Planned?
  {
    hide CanLookup, Counted, CanForward, CanSubmit, ForwardPayload;
  }

  lemma TailOfFewer(ids: seq<SubtaskId>, parts: seq<Part>)
    requires IsTail(ids, parts) && ids != []
    ensures IsTail(ids[1..], parts)
  {}

  lemma TailAfterBegin(call: Call, next: Call, parts: seq<Part>, parts': seq<Part>, s: SubtaskId)
    requires OneKind(call.todo) && IsTail(Remaining(call), parts) && call.pc.Next? && call.todo != []
    requires next.pc == Looking(BeginId(call, s)) && next.todo == call.todo[1..]
    requires parts' == parts + if call.todo[0].Planned? then [Part(s, call.todo[0].spec)] else []
    ensures OneKind(next.todo) && IsTail(Remaining(next), parts')
  {
    hide IsTail, OneKind;
    RestIsOneKind(call.todo);
    if call.todo[0].Existing? {
      assert Remaining(next) == Remaining(call) && parts' == parts;
    } else {
      assert Remaining(next) == [s];
      AddedIsTail(parts, Part(s, call.todo[0].spec));
    }
  }

  lemma RestIsOneKind(todo: seq<Todo>)
    requires OneKind(todo) && todo != []
    ensures OneKind(todo[1..]) && (todo[0].Planned? ==> Recorded(todo[1..]) == [])
  {
    assert forall x :: 0 <= x < |todo[1..]| ==> todo[1..][x] == todo[x + 1];
    if todo[0].Planned? { RecordedNone(todo[1..]); }
  }

  lemma AddedIsTail(parts: seq<Part>, part: Part)
    ensures IsTail([part.sub], parts + [part])
  {}

  lemma StepKeepsOrder(st: State, l: Label, c: nat)
    requires Inv(st) && Enabled(st, l) && c < |st.calls| && Ordered(st, c)
    ensures c < |After(st, l).calls| && Ordered(After(st, l), c)
  {
    hide Inv, Enabled, After, Created, IsTail, OneKind, Wanted, HomesOk;
    InvHomes(st);
    assert CallFits(st.calls[c], c, st.h.home, st.h.sent);
    hide CallsOk;
    StepFrame(st, l);
    if l.BeginL? {
      OwnAfterBegin(st, l, c);
      if l.c == c {
        WhereItMoves(st, l);
        BeginLooks(st, l);
        TailAfterBegin(st.calls[c], After(st, l).calls[c], Created(st, c), Created(After(st, l), c), l.newId);
      } else {
        assert After(st, l).calls[c] == st.calls[c] && Created(After(st, l), c) == Created(st, c);
      }
    } else {
      CreatedKept(st, l, c);
      if l.Moves(c) { MoveKeepsOrder(st, l, c); }
    }
  }

  lemma MoveKeepsOrder(st: State, l: Label, c: nat)
    requires Enabled(st, l) && l.Moves(c) && !l.BeginL? && c < |st.calls| && Ordered(st, c)
    requires |After(st, l).calls| == |st.calls| && Created(After(st, l), c) == Created(st, c)
    requires st.calls[c].pc.Planning? ==> st.calls[c].todo == []
    ensures Ordered(After(st, l), c)
  {
    hide Enabled, After, Created;
    StepFrame(st, l);
    WhereItMoves(st, l);
    var before, next := st.calls[c], After(st, l).calls[c];
    if l.PlanL? {
      PlanSets(st, l);
      PlanIsTail(next, Created(st, c));
    } else {
      MovedOn(st, l);
      assert next.todo == before.todo;
      if before.pc.Looking? {
        TailOfFewer(Remaining(before), Created(st, c));
        assert Remaining(before)[1..] == Recorded(before.todo);
      }
    }
  }

  lemma MovedOn(st: State, l: Label)
    requires Enabled(st, l) && l.OfCall() && !l.SubmitL? && !l.ForwardL? && !l.BeginL?
    ensures l.c < |After(st, l).calls| && !After(st, l).calls[l.c].pc.Looking?
  {
    if l.LookupL? {
      hide Enabled, After;
      LookupEnds(st, l);
    } else {
      hide Write, CanLookup, LookupDone, Counted, CanSubmit, CanForward;
    }
  }

  lemma {:induction false} RunKeepsOrder(states: seq<State>, labels: seq<Label>, n: nat, c: nat)
    requires IsRun(states, labels) && n <= |labels| && c < |states[n].calls|
    ensures Ordered(states[n], c)
  {
    hide Enabled, After, Inv, Ordered;
    if n > 0 {
      var st, l := states[n - 1], labels[n - 1];
      RunKeepsInv(states, labels, n - 1);
      if c < |st.calls| {
        RunKeepsOrder(states, labels, n - 1, c);
        StepKeepsOrder(st, l, c);
      } else {
        NewCall(st, l, c);
        NewIsOrdered(st, l);
      }
    }
  }

  lemma WaitingRemains(st: State, s: SubtaskId)
    requires Waits(st, s) && OneKind(st.calls[st.h.home[s].call].todo)
    ensures s in Remaining(st.calls[st.h.home[s].call])
  {
    var call := st.calls[st.h.home[s].call];
    if call.pc != Looking(s) {
      var x :| 0 <= x < |call.todo| && call.todo[x] == Existing(s);
      RecordedAll(call.todo);
      assert Recorded(call.todo)[x] == s;
    }
  }

  lemma RemainingWaits(st: State, s: SubtaskId, c: nat)
    requires s in st.h.home && st.h.home[s].call == c < |st.calls| && OneKind(st.calls[c].todo)
    requires s in Remaining(st.calls[c])
    ensures Waits(st, s)
  {
    var call := st.calls[c];
    if forall x :: 0 <= x < |call.todo| ==> call.todo[x].Existing? {
      RecordedAll(call.todo);
      if call.pc != Looking(s) {
        var x :| 0 <= x < |Recorded(call.todo)| && Recorded(call.todo)[x] == s;
        assert call.todo[x] == Existing(s);
      }
    } else {
      RecordedNone(call.todo);
    }
  }

  /** While a subtask of a call waits for its dispatch, so does every one that the call
      created after it, and none of these has been sent. */
  lemma DispatchInOrder(states: seq<State>, labels: seq<Label>, n: nat, c: nat, i: nat, k: nat)
    requires IsRun(states, labels) && n <= |labels| && c < |states[n].calls|
    requires i < k < |Created(states[n], c)| && Waits(states[n], Created(states[n], c)[i].sub)
    ensures var later := Created(states[n], c)[k].sub; Waits(states[n], later) && later !in states[n].h.sent
  {
    hide Enabled, After, Initial, Inv, Created, Waits, HomesOk, CallsOk, RecordAt;
    var st := states[n];
    var parts := Created(st, c);
    RunKeepsInv(states, labels, n);
    PartsAreTheCalls(states, labels, n, c);
    assert parts[i].sub in st.h.home && st.h.home[parts[i].sub].call == c;
    assert parts[k].sub in st.h.home && st.h.home[parts[k].sub].call == c;
    RunKeepsOrder(states, labels, n, c);
    WaitingRemains(st, parts[i].sub);
    LaterRemains(Remaining(st.calls[c]), parts, i, k);
    RemainingWaits(st, parts[k].sub, c);
    WaitingIsUnsent(st, parts[k].sub);
  }

  lemma LaterRemains(ids: seq<SubtaskId>, parts: seq<Part>, i: nat, k: nat)
    requires IsTail(ids, parts) && DistinctParts(parts) && i < k < |parts| && parts[i].sub in ids
    ensures parts[k].sub in ids
  {
    var x :| 0 <= x < |ids| && ids[x] == parts[i].sub;
    var at := |parts| - |ids|;
    assert parts[at + x].sub == parts[i].sub;
    assert at + x == i;
    assert ids[k - at] == parts[at + (k - at)].sub;
  }

  lemma WaitingIsUnsent(st: State, s: SubtaskId)
    requires Inv(st) && Waits(st, s)
    ensures s !in st.h.sent
  {
    hide HomesOk, RunsOk, BegunOk, EarlyOk, ReportsOk, BoxesOk, AcksOk, SentOk, PlacesOk, StatusOk;
    var c := st.h.home[s].call;
    assert CallFits(st.calls[c], c, st.h.home, st.h.sent);
  }

  // ----- the cursor

  function Cursor(st: State, p: NodeId): nat {
    if p in st.cursors then st.cursors[p] else 0
  }

  /** The cursor of an agent moves by one when a call of it chooses among the nodes of the
      manager's answer, and by no other step; a named target leaves it. */
  lemma CursorMoves(st: State, l: Label, p: NodeId)
    requires Enabled(st, l)
    ensures var chose := l.LookupL? && st.calls[l.c].parent == p && !Catalog.Given(st.calls[l.c].target)
                         && Chosen(st, l.c, l.mgr, l.answer, l.counts).Ok?;
            Cursor(After(st, l), p) == Cursor(st, p) + if chose then 1 else 0
  {
    if l.LookupL? {
      hide Enabled, After, Counted, CanLookup, LookupDone, Chosen;
      LookupStep(st, l);
      LookupMoves(st, l, p);
    } else {
      hide Enabled, After;
      StepFrame(st, l);
    }
  }

  lemma LookupMoves(st: State, l: Label, p: NodeId)
    requires l.LookupL? && CanLookup(st, l.c, l.mgr, l.answer)
    ensures var r, next := Chosen(st, l.c, l.mgr, l.answer, l.counts),
                           LookupDone(st, l.c, l.mgr, l.answer, l.counts, l.reason);
            Cursor(next, p) == Cursor(st, p)
              + if st.calls[l.c].parent == p && !Catalog.Given(st.calls[l.c].target) && r.Ok? then 1 else 0
  {
    hide Write, MessageOf, Dispatch.CheckNamed, Dispatch.Choose, Catalog.IsAnswer, RecordAt;
    var call := st.calls[l.c];
    var req, from := RequestOf(st, l.c), Cursor(st, call.parent);
    ChoiceMoves(req, l.mgr, l.answer, l.counts, from);
  }

  lemma ChoiceMoves(req: Dispatch.Request, mgr: Manager.State, answer: seq<NodeRecord>, counts: map<NodeId, nat>,
                    cursor: nat)
    requires Dispatch.AsksForNode(req) ==> req.target.value in mgr.nodes
    ensures var r := Dispatch.Choose(req, mgr, answer, counts, cursor);
            r.Ok? ==> r.value.cursor == cursor + if Catalog.Given(req.target) then 0 else 1
  {
    hide Dispatch.Unblocked, Scheduler.Pool;
    var candidates := Dispatch.Unblocked(answer, Dispatch.Blocked(req));
    if candidates != [] { Scheduler.PickAtCursor(candidates, counts, cursor); }
  }

  // ----- when a forward is refused

  /** A forward is refused exactly when the agent does not hold the job or the job has no
      such source; the agent itself is never at work on a job of its own. */
  lemma ForwardPossibleIff(states: seq<State>, labels: seq<Label>, n: nat, p: NodeId, j: JobId,
                           source: Option<SubtaskId>)
    requires IsRun(states, labels) && n <= |labels|
    ensures var st := states[n];
            CanForward(st, p, j, source)
            <==> p in st.stores && j in st.stores[p]
                 && (source.Some? && source.value != "" ==>
                       exists i :: 0 <= i < |st.stores[p][j].subtasks|
                                   && st.stores[p][j].subtasks[i].id == source.value)
  {
    hide Enabled, After, Initial, Inv, WorksOn, HomesOk, CallsOk;
    RunKeepsInv(states, labels, n);
    InvHomes(states[n]);
    if p in states[n].stores && j in states[n].stores[p] {
      ClusterParent.GuardNeverFires(states[n], p, j);
      JobIsItsParents(states[n], p, j);
    }
  }

  lemma JobIsItsParents(st: State, p: NodeId, j: JobId)
    requires HomesOk(st.stores, st.calls, st.h.home) && p in st.stores && j in st.stores[p]
    ensures st.stores[p][j].parent == p
  {}
}
