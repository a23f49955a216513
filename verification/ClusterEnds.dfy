/** How calls end: which subtasks get no message and why, and what a job without
    subtasks holds afterwards. */
module ClusterEnds {
  import opened Models
  import opened Jobs
  import opened Cluster
  import opened ClusterFrames
  import opened ClusterInvariant
  import opened ClusterSafety
  import opened ClusterTrace
  import opened ClusterRequests
  import opened ClusterMessages
  import opened ClusterProgress
  import ClusterParent
  import ClusterQuiescence
  import ClusterResults
  import Dispatch

  // ----- why a subtask has no message

  /** The call of this subtask has still to look for an agent. */
  ghost predicate Waits(st: State, s: SubtaskId) {
    && s in st.h.home && st.h.home[s].call < |st.calls|
    && var call := st.calls[st.h.home[s].call]; (Existing(s) in call.todo || call.pc == Looking(s))
  }

  ghost predicate Aborted(st: State, s: SubtaskId) {
    s in st.h.home && st.h.home[s].call < |st.calls| && st.calls[st.h.home[s].call].pc.Aborted?
  }

  /** Step l is the manager's answer that leaves the call without a target. */
  ghost predicate FindsNone(st: State, l: Label, s: SubtaskId) {
    && l.LookupL? && CanLookup(st, l.c, l.mgr, l.answer) && st.calls[l.c].pc == Looking(s)
    && Chosen(st, l.c, l.mgr, l.answer, l.counts).Err?
  }

  lemma BeginLooks(st: State, l: Label)
    requires Inv(st) && Enabled(st, l) && l.BeginL?
    ensures CanBegin(st, l.c, l.newId)
    ensures var call, next := st.calls[l.c], After(st, l);
            var s := BeginId(call, l.newId);
            && |next.calls| == |st.calls| && next.calls[l.c].pc == Looking(s)
            && next.calls[l.c].todo == call.todo[1..]
            && next.h.home == (if call.todo[0].Planned? then st.h.home[s := Home(call.parent, call.job, l.c)]
                               else st.h.home)
  {
    hide Write, AddSubtask, CanLookup, Counted, CanSubmit, CanForward, Inv;
    InvHomes(st);
    hide CallsOk;
    ParentHasJob(st, l.c);
    ClusterParent.GuardNeverFires(st, st.calls[l.c].parent, st.calls[l.c].job);
    AddingWorks(st, l.c, l.newId);
  }

  lemma ParentHasJob(st: State, c: nat)
    requires HomesOk(st.stores, st.calls, st.h.home) && c < |st.calls|
    ensures st.calls[c].parent in st.stores && st.calls[c].job in st.stores[st.calls[c].parent]
  {}

  lemma AddingWorks(st: State, c: nat, s: SubtaskId)
    requires c < |st.calls| && st.calls[c].parent in st.stores && st.calls[c].job in st.stores[st.calls[c].parent]
    ensures forall spec :: AddSubtask(st.stores[st.calls[c].parent], st.calls[c].job, spec, s).Ok?
  {}

  /** Where the moving call stands when it takes a step. */
  lemma WhereItMoves(st: State, l: Label)
    requires Enabled(st, l) && l.OfCall() && !l.SubmitL? && !l.ForwardL?
    ensures l.c < |st.calls|
    ensures var pc := st.calls[l.c].pc;
            && (l.PlanL? || l.PlanFailsL? ==> pc.Planning?) && (l.LocalDoneL? || l.LocalRaisesL? ==> pc.Local?)
            && (l.LookupRaisesL? || l.LookupL? ==> pc.Looking?)
            && (l.ReplyAcceptedL? || l.DispatchFailsL? ==> pc.Awaiting?)
            && (l.BeginL? || l.ReturnL? ==> pc.Next?) && (l.ReturnL? ==> st.calls[l.c].todo == [])
            && (l.BeginL? ==> st.calls[l.c].todo != [])
    ensures l.LookupRaisesL? ==> |After(st, l).calls| == |st.calls| && After(st, l).calls[l.c].pc.Aborted?
  {
    hide Counted, Dispatch.Answered, CanSubmit, CanForward;
  }

  /** A new subtask waits: it is on the list of its submission, or being looked up. */
  lemma NewSubtaskWaits(st: State, l: Label, s: SubtaskId)
    requires Inv(st) && Enabled(st, l) && s in After(st, l).h.home && s !in st.h.home
    ensures Waits(After(st, l), s)
  {
    if l.SubmitL? {
      hide Inv, CanLookup, Counted, CanForward, FreshJob;
      var i :| 0 <= i < |l.ids| && l.ids[i] == s;
      assert Todos(l.ids)[i] == Existing(s);
    } else if l.BeginL? {
      hide Inv, Enabled, After;
      BeginLooks(st, l);
    } else {
      hide Enabled, After;
      StepFrame(st, l);
    }
  }

  /** Whoever stops waiting without a message found no agent, or the call was aborted. */
  lemma StopsWaiting(st: State, l: Label, s: SubtaskId)
    requires Inv(st) && Enabled(st, l) && Waits(st, s)
    ensures Waits(After(st, l), s) || s in After(st, l).h.sent || Aborted(After(st, l), s) || FindsNone(st, l, s)
  {
    hide Inv, Enabled, After, HomesOk;
    InvHomes(st);
    var c := st.h.home[s].call;
    assert CallFits(st.calls[c], c, st.h.home, st.h.sent);
    hide CallsOk;
    HomesOnlyGrow(st, l);
    StepFrame(st, l);
    if l.Moves(c) {
      hide Frame;
      WhereItMoves(st, l);
      if l.BeginL? {
        BeginLooks(st, l);
      } else if l.LookupL? {
        LookupEnds(st, l);
      } else if !l.LookupRaisesL? && !l.PlanL? {
        assert After(st, l).calls[c].todo == st.calls[c].todo by { StepFrame(st, l); }
      }
    }
  }

  lemma LookupEnds(st: State, l: Label)
    requires Enabled(st, l) && l.LookupL?
    ensures CanLookup(st, l.c, l.mgr, l.answer) && |After(st, l).calls| == |st.calls|
    ensures After(st, l).calls[l.c].todo == st.calls[l.c].todo && !After(st, l).calls[l.c].pc.Looking?
    ensures Chosen(st, l.c, l.mgr, l.answer, l.counts).Ok? ==> st.calls[l.c].pc.sub in After(st, l).h.sent
  {
    hide Counted, Chosen, Dispatch.Answered, Write, RequestOf, MessageOf;
  }

  lemma {:induction false} WhyUnsent(states: seq<State>, labels: seq<Label>, n: nat, s: SubtaskId) returns (k: nat)
    requires IsRun(states, labels) && n <= |labels| && s in states[n].h.home && s !in states[n].h.sent
    requires !Waits(states[n], s) && !Aborted(states[n], s)
    ensures k < n && FindsNone(states[k], labels[k], s)
  {
    hide Enabled, After, Inv, Waits, FindsNone;
    if n == 0 {
      assert false;
    } else {
      var st, l := states[n - 1], labels[n - 1];
      RunKeepsInv(states, labels, n - 1);
      if s !in st.h.home {
        NewSubtaskWaits(st, l, s);
      } else if Waits(st, s) {
        StopsWaiting(st, l, s);
        k := n - 1;
      } else {
        StaysUnsent(st, l, s);
        k := WhyUnsent(states, labels, n - 1, s);
      }
    }
  }

  lemma StaysUnsent(st: State, l: Label, s: SubtaskId)
    requires Inv(st) && Enabled(st, l) && s in st.h.home
    ensures s in st.h.sent ==> s in After(st, l).h.sent
    ensures Aborted(st, s) ==> Aborted(After(st, l), s)
  {
    hide Inv, Enabled, After, HomesOk, CallsOk;
    InvHomes(st);
    HomesOnlyGrow(st, l);
    StepFrame(st, l);
    if s in st.h.sent { SentOnce(st, l, s); }
  }

  /** Over every run: a subtask of a returned call for which no message was sent is FAILED,
      and at the lookup for it there was no node in the manager's tables that could do
      what was asked for and that the call allows. */
  lemma UnsentMeansNoneEligible(states: seq<State>, labels: seq<Label>, n: nat, s: SubtaskId)
    returns (f: nat, i: nat, specs: seq<SubtaskSpec>, k: nat)
    requires IsRun(states, labels) && n <= |labels| && s in states[n].h.home && s !in states[n].h.sent
    requires states[n].h.home[s].call < |states[n].calls| && states[n].calls[states[n].h.home[s].call].pc.Returned?
    ensures var r := Rec(states[n].stores, states[n].h.home, s); r.Some? && r.value.status.Failed?
    ensures var c := states[n].h.home[s].call;
            && f < n && Asks(states[f], labels[f], c, specs) && i < |specs|
            && i < |Created(states[n], c)| && Created(states[n], c)[i].sub == s
            && k < n && labels[k].LookupL? && labels[k].c == c && c < |states[k].calls|
            && var call := states[k].calls[c];
               && call.parent in states[k].config
               && forall node :: !Dispatch.Eligible(labels[k].mgr,
                                                    Dispatch.Request(call.parent, states[k].config[call.parent].group,
                                                                     specs[i], call.exclude, call.target),
                                                    node)
  {
    hide Enabled, After, Initial, Inv, Asks, Created, Wanted, Rec, FindsNone, RequestOf, Dispatch.Eligible;
    RunKeepsInv(states, labels, n);
    UnsentIsFailed(states[n], s);
    DoesNotWait(states[n], s);
    k := WhyUnsent(states, labels, n, s);
    f, i, specs := LookedUpFor(states, labels, k, n, s);
    NoneFound(states[k], labels[k], s);
    RunKeepsInv(states, labels, k);
    CallersAreAgents(states[k], labels[k].c);
    SpecLookedUp(states[k], labels[k].c, s);
  }

  lemma DoesNotWait(st: State, s: SubtaskId)
    requires Inv(st) && s in st.h.home && st.h.home[s].call < |st.calls|
    requires st.calls[st.h.home[s].call].pc.Returned?
    ensures !Waits(st, s) && !Aborted(st, s)
  {
    hide HomesOk, RunsOk, BegunOk, EarlyOk, ReportsOk, BoxesOk, AcksOk, SentOk, PlacesOk, StatusOk;
    var c := st.h.home[s].call;
    assert CallFits(st.calls[c], c, st.h.home, st.h.sent);
  }

  lemma UnsentIsFailed(st: State, s: SubtaskId)
    requires Inv(st) && s in st.h.home && s !in st.h.sent && st.h.home[s].call < |st.calls|
    requires st.calls[st.h.home[s].call].pc.Returned?
    ensures Rec(st.stores, st.h.home, s).Some? && Rec(st.stores, st.h.home, s).value.status.Failed?
  {
    SettledNow(st, st.h.home[s].call, s);
    hide HomesOk, CallsOk, BegunOk, EarlyOk, ReportsOk, BoxesOk, AcksOk, SentOk, PlacesOk, PlaceOf, Rec;
  }

  lemma NoneFound(st: State, l: Label, s: SubtaskId)
    requires FindsNone(st, l, s)
    ensures l.LookupL? && CanLook(st, l.c) && st.calls[l.c].pc == Looking(s)
    ensures forall node :: !Dispatch.Eligible(l.mgr, RequestOf(st, l.c), node)
  {
    hide RequestOf, Dispatch.Choose, Dispatch.Eligible;
    var p := st.calls[l.c].parent;
    Dispatch.ChosenIsEligible(RequestOf(st, l.c), l.mgr, l.answer, l.counts,
                              if p in st.cursors then st.cursors[p] else 0);
  }

  /** The spec that is looked up for is the one asked for. */
  lemma LookedUpFor(states: seq<State>, labels: seq<Label>, k: nat, n: nat, s: SubtaskId)
    returns (f: nat, i: nat, specs: seq<SubtaskSpec>)
    requires IsRun(states, labels) && k < n <= |labels| && FindsNone(states[k], labels[k], s)
    ensures labels[k].LookupL? && CanLook(states[k], labels[k].c)
    ensures var c := labels[k].c;
            && c < |states[n].calls| && s in states[n].h.home && states[n].h.home[s].call == c
            && f < n && Asks(states[f], labels[f], c, specs) && i < |specs|
            && i < |Created(states[n], c)| && Created(states[n], c)[i].sub == s
            && RequestOf(states[k], c).spec == specs[i]
  {
    hide Inv, Enabled, After, Initial, Asks, Created, Rec, RequestOf;
    NoneFound(states[k], labels[k], s);
    RunKeepsInv(states, labels, k);
    var c := labels[k].c;
    SendCarriesSpec(states[k], c, s);
    InvHomes(states[k]);
    hide HomesOk, CallsOk;
    RecordIsPart(states[k], s);
    HomesStay(states, labels, k, n);
    WantedStays(states, labels, k, n, c);
    i :| 0 <= i < |Created(states[k], c)| && Created(states[k], c)[i] == Part(s, MessageOf(states[k], c).spec);
    specs := Wanted(states[n], c);
    f := WhoAsked(states, labels, n, c);
    assert Specs(Created(states[n], c))[i] == Created(states[n], c)[i].spec;
  }

  lemma SpecLookedUp(st: State, c: nat, s: SubtaskId)
    requires CanLook(st, c) && st.calls[c].pc == Looking(s) && st.calls[c].parent in st.config
    ensures var call := st.calls[c];
            RequestOf(st, c) == Dispatch.Request(call.parent, st.config[call.parent].group, RequestOf(st, c).spec,
                                                 call.exclude, call.target)
  {
    hide RecordAt;
  }

  // ----- jobs without subtasks

  /** The first step that a call takes after step f. */
  lemma FirstMove(states: seq<State>, labels: seq<Label>, f: nat, n: nat, c: nat) returns (k: nat)
    requires IsRun(states, labels) && f <= n <= |labels| && c < |states[f].calls| && c < |states[n].calls|
    requires states[n].calls[c] != states[f].calls[c]
    ensures f <= k < n && labels[k].Moves(c) && c < |states[k].calls| && states[k].calls[c] == states[f].calls[c]
    decreases n - f
  {
    hide Enabled, After;
    k := f;
    if !labels[f].Moves(c) {
      StepFrame(states[f], labels[f]);
      k := FirstMove(states, labels, f + 1, n, c);
    }
  }

  /** The job of a call has neither result nor error of its own. */
  ghost predicate Open(stores: map<NodeId, Store>, call: Call) {
    && call.parent in stores && call.job in stores[call.parent]
    && stores[call.parent][call.job].localResult == None && stores[call.parent][call.job].error == None
  }

  /** The job of a call that is planning or running locally is open, and no earlier call
      is for that job. */
  ghost predicate EntryOk(stores: map<NodeId, Store>, calls: seq<Call>, c: nat)
    requires c < |calls|
  {
    calls[c].pc.Planning? || calls[c].pc.Local? ==>
      && Open(stores, calls[c])
      && forall d :: 0 <= d < c ==> !SameJob(calls[d], calls[c])
  }

  predicate SameJob(x: Call, y: Call) {
    x.parent == y.parent && x.job == y.job
  }

  ghost predicate EntriesOk(st: State) {
    forall c :: 0 <= c < |st.calls| ==> EntryOk(st.stores, st.calls, c)
  }

  lemma NewEntry(st: State, l: Label)
    requires Inv(st) && Enabled(st, l) && |After(st, l).calls| == |st.calls| + 1
    ensures EntryOk(After(st, l).stores, After(st, l).calls, |st.calls|)
  {
    if l.SubmitL? {
      InvHomes(st);
      hide Inv, HomesOk, CallsOk, Submit, CanLookup, Counted, CanForward;
      JobIsNew(st, l.p, l.j, l.description, l.specs, l.ids, l.planner);
    } else if l.ForwardL? {
      hide Inv, CanLookup, Counted, CanSubmit;
    } else {
      hide Enabled, After;
      StepFrame(st, l);
    }
  }

  lemma JobIsNew(st: State, p: NodeId, j: JobId, description: string, specs: seq<SubtaskSpec>, ids: seq<SubtaskId>,
                 planner: bool)
    requires HomesOk(st.stores, st.calls, st.h.home) && CanSubmit(st, p, j, specs, ids)
    ensures var next := Submit(st, p, j, description, specs, ids, planner);
            |next.calls| == |st.calls| + 1 && EntryOk(next.stores, next.calls, |st.calls|)
  {
    hide HomesOk, Todos, RecordsFromSpecs;
    forall d | 0 <= d < |st.calls| ensures st.calls[d].job != j { ParentHasJob(st, d); }
  }

  /** Only the end of a call's own planning or local run gives its job a result or an
      error. */
  lemma StaysOpen(st: State, l: Label, call: Call)
    requires Inv(st) && Enabled(st, l) && Open(st.stores, call)
    requires l.PlanFailsL? || l.LocalDoneL? ==> l.c < |st.calls| && !SameJob(st.calls[l.c], call)
    ensures Open(After(st, l).stores, call)
  {
    if l.PlanFailsL? || l.LocalDoneL? {
      hide Inv, CanLookup, Counted, CanSubmit, CanForward;
    } else {
      hide Inv, Enabled, After, HomesOk;
      StepKeepsEnds(st, l);
    }
  }

  lemma StepKeepsEnds(st: State, l: Label)
    requires Inv(st) && Enabled(st, l) && !l.PlanFailsL? && !l.LocalDoneL?
    ensures EndsKept(st.stores, After(st, l).stores)
  {
    hide Inv;
    if l.BeginL? {
      InvHomes(st);
      hide HomesOk, Begin, PartsKept, EndsKept, CanLookup, Counted, CanSubmit, CanForward;
      ParentHasJob(st, l.c);
      if st.calls[l.c].todo[0].Existing? {
        BeginExisting(st, l.c, l.newId);
      } else {
        ListsAfterPlanned(st, l.c, l.newId, st.calls[l.c].parent, st.calls[l.c].job);
      }
    } else {
      hide Enabled, After;
      StepKeepsParts(st, l);
    }
  }

  lemma StepKeepsEntries(st: State, l: Label)
    requires Inv(st) && Enabled(st, l) && EntriesOk(st)
    ensures EntriesOk(After(st, l))
  {
    hide Inv, Enabled, After, Open, SameJob;
    StepFrame(st, l);
    var next := After(st, l);
    forall c | 0 <= c < |next.calls| ensures EntryOk(next.stores, next.calls, c) {
      if c >= |st.calls| {
        NewCall(st, l, c);
        OneNewCall(st, l, c);
        NewEntry(st, l);
      } else if (next.calls[c].pc.Planning? || next.calls[c].pc.Local?) && !l.Moves(c) {
        assert EntryOk(st.stores, st.calls, c);
        if l.PlanFailsL? || l.LocalDoneL? {
          WhereItMoves(st, l);
          assert EntryOk(st.stores, st.calls, l.c);
          SameJobBack(st.calls[l.c], st.calls[c]);
        }
        StaysOpen(st, l, st.calls[c]);
        forall d | 0 <= d < c ensures !SameJob(next.calls[d], next.calls[c]) {
          assert !SameJob(st.calls[d], st.calls[c]);
          SameTerms(st.calls[d], next.calls[d], next.calls[c]);
        }
      }
    }
  }

  lemma OneNewCall(st: State, l: Label, c: nat)
    requires Inv(st) && Enabled(st, l) && c == |st.calls| < |After(st, l).calls|
    ensures |After(st, l).calls| == |st.calls| + 1
  {
    if |After(st, l).calls| > |st.calls| + 1 { NewCall(st, l, c + 1); }
  }

  lemma SameJobBack(x: Call, y: Call)
    ensures SameJob(x, y) <==> SameJob(y, x)
  {}

  lemma SameTerms(x: Call, x': Call, y: Call)
    requires x.parent == x'.parent && x.job == x'.job
    ensures SameJob(x, y) <==> SameJob(x', y)
  {}

  lemma {:induction false} RunKeepsEntries(states: seq<State>, labels: seq<Label>, n: nat)
    requires IsRun(states, labels) && n <= |labels|
    ensures EntriesOk(states[n])
  {
    hide Inv, Enabled, After, EntryOk;
    if n > 0 {
      RunKeepsInv(states, labels, n - 1);
      RunKeepsEntries(states, labels, n - 1);
      StepKeepsEntries(states[n - 1], labels[n - 1]);
    }
  }

  /** The end of a local run: the job holds the text, no error, and it is COMPLETED unless
      subtasks that were forwarded meanwhile are not. The end of a failed planning: it is
      FAILED with the text. */
  ghost predicate EndRecorded(st: State, l: Label, next: State)
    requires l.LocalDoneL? || l.PlanFailsL?
  {
    && l.c < |st.calls| && l.c < |next.calls|
    && var call := st.calls[l.c];
       && call.parent in st.stores && call.job in st.stores[call.parent]
       && call.parent in next.stores && call.job in next.stores[call.parent]
       && var before, job := st.stores[call.parent][call.job], next.stores[call.parent][call.job];
          && job.subtasks == before.subtasks && job.description == before.description
          && next.calls[l.c].pc.Returned?
          && (if l.LocalDoneL? then
                && job.localResult == Some(l.result) && job.error == None
                && (job.status.JobCompleted? <==>
                      forall i :: 0 <= i < |job.subtasks| ==> job.subtasks[i].status.Completed?)
              else
                job.error == Some("planning failed: " + l.text) && job.status.JobFailed? && job.localResult == None)
  }

  lemma EndIsRecorded(states: seq<State>, labels: seq<Label>, k: nat)
    requires IsRun(states, labels) && k < |labels| && (labels[k].LocalDoneL? || labels[k].PlanFailsL?)
    ensures EndRecorded(states[k], labels[k], states[k + 1])
  {
    hide Enabled, After, Initial, Inv, EndRecorded, EntryOk;
    EnabledAt(states, labels, k);
    RunKeepsEntries(states, labels, k);
    WhereItMoves(states[k], labels[k]);
    assert EntryOk(states[k].stores, states[k].calls, labels[k].c);
    EndRecords(states[k], labels[k]);
  }

  lemma EndRecords(st: State, l: Label)
    requires Enabled(st, l) && (l.LocalDoneL? || l.PlanFailsL?)
    requires l.c < |st.calls| && EntryOk(st.stores, st.calls, l.c)
    requires st.calls[l.c].pc.Planning? || st.calls[l.c].pc.Local?
    ensures EndRecorded(st, l, After(st, l))
  {
    hide CanLookup, Counted, CanSubmit, CanForward;
  }

  /** A submission without subtasks that has returned went to the planner if there is one,
      which answered or failed, and was otherwise run on the agent itself; an end
      without subtasks is recorded in the job. */
  lemma HowSubmissionEnds(states: seq<State>, labels: seq<Label>, f: nat, n: nat) returns (k: nat)
    requires IsRun(states, labels) && f < n <= |labels| && labels[f].SubmitL? && labels[f].specs == []
    requires |states[f].calls| < |states[n].calls| && states[n].calls[|states[f].calls|].pc.Returned?
    ensures f < k < n && labels[k].Moves(|states[f].calls|)
    ensures if labels[f].planner then labels[k].PlanL? || labels[k].PlanFailsL? else labels[k].LocalDoneL?
    ensures labels[k].c < |states[k].calls|
    ensures var call := states[k].calls[labels[k].c]; call.parent == labels[f].p && call.job == labels[f].j
    ensures !labels[k].PlanL? ==> EndRecorded(states[k], labels[k], states[k + 1])
  {
    hide Enabled, After, Initial, Inv, EndRecorded, Wanted, Created;
    var c := |states[f].calls|;
    EnabledAt(states, labels, f);
    SubmitStarts(states[f], labels[f]);
    SubmitEnters(states[f], labels[f]);
    k := FirstMove(states, labels, f + 1, n, c);
    EnabledAt(states, labels, k);
    WhereItMoves(states[k], labels[k]);
    if labels[k].LocalRaisesL? {
      LocalAborts(states[k], labels[k]);
      StaysOver(states, labels, k + 1, n, c);
      assert false;
    }
    if !labels[k].PlanL? { EndIsRecorded(states, labels, k); }
  }

  lemma LocalAborts(st: State, l: Label)
    requires Enabled(st, l) && l.LocalRaisesL?
    ensures l.c < |After(st, l).calls| && After(st, l).calls[l.c].pc.Aborted?
  {
    hide CanLookup, Counted, CanSubmit, CanForward;
  }

  lemma {:induction false} StaysOver(states: seq<State>, labels: seq<Label>, k: nat, n: nat, c: nat)
    requires IsRun(states, labels) && k <= n <= |labels| && c < |states[k].calls| && states[k].calls[c].pc.Over()
    ensures c < |states[n].calls| && states[n].calls[c] == states[k].calls[c]
    decreases n - k
  {
    hide Enabled, After;
    if k < n {
      StaysOver(states, labels, k, n - 1, c);
      StepFrame(states[n - 1], labels[n - 1]);
    }
  }

  // ----- runs without failures

  /** A run without failures that has nothing left to do has done what it was asked: for
      each spec of each request, in order, there is a subtask with that spec, and it is
      COMPLETED or FAILED, given that no RUNNING write stands over its early result. */
  lemma FaultFreeRunDoesAll(states: seq<State>, labels: seq<Label>, n: nat, f: nat, c: nat, specs: seq<SubtaskSpec>)
    requires IsRun(states, labels) && n <= |labels| && NoFault(states, labels, n) && NothingLost(states, labels, n)
    requires forall l :: !Healthy(states[n], l)
    requires f < n && Asks(states[f], labels[f], c, specs)
    ensures c < |states[n].calls|
    ensures var st := states[n];
            var parts := Created(st, c);
            && |parts| == |specs|
            && forall i :: 0 <= i < |parts| ==>
                 && parts[i].spec == specs[i] && parts[i].sub in st.h.home && st.h.home[parts[i].sub].call == c
                 && var r := Rec(st.stores, st.h.home, parts[i].sub);
                    && r.Some? && r.value.spec == specs[i]
                    && (r.value.status.Terminal() || (parts[i].sub in st.h.covered && st.h.covered[parts[i].sub]))
  {
    hide Enabled, After, Initial, Inv, Asks, Created, Healthy, NoFault, NothingLost, ClusterResults.Told, Rec, Find,
         ClusterQuiescence.Quiet, DistinctParts, HomesOk, CallsOk, RecordAt;
    AskedIsCreated(states, labels, f, n, c, specs);
    FaultFreeRunFinishes(states, labels, n, "");
    PartsAreTheCalls(states, labels, n, c);
    RunKeepsInv(states, labels, n);
    InvHomes(states[n]);
    var st, parts := states[n], Created(states[n], c);
    forall i | 0 <= i < |parts|
      ensures parts[i].spec == specs[i] && parts[i].sub in st.h.home && st.h.home[parts[i].sub].call == c
      ensures var r := Rec(st.stores, st.h.home, parts[i].sub);
              && r.Some? && r.value.spec == specs[i]
              && (r.value.status.Terminal() || (parts[i].sub in st.h.covered && st.h.covered[parts[i].sub]))
    {
      assert Specs(parts)[i] == parts[i].spec;
      FaultFreeRunFinishes(states, labels, n, parts[i].sub);
      RecIsAtCall(st, parts[i].sub);
    }
  }

  lemma RecIsAtCall(st: State, s: SubtaskId)
    requires HomesOk(st.stores, st.calls, st.h.home) && s in st.h.home
    ensures st.h.home[s].call < |st.calls|
    ensures var call := st.calls[st.h.home[s].call];
            Rec(st.stores, st.h.home, s) == RecordAt(st.stores, call.parent, call.job, s)
            && Rec(st.stores, st.h.home, s).Some?
  {
    hide RecordAt;
  }
}
