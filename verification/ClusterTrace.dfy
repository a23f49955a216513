/** What must have happened earlier in a run: who was chosen, what was executed. */
module ClusterTrace {
  import opened Models
  import opened Jobs
  import opened Cluster
  import opened ClusterFrames
  import opened ClusterInvariant
  import opened ClusterSafety
  import Catalog
  import Dispatch
  import Mailbox
  import Manager
  import Scheduler

  /** Step k is the manager's answer that made call c choose the node and send. */
  ghost predicate SendsAt(states: seq<State>, labels: seq<Label>, k: nat, s: SubtaskId, pk: Parcel)
    requires IsRun(states, labels) && k < |labels|
  {
    && labels[k].LookupL?
    && var st, l := states[k], labels[k];
       var choice := Chosen(st, l.c, l.mgr, l.answer, l.counts);
       && choice.Ok? && st.calls[l.c].pc == Looking(s)
       && pk == Parcel(choice.value.node.id, MessageOf(st, l.c))
       && states[k + 1] == Send(st, l.c, choice.value)
  }

  /** Step k is the end of an executor's run with this result. */
  ghost predicate ExecutesAt(states: seq<State>, labels: seq<Label>, k: nat, m: ResultMessage)
    requires IsRun(states, labels) && k < |labels|
  {
    && labels[k].ExecuteL?
    && var st, l := states[k], labels[k]; Mailbox.Reports(m, st.boxes[l.a].runners[l.i].work, l.a, l.o)
  }

  /** An execution adds one result, and it tells what the executor did. */
  lemma ExecutionIsTold(states: seq<State>, labels: seq<Label>, k: nat) returns (m: ResultMessage)
    requires IsRun(states, labels) && k < |labels| && labels[k].ExecuteL?
    ensures states[k + 1].h.runs == states[k].h.runs + [m] && ExecutesAt(states, labels, k, m)
  {
    hide After, Initial;
    EnabledAt(states, labels, k);
    var st, l := states[k], labels[k];
    ExecuteStep(st, l);
    m := Mailbox.ResultOf(st.boxes[l.a].runners[l.i].work, l.a, l.o);
  }

  lemma ExecuteStep(st: State, l: Label)
    requires Enabled(st, l) && l.ExecuteL?
    ensures CanExecute(st, l.a, l.i) && After(st, l) == Execute(st, l.a, l.i, l.o)
  {
    hide CanLookup, LookupDone, Counted, CanSubmit, CanForward, Execute;
  }

  lemma OnlyLookupSends(st: State, l: Label)
    requires Enabled(st, l) && !l.LookupL?
    ensures After(st, l).h.sent == st.h.sent
  {
    hide Enabled, After;
    StepFrame(st, l);
  }

  lemma LookupSends(st: State, c: nat, mgr: Manager.State, answer: seq<NodeRecord>, counts: map<NodeId, nat>,
                    reason: string, s: SubtaskId)
    requires CanLookup(st, c, mgr, answer)
    requires var sent := LookupDone(st, c, mgr, answer, counts, reason).h.sent;
             s in sent && !(s in st.h.sent && st.h.sent[s] == sent[s])
    ensures Chosen(st, c, mgr, answer, counts).Ok? && st.calls[c].pc == Looking(s)
    ensures var choice := Chosen(st, c, mgr, answer, counts).value;
            LookupDone(st, c, mgr, answer, counts, reason) == Send(st, c, choice)
            && Send(st, c, choice).h.sent[s] == Parcel(choice.node.id, MessageOf(st, c))
  {
    hide Chosen, Dispatch.Answered, Write, RequestOf, MessageOf;
  }

  lemma OnlyExecuteRuns(st: State, l: Label)
    requires Enabled(st, l) && !l.ExecuteL?
    ensures After(st, l).h.runs == st.h.runs
  {
    hide Enabled, After;
    StepFrame(st, l);
  }

  lemma SentGrowsBy(st: State, l: Label, s: SubtaskId)
    requires Enabled(st, l) && s in After(st, l).h.sent
    requires !(s in st.h.sent && st.h.sent[s] == After(st, l).h.sent[s])
    ensures l.LookupL? && Chosen(st, l.c, l.mgr, l.answer, l.counts).Ok?
    ensures var choice := Chosen(st, l.c, l.mgr, l.answer, l.counts).value;
            st.calls[l.c].pc == Looking(s) && After(st, l) == Send(st, l.c, choice)
            && After(st, l).h.sent[s] == Parcel(choice.node.id, MessageOf(st, l.c))
  {
    if !l.LookupL? {
      hide Enabled, After;
      OnlyLookupSends(st, l);
    } else {
      hide LookupDone, CanLookup, Chosen, Send, MessageOf, Counted;
      LookupSends(st, l.c, l.mgr, l.answer, l.counts, l.reason, s);
    }
  }

  lemma RunsGrowBy(st: State, l: Label, m: ResultMessage)
    requires Enabled(st, l) && m in After(st, l).h.runs && m !in st.h.runs
    ensures l.ExecuteL? && m == Mailbox.ResultOf(st.boxes[l.a].runners[l.i].work, l.a, l.o) && l.a == m.child
  {
    if !l.ExecuteL? {
      hide Enabled, After;
      OnlyExecuteRuns(st, l);
    }
    hide LookupDone, CanLookup, Counted, Mailbox.Execute;
  }

  /** Every message ever sent was sent by an earlier choice. */
  lemma {:induction false} WhoSent(states: seq<State>, labels: seq<Label>, n: nat, s: SubtaskId) returns (k: nat)
    requires IsRun(states, labels) && n <= |labels| && s in states[n].h.sent
    ensures k < n && SendsAt(states, labels, k, s, states[n].h.sent[s])
  {
    hide After, Enabled, SendsAt;
    if n == 0 {
      assert false;
    } else {
      var st, l := states[n - 1], labels[n - 1];
      assert Enabled(st, l) && states[n] == After(st, l);
      if s in st.h.sent && st.h.sent[s] == states[n].h.sent[s] {
        k := WhoSent(states, labels, n - 1, s);
      } else {
        SentGrowsBy(st, l, s);
        k := n - 1;
        SendsHere(states, labels, k, s, states[n].h.sent[s]);
      }
    }
  }

  lemma SendsHere(states: seq<State>, labels: seq<Label>, k: nat, s: SubtaskId, pk: Parcel)
    requires IsRun(states, labels) && k < |labels| && labels[k].LookupL?
    requires Enabled(states[k], labels[k])
    requires var st, l := states[k], labels[k];
             var choice := Chosen(st, l.c, l.mgr, l.answer, l.counts);
             choice.Ok? && st.calls[l.c].pc == Looking(s) && pk == Parcel(choice.value.node.id, MessageOf(st, l.c))
             && states[k + 1] == Send(st, l.c, choice.value)
    ensures SendsAt(states, labels, k, s, pk)
  {}

  /** Every recorded run was executed at an earlier step. */
  lemma {:induction false} WhenRun(states: seq<State>, labels: seq<Label>, n: nat, m: ResultMessage) returns (k: nat)
    requires IsRun(states, labels) && n <= |labels| && m in states[n].h.runs
    ensures k < n && ExecutesAt(states, labels, k, m) && m !in states[k].h.runs
  {
    hide After, Enabled;
    if n == 0 {
      assert false;
    } else {
      var st, l := states[n - 1], labels[n - 1];
      assert Enabled(st, l) && states[n] == After(st, l);
      if m in st.h.runs {
        k := WhenRun(states, labels, n - 1, m);
      } else {
        RunsGrowBy(st, l, m);
        k := n - 1;
      }
    }
  }

  /** The run executed at step k was of a subtask sent before step k. */
  lemma RunWasSent(states: seq<State>, labels: seq<Label>, k: nat, m: ResultMessage)
    requires IsRun(states, labels) && k < |labels| && ExecutesAt(states, labels, k, m)
    ensures m.sub in states[k].h.sent && states[k].h.sent[m.sub].to == m.child
    ensures states[k].h.sent[m.sub].msg.job == m.job
  {
    hide Inv, After, Initial;
    assert Enabled(states[k], labels[k]) by { EnabledAt(states, labels, k); }
    RunKeepsInv(states, labels, k);
    RunnerWorksOnSent(states[k], labels[k].a, labels[k].i);
  }

  lemma EnabledAt(states: seq<State>, labels: seq<Label>, k: nat)
    requires IsRun(states, labels) && k < |labels|
    ensures Enabled(states[k], labels[k]) && states[k + 1] == After(states[k], labels[k])
  {
    hide Enabled, After, Initial;
  }

  lemma RunnerWorksOnSent(st: State, a: NodeId, i: nat)
    requires Inv(st) && CanExecute(st, a, i)
    ensures var w := st.boxes[a].runners[i].work;
            w.sub in st.h.sent && st.h.sent[w.sub].to == a && st.h.sent[w.sub].msg.job == w.job
  {
    hide HomesOk, CallsOk, StatusOk, AcksOk, EarlyOk, ReportsOk, RunsOk, BegunOk, AllPlaced, ParcelsOk, PlaceOf;
    assert BoxFits(a, st.boxes[a], st.h.sent, st.h.place);
  }

  lemma SentIsStable(states: seq<State>, labels: seq<Label>, k: nat, n: nat, s: SubtaskId)
    requires IsRun(states, labels) && k <= n <= |labels| && s in states[k].h.sent
    ensures s in states[n].h.sent && states[n].h.sent[s] == states[k].h.sent[s]
    decreases n - k
  {
    hide Inv, Enabled, After, Initial;
    if k < n {
      SentIsStable(states, labels, k, n - 1, s);
      EnabledAt(states, labels, n - 1);
      RunKeepsInv(states, labels, n - 1);
      SentOnce(states[n - 1], labels[n - 1], s);
    }
  }

  lemma LookupStep(st: State, l: Label)
    requires Enabled(st, l) && l.LookupL?
    ensures CanLookup(st, l.c, l.mgr, l.answer) && CanLook(st, l.c)
    ensures After(st, l) == LookupDone(st, l.c, l.mgr, l.answer, l.counts, l.reason)
  {
    hide LookupDone, Counted, Dispatch.Answered, RequestOf;
  }

  lemma LookupKeepsOrSends(st: State, c: nat, mgr: Manager.State, answer: seq<NodeRecord>, counts: map<NodeId, nat>,
                           reason: string, s: SubtaskId)
    requires CanLookup(st, c, mgr, answer) && s in st.h.sent
    ensures var sent := LookupDone(st, c, mgr, answer, counts, reason).h.sent;
            s in sent && (sent[s] == st.h.sent[s] || st.calls[c].pc == Looking(s))
  {
    hide Chosen, Dispatch.Answered, Write, RequestOf, MessageOf;
  }

  lemma SentOnce(st: State, l: Label, s: SubtaskId)
    requires Inv(st) && Enabled(st, l) && s in st.h.sent
    ensures s in After(st, l).h.sent && After(st, l).h.sent[s] == st.h.sent[s]
  {
    hide HomesOk, StatusOk, AcksOk, EarlyOk, ReportsOk, RunsOk, BegunOk, PlacesOk, SentOk, BoxesOk, Enabled, After,
         LookupDone, CanLookup, Send, Chosen, MessageOf;
    if !l.LookupL? {
      OnlyLookupSends(st, l);
    } else {
      LookupStep(st, l);
      LookupKeepsOrSends(st, l.c, l.mgr, l.answer, l.counts, l.reason, s);
      assert CallFits(st.calls[l.c], l.c, st.h.home, st.h.sent);
    }
  }

  /** Provenance: a COMPLETED record means that a run of exactly that job and subtask
      finished, at the agent the record names, which is not the parent; and that the
      parent had, before that, written ASSIGNED to that agent and sent it the message. */
  lemma Provenance(states: seq<State>, labels: seq<Label>, n: nat, a: NodeId, j: JobId, s: SubtaskId)
    returns (sent: nat, run: nat, m: ResultMessage)
    requires IsRun(states, labels) && n <= |labels| && RecordAt(states[n].stores, a, j, s).Some?
    requires RecordAt(states[n].stores, a, j, s).value.status.Completed?
    ensures sent < run < n && s in states[n].h.sent
    ensures var r := RecordAt(states[n].stores, a, j, s).value;
            && r.assignee == Some(m.child) && r.result == m.result && r.artifactIds == m.artifactIds
            && m.job == j && m.sub == s && m.status.Completed? && m.child != a
    ensures ExecutesAt(states, labels, run, m) && labels[run].o.Finished?
    ensures m.result == Some(labels[run].o.summary) && m.artifactIds == labels[run].o.artifactIds
    ensures SendsAt(states, labels, sent, s, states[n].h.sent[s]) && states[n].h.sent[s].to == m.child
    ensures AssignedTo(states[sent + 1], a, j, s, m.child)
  {
    hide SendsAt, ExecutesAt, RecordAt, Inv, Enabled, After, Initial, AssignedTo;
    RunKeepsInv(states, labels, n);
    m := VoucherOf(states[n], a, j, s);
    run := WhenRun(states, labels, n, m);
    CompletedFinished(states, labels, run, m);
    RunWasSent(states, labels, run, m);
    SentIsStable(states, labels, run, n, s);
    sent := WhoSent(states, labels, run, s);
    SentForRecord(states[n], a, j, s);
    RunKeepsInv(states, labels, sent);
    SendWrote(states, labels, sent, s, states[n].h.sent[s]);
  }

  lemma CompletedFinished(states: seq<State>, labels: seq<Label>, k: nat, m: ResultMessage)
    requires IsRun(states, labels) && k < |labels| && ExecutesAt(states, labels, k, m) && m.status.Completed?
    ensures labels[k].ExecuteL? && labels[k].o.Finished?
    ensures m.result == Some(labels[k].o.summary) && m.artifactIds == labels[k].o.artifactIds
  {
    hide IsRun;
  }

  lemma SentForRecord(st: State, a: NodeId, j: JobId, s: SubtaskId)
    requires Inv(st) && RecordAt(st.stores, a, j, s).Some? && s in st.h.sent
    ensures st.h.sent[s].msg.parent == a && st.h.sent[s].msg.job == j
  {
    hide CallsOk, AcksOk, EarlyOk, ReportsOk, RunsOk, BegunOk, PlacesOk, BoxesOk, StatusOk, RecordAt, PlaceOf;
  }

  /** The step that sent the message wrote ASSIGNED with the node it went to. */
  lemma SendWrote(states: seq<State>, labels: seq<Label>, k: nat, s: SubtaskId, pk: Parcel)
    requires IsRun(states, labels) && k < |labels| && Inv(states[k]) && SendsAt(states, labels, k, s, pk)
    ensures AssignedTo(states[k + 1], pk.msg.parent, pk.msg.job, s, pk.to)
  {
    hide Inv, After, Initial, Send, Dispatch.Choose, RequestOf, CanLookup;
    EnabledAt(states, labels, k);
    var st, l := states[k], labels[k];
    LookupStep(st, l);
    SendWritesAssigned(st, l.c, s, Chosen(st, l.c, l.mgr, l.answer, l.counts).value);
  }

  /** The record is ASSIGNED to that agent. */
  predicate AssignedTo(st: State, a: NodeId, j: JobId, s: SubtaskId, to: NodeId) {
    var r := RecordAt(st.stores, a, j, s);
    r.Some? && r.value.status.Assigned? && r.value.assignee == Some(to)
  }

  lemma VoucherOf(st: State, a: NodeId, j: JobId, s: SubtaskId) returns (m: ResultMessage)
    requires Inv(st) && RecordAt(st.stores, a, j, s).Some? && RecordAt(st.stores, a, j, s).value.status.Completed?
    ensures var r := RecordAt(st.stores, a, j, s).value;
            && m in st.h.runs && r.assignee == Some(m.child) && r.result == m.result && r.artifactIds == m.artifactIds
            && m.job == j && m.sub == s && m.status.Completed? && m.child != a
    ensures s in st.h.sent
  {
    hide CallsOk, AcksOk, EarlyOk, ReportsOk, BegunOk, PlacesOk, BoxesOk, RecordAt, PlaceOf, Reported;
    var r := RecordAt(st.stores, a, j, s).value;
    assert Rec(st.stores, st.h.home, s) == Some(r);
    m :| m in st.h.runs && m.sub == s && m.status.Completed? && r.assignee == Some(m.child)
         && r.result == m.result && r.artifactIds == m.artifactIds;
    var k :| 0 <= k < |st.h.runs| && st.h.runs[k] == m;
    assert RunFits(st.h.runs[k], st.boxes, st.h.sent, st.h.place);
  }

  /** The send step writes ASSIGNED with the node that the message goes to. */
  lemma SendWritesAssigned(st: State, c: nat, s: SubtaskId, choice: Scheduler.Choice)
    requires Inv(st) && CanLook(st, c) && st.calls[c].pc == Looking(s)
    ensures var next := Send(st, c, choice);
            var r := RecordAt(next.stores, st.calls[c].parent, st.calls[c].job, s);
            && r.Some? && r.value.status.Assigned? && r.value.assignee == Some(choice.node.id)
            && next.h.sent[s].to == choice.node.id && next.h.sent[s].msg.parent == st.calls[c].parent
  {
    hide AcksOk, EarlyOk, ReportsOk, RunsOk, BegunOk, PlacesOk, BoxesOk, SentOk, StatusOk, Write, RecordAt;
    assert CallFits(st.calls[c], c, st.h.home, st.h.sent);
    WriteEffect(st.stores, st.calls[c].parent, st.calls[c].job, s, Assign(choice.node.id));
  }

  /** Eligible targets only: every message sent so far went to a node that, in the
      manager's tables at lookup, the request of its call was allowed to use. */
  lemma OnlyEligibleTargets(states: seq<State>, labels: seq<Label>, n: nat, s: SubtaskId)
    returns (k: nat, node: NodeRecord)
    requires IsRun(states, labels) && n <= |labels| && s in states[n].h.sent
    ensures k < n && SendsAt(states, labels, k, s, states[n].h.sent[s])
    ensures node.id == states[n].h.sent[s].to
    ensures Dispatch.Eligible(labels[k].mgr, RequestOf(states[k], labels[k].c), node)
    ensures var call, req, msg := states[k].calls[labels[k].c], RequestOf(states[k], labels[k].c),
                                   states[n].h.sent[s].msg;
            && req.self == call.parent == msg.parent && req.spec == msg.spec
            && req.exclude == call.exclude && req.target == call.target
            && msg.parent in states[k].config && req.group == states[k].config[msg.parent].group
  {
    hide Initial, After, Inv, Dispatch.Eligible, Dispatch.Choose;
    k := WhoSent(states, labels, n, s);
    EnabledAt(states, labels, k);
    RunKeepsInv(states, labels, k);
    CallersAreAgents(states[k], labels[k].c);
    var st, l := states[k], labels[k];
    var p := st.calls[l.c].parent;
    Dispatch.ChosenIsEligible(RequestOf(st, l.c), l.mgr, l.answer, l.counts,
                              if p in st.cursors then st.cursors[p] else 0);
    node := Chosen(st, l.c, l.mgr, l.answer, l.counts).value.node;
  }

  lemma CallersAreAgents(st: State, c: nat)
    requires Inv(st) && c < |st.calls|
    ensures st.calls[c].parent in st.config
  {
    hide RunsOk, BegunOk, EarlyOk, ReportsOk, AcksOk, SentOk, PlacesOk, CallsOk, StatusOk, BoxesOk, RecordAt, Rec;
  }

  lemma CallsKeepTheirTerms(st: State, l: Label)
    requires Enabled(st, l)
    ensures TermsKept(st.calls, After(st, l).calls)
  {
    hide Enabled, After;
    StepFrame(st, l);
  }

  lemma {:induction false} TermsStay(states: seq<State>, labels: seq<Label>, i: nat, n: nat)
    requires IsRun(states, labels) && i <= n <= |labels|
    ensures TermsKept(states[i].calls, states[n].calls)
    decreases n - i
  {
    hide Enabled, After, Initial;
    if i < n {
      TermsStay(states, labels, i, n - 1);
      EnabledAt(states, labels, n - 1);
      CallsKeepTheirTerms(states[n - 1], labels[n - 1]);
    }
  }

  /** The call that a forward adds. */
  lemma ForwardedCall(st: State, l: Label)
    requires Enabled(st, l) && l.ForwardL?
    ensures CanForward(st, l.p, l.j, l.source)
    ensures var calls := After(st, l).calls;
            && |calls| == |st.calls| + 1
            && var call := calls[|st.calls|];
            && call.parent == l.p && call.job == l.j && call.target == l.target && l.p in call.exclude
            && (forall r ::
                  Truthy(l.source) && RecordAt(st.stores, l.p, l.j, l.source.value) == Some(r) && Truthy(r.assignee) ==>
                  r.assignee.value in call.exclude)
  {
    hide RecordAt, ForwardPayload, WorksOn, LookupDone, CanLookup, Counted;
  }

  /** Over every run: a message that a forward causes, however late, goes neither to the
      agent that forwards nor to the one that the source was assigned to, and goes to
      the named target if there is one. */
  lemma ForwardNeverToSource(states: seq<State>, labels: seq<Label>, f: nat, k: nat, s: SubtaskId, pk: Parcel)
    requires IsRun(states, labels) && f < k < |labels| && labels[f].ForwardL?
    requires SendsAt(states, labels, k, s, pk) && labels[k].c == |states[f].calls|
    ensures var l := labels[f];
            && pk.msg.parent == l.p && pk.msg.job == l.j && pk.to != l.p
            && (forall r ::
                  Truthy(l.source) && RecordAt(states[f].stores, l.p, l.j, l.source.value) == Some(r)
                  && Truthy(r.assignee) ==>
                    pk.to != r.assignee.value)
            && (Truthy(l.target) ==> pk.to == l.target.value)
  {
    hide Initial, After, Inv, Enabled, Dispatch.Choose, Dispatch.Answered, Send, Catalog.IsAnswer, Counted, RecordAt;
    EnabledAt(states, labels, f);
    ForwardedCall(states[f], labels[f]);
    TermsStay(states, labels, f + 1, k);
    EnabledAt(states, labels, k);
    var st, l := states[k], labels[k];
    LookupStep(st, l);
    var p := st.calls[l.c].parent;
    Dispatch.ChosenIsEligible(RequestOf(st, l.c), l.mgr, l.answer, l.counts,
                              if p in st.cursors then st.cursors[p] else 0);
  }
}
