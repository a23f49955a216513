/** Every message carries, and every agent executes, what was asked for. */
module ClusterMessages {
  import opened Models
  import opened Jobs
  import opened Cluster
  import opened ClusterInvariant
  import opened ClusterSafety
  import opened ClusterTrace
  import opened ClusterRequests
  import ClusterQuiescence
  import Dispatch
  import Mailbox
  import Manager

  // ----- the subtasks of a call

  lemma {:induction false} OwnMembers(rs: seq<SubtaskRecord>, home: map<SubtaskId, Home>, c: nat)
    ensures forall x :: x in Own(rs, home, c)
                   <==> exists i :: 0 <= i < |rs| && x == Part(rs[i].id, rs[i].spec)
                                    && rs[i].id in home && home[rs[i].id].call == c
  {
    if rs != [] {
      var front, n := rs[..|rs| - 1], |rs| - 1;
      OwnMembers(front, home, c);
      assert forall i :: 0 <= i < n ==> front[i] == rs[i];
      forall x ensures x in Own(rs, home, c)
                  <==> exists i :: 0 <= i < |rs| && x == Part(rs[i].id, rs[i].spec)
                                   && rs[i].id in home && home[rs[i].id].call == c
      {
        assert x in Own(rs, home, c)
          <==> x in Own(front, home, c)
               || (x == Part(rs[n].id, rs[n].spec) && rs[n].id in home && home[rs[n].id].call == c);
      }
    }
  }

  ghost predicate DistinctParts(parts: seq<Part>) {
    forall i, k :: 0 <= i < k < |parts| ==> parts[i].sub != parts[k].sub
  }

  lemma {:induction false} OwnDistinct(rs: seq<SubtaskRecord>, home: map<SubtaskId, Home>, c: nat)
    requires DistinctIds(rs)
    ensures DistinctParts(Own(rs, home, c))
  {
    if rs != [] {
      var front, n := rs[..|rs| - 1], |rs| - 1;
      OwnDistinct(front, home, c);
      OwnMembers(front, home, c);
      forall i | 0 <= i < |Own(front, home, c)| ensures Own(front, home, c)[i].sub != rs[n].id {
        assert Own(front, home, c)[i] in Own(front, home, c);
      }
    }
  }

  /** The created subtasks of a call are, each once, those whose home names the call, and
      each has a record with its spec. */
  ghost predicate AreTheCalls(st: State, c: nat)
    requires c < |st.calls|
  {
    var parts := Created(st, c);
    && DistinctParts(parts)
    && (forall s :: (s in st.h.home && st.h.home[s].call == c) <==> exists i :: 0 <= i < |parts| && parts[i].sub == s)
    && forall i :: 0 <= i < |parts| ==>
         var r := RecordAt(st.stores, st.calls[c].parent, st.calls[c].job, parts[i].sub);
         r.Some? && r.value.spec == parts[i].spec
  }

  lemma PartHasRecord(st: State, c: nat, i: nat)
    requires c < |st.calls| && i < |Created(st, c)|
    requires DistinctIds(Subtasks(st.stores, st.calls[c].parent, st.calls[c].job))
    ensures var part := Created(st, c)[i];
            var r := RecordAt(st.stores, st.calls[c].parent, st.calls[c].job, part.sub);
            r.Some? && r.value.spec == part.spec && part.sub in st.h.home && st.h.home[part.sub].call == c
  {
    hide Find, Own, DistinctIds;
    var rs := Subtasks(st.stores, st.calls[c].parent, st.calls[c].job);
    OwnMembers(rs, st.h.home, c);
    assert Created(st, c)[i] in Created(st, c);
    var k :| 0 <= k < |rs| && Created(st, c)[i] == Part(rs[k].id, rs[k].spec);
    FindAt(rs, k);
  }

  /** The record of a subtask is among the parts of the call that its home names. */
  lemma RecordIsPart(st: State, s: SubtaskId)
    requires HomesOk(st.stores, st.calls, st.h.home) && s in st.h.home
    ensures st.h.home[s].call < |st.calls| && Rec(st.stores, st.h.home, s).Some?
    ensures Part(s, Rec(st.stores, st.h.home, s).value.spec) in Created(st, st.h.home[s].call)
  {
    hide Find, Own;
    var h := st.h.home[s];
    var rs := Subtasks(st.stores, h.agent, h.job);
    OwnMembers(rs, st.h.home, h.call);
    assert RecordAt(st.stores, h.agent, h.job, s).Some?;
  }

  lemma PartsAreTheCalls(states: seq<State>, labels: seq<Label>, n: nat, c: nat)
    requires IsRun(states, labels) && n <= |labels| && c < |states[n].calls|
    ensures AreTheCalls(states[n], c)
  {
    hide Enabled, After, Initial, Inv, Own, DistinctIds, HomesOk, CallsOk, DistinctParts, RecordAt, Created;
    var st := states[n];
    RunKeepsInv(states, labels, n);
    InvHomes(st);
    ClusterQuiescence.StoresAlwaysOk(states, labels, n);
    ListIsDistinct(st.stores, st.calls[c].parent, st.calls[c].job);
    CreatedDistinct(st, c);
    var parts := Created(st, c);
    forall i | 0 <= i < |parts|
      ensures var r := RecordAt(st.stores, st.calls[c].parent, st.calls[c].job, parts[i].sub);
              r.Some? && r.value.spec == parts[i].spec && parts[i].sub in st.h.home && st.h.home[parts[i].sub].call == c
    {
      PartHasRecord(st, c, i);
    }
    forall s | s in st.h.home && st.h.home[s].call == c ensures exists i :: 0 <= i < |parts| && parts[i].sub == s {
      RecordIsPart(st, s);
      var i :| 0 <= i < |parts| && parts[i] == Part(s, Rec(st.stores, st.h.home, s).value.spec);
    }
  }

  lemma CreatedDistinct(st: State, c: nat)
    requires c < |st.calls| && DistinctIds(Subtasks(st.stores, st.calls[c].parent, st.calls[c].job))
    ensures DistinctParts(Created(st, c))
  {
    OwnDistinct(Subtasks(st.stores, st.calls[c].parent, st.calls[c].job), st.h.home, c);
  }

  lemma ListIsDistinct(stores: map<NodeId, Store>, p: NodeId, j: JobId)
    requires ClusterQuiescence.StoresOk(stores)
    ensures DistinctIds(Subtasks(stores, p, j))
  {}

  // ----- what the messages carry

  /** Each message carries the spec of its subtask. */
  ghost predicate SpecsSent(st: State) {
    forall s :: s in st.h.sent ==> SpecSent(st, s)
  }

  ghost predicate SpecSent(st: State, s: SubtaskId)
    requires s in st.h.sent
  {
    s in st.h.home && st.h.home[s].call < |st.calls|
    && Part(s, st.h.sent[s].msg.spec) in Created(st, st.h.home[s].call)
  }

  lemma CreatedGrows(st: State, l: Label, c: nat)
    requires Inv(st) && Enabled(st, l) && c < |st.calls|
    ensures c < |After(st, l).calls| && Created(st, c) <= Created(After(st, l), c)
  {
    hide Inv, Enabled, After, Created, Wanted, HomesOk, CallsOk;
    InvHomes(st);
    if l.PlanL? { CreatedKept(st, l, c); } else { StepKeepsWanted(st, l, c); }
  }

  lemma HomesOnlyGrow(st: State, l: Label)
    requires Enabled(st, l) && HomesOk(st.stores, st.calls, st.h.home)
    ensures HomesGrow(st.h.home, After(st, l).h.home)
  {
    if l.BeginL? {
      hide HomesOk, Begin, PartsKept, AddedTo, CanLookup, Counted, CanSubmit, CanForward;
      if st.calls[l.c].todo[0].Existing? { BeginExisting(st, l.c, l.newId); } else { BeginPlanned(st, l.c, l.newId); }
    } else {
      hide Enabled, After, HomesOk;
      StepKeepsParts(st, l);
    }
  }

  lemma SendCarriesSpec(st: State, c: nat, s: SubtaskId)
    requires Inv(st) && CanLook(st, c) && st.calls[c].pc == Looking(s)
    ensures s in st.h.home && st.h.home[s].call == c && Rec(st.stores, st.h.home, s).Some?
    ensures MessageOf(st, c).spec == Rec(st.stores, st.h.home, s).value.spec
  {
    hide AcksOk, EarlyOk, ReportsOk, RunsOk, BegunOk, PlacesOk, BoxesOk, SentOk, StatusOk, Lookup;
    assert CallFits(st.calls[c], c, st.h.home, st.h.sent);
  }

  lemma StepKeepsSpecs(st: State, l: Label)
    requires Inv(st) && Enabled(st, l) && SpecsSent(st)
    ensures SpecsSent(After(st, l))
  {
    hide Inv, Enabled, After, Created, MessageOf, Chosen, Rec;
    var next := After(st, l);
    forall s | s in next.h.sent ensures SpecSent(next, s) {
      InvHomes(st);
      hide HomesOk, CallsOk;
      HomesOnlyGrow(st, l);
      if s in st.h.sent && st.h.sent[s] == next.h.sent[s] {
        assert SpecSent(st, s);
      } else {
        SentGrowsBy(st, l, s);
        LookupStep(st, l);
        SendCarriesSpec(st, l.c, s);
        RecordIsPart(st, s);
      }
      CreatedGrows(st, l, st.h.home[s].call);
    }
  }

  lemma {:induction false} RunKeepsSpecs(states: seq<State>, labels: seq<Label>, n: nat)
    requires IsRun(states, labels) && n <= |labels|
    ensures SpecsSent(states[n])
  {
    hide Inv, Enabled, After, SpecSent;
    if n > 0 {
      RunKeepsInv(states, labels, n - 1);
      RunKeepsSpecs(states, labels, n - 1);
      StepKeepsSpecs(states[n - 1], labels[n - 1]);
    }
  }

  /** Over every run, each message carries, for the i-th subtask of its call, the i-th spec
      of the submission, the planner's answer or the forward that asked for it. */
  lemma MessagesCarryWhatWasAsked(states: seq<State>, labels: seq<Label>, n: nat, s: SubtaskId)
    returns (f: nat, i: nat, specs: seq<SubtaskSpec>)
    requires IsRun(states, labels) && n <= |labels| && s in states[n].h.sent
    ensures s in states[n].h.home && states[n].h.home[s].call < |states[n].calls|
    ensures var c := states[n].h.home[s].call;
            && f < n && Asks(states[f], labels[f], c, specs) && i < |specs|
            && states[n].h.sent[s].msg.spec == specs[i]
            && i < |Created(states[n], c)| && Created(states[n], c)[i].sub == s
            && (labels[f].SubmitL? ==> i < |labels[f].ids| && labels[f].ids[i] == s)
  {
    hide Enabled, After, Initial, Inv, Asks, Created;
    RunKeepsSpecs(states, labels, n);
    var st := states[n];
    assert SpecSent(st, s);
    var c := st.h.home[s].call;
    var parts := Created(st, c);
    i :| 0 <= i < |parts| && parts[i] == Part(s, st.h.sent[s].msg.spec);
    specs := Wanted(st, c);
    assert specs[i] == parts[i].spec;
    f := WhoAsked(states, labels, n, c);
    AskedIsCreated(states, labels, f, n, c, specs);
  }

  lemma {:induction false} HomesStay(states: seq<State>, labels: seq<Label>, k: nat, n: nat)
    requires IsRun(states, labels) && k <= n <= |labels|
    ensures HomesGrow(states[k].h.home, states[n].h.home)
    decreases n - k
  {
    hide Inv, Enabled, After, HomesOk, CallsOk;
    if k < n {
      HomesStay(states, labels, k, n - 1);
      RunKeepsInv(states, labels, n - 1);
      InvHomes(states[n - 1]);
      HomesOnlyGrow(states[n - 1], labels[n - 1]);
    }
  }

  /** The step that sends the message of a subtask is one of the call that created it. */
  lemma SentByItsCall(states: seq<State>, labels: seq<Label>, k: nat, n: nat, s: SubtaskId, pk: Parcel)
    requires IsRun(states, labels) && k < n <= |labels| && SendsAt(states, labels, k, s, pk)
    ensures labels[k].LookupL? && CanLook(states[k], labels[k].c) && labels[k].c < |states[n].calls|
    ensures s in states[n].h.home && states[n].h.home[s].call == labels[k].c
  {
    hide Inv, Enabled, After, Initial, RequestOf, Dispatch.Answered, Send, Dispatch.Choose;
    RunKeepsInv(states, labels, k);
    EnabledAt(states, labels, k);
    LookupStep(states[k], labels[k]);
    SendCarriesSpec(states[k], labels[k].c, s);
    HomesStay(states, labels, k, n);
    TermsStay(states, labels, k, n);
  }

  lemma EligibleIsApproved(mgr: Manager.State, req: Dispatch.Request, n: NodeRecord)
    requires Dispatch.Eligible(mgr, req, n)
    ensures n.membership == Membership.Approved && n.status == NodeStatus.Idle
    ensures n.group == req.group && n.id != req.self
  {}

  /** Eligible for what was asked: every message went to a node that, by the manager's
      tables at lookup, could do what the spec asked for demands, and that the
      submission or the forward which started the call allows. */
  lemma EligibleForWhatWasAsked(states: seq<State>, labels: seq<Label>, n: nat, s: SubtaskId)
    returns (f: nat, i: nat, specs: seq<SubtaskSpec>, k: nat, node: NodeRecord, g: nat, call: Call)
    requires IsRun(states, labels) && n <= |labels| && s in states[n].h.sent
    ensures s in states[n].h.home
    ensures f < n && Asks(states[f], labels[f], states[n].h.home[s].call, specs) && i < |specs|
    ensures labels[f].SubmitL? ==> i < |labels[f].ids| && labels[f].ids[i] == s
    ensures g < n && |states[g].calls| == states[n].h.home[s].call && Starts(states[g], labels[g], call)
    ensures k < n && SendsAt(states, labels, k, s, states[n].h.sent[s]) && labels[k].c == states[n].h.home[s].call
    ensures node.id == states[n].h.sent[s].to && call.parent in states[k].config
    ensures Dispatch.Eligible(labels[k].mgr,
                              Dispatch.Request(call.parent, states[k].config[call.parent].group, specs[i], call.exclude,
                                               call.target),
                              node)
    ensures node.membership == Membership.Approved && node.status == NodeStatus.Idle && node.id != call.parent
    ensures node.group == states[k].config[call.parent].group
  {
    hide Enabled, After, Initial, Inv, Asks, Created, Dispatch.Eligible, RequestOf, SendsAt, Starts;
    f, i, specs := MessagesCarryWhatWasAsked(states, labels, n, s);
    k, node := OnlyEligibleTargets(states, labels, n, s);
    SentByItsCall(states, labels, k, n, s, states[n].h.sent[s]);
    call := states[k].calls[labels[k].c];
    g := WhoStarted(states, labels, k, labels[k].c);
    EligibleIsApproved(labels[k].mgr, RequestOf(states[k], labels[k].c), node);
  }

  /** An agent executes the description and payload that were asked for, for the parent
      that asked. */
  lemma WorkIsWhatWasAsked(states: seq<State>, labels: seq<Label>, k: nat)
    returns (f: nat, i: nat, specs: seq<SubtaskSpec>)
    requires IsRun(states, labels) && k < |labels| && labels[k].ExecuteL?
    ensures CanExecute(states[k], labels[k].a, labels[k].i)
    ensures var st, work := states[k], states[k].boxes[labels[k].a].runners[labels[k].i].work;
            && work.sub in st.h.home && f < k && i < |specs|
            && Asks(states[f], labels[f], st.h.home[work.sub].call, specs)
            && (labels[f].SubmitL? ==> i < |labels[f].ids| && labels[f].ids[i] == work.sub)
            && work.description == specs[i].description && work.payload == specs[i].payload
            && work.job == st.h.home[work.sub].job && work.parent == st.h.home[work.sub].agent
  {
    hide Enabled, After, Initial, Inv, Asks, Created;
    EnabledAt(states, labels, k);
    ExecuteStep(states[k], labels[k]);
    RunKeepsInv(states, labels, k);
    RunnerCarriesSpec(states[k], labels[k].a, labels[k].i);
    var work := states[k].boxes[labels[k].a].runners[labels[k].i].work;
    f, i, specs := MessagesCarryWhatWasAsked(states, labels, k, work.sub);
  }

  lemma RunnerCarriesSpec(st: State, a: NodeId, i: nat)
    requires Inv(st) && CanExecute(st, a, i)
    ensures var w := st.boxes[a].runners[i].work;
            && w.sub in st.h.sent && w.sub in st.h.home
            && w.description == st.h.sent[w.sub].msg.spec.description && w.payload == st.h.sent[w.sub].msg.spec.payload
            && w.job == st.h.home[w.sub].job && w.parent == st.h.home[w.sub].agent
  {
    hide HomesOk, CallsOk, StatusOk, AcksOk, EarlyOk, ReportsOk, RunsOk, BegunOk, AllPlaced, ParcelsOk, PlaceOf;
    assert Mailbox.Inv(st.boxes[a], a, st.config[a].capacity);
    assert BoxFits(a, st.boxes[a], st.h.sent, st.h.place);
  }
}
