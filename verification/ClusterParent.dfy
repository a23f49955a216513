/** The steps of the parent's side keep the invariant. */
module ClusterParent {
  import opened Models
  import opened Jobs
  import opened Cluster
  import opened ClusterInvariant
  import Mailbox
  import Scheduler

  // ----- one record changes

  /** StatusOk after a write: the written record fits, and the others still do. */
  lemma StatusFromFits(stores: map<NodeId, Store>, next: map<NodeId, Store>, calls: seq<Call>, home: map<SubtaskId,
                       Home>,
                       sent: map<SubtaskId, Parcel>, place: map<SubtaskId, Place>, runs: seq<ResultMessage>,
                       handled: set<SubtaskId>, early: set<SubtaskId>, s: SubtaskId, r: SubtaskRecord)
    requires s in home
    requires forall t :: t in home ==> home[t].call < |calls|
    requires forall t :: t in home ==> Rec(next, home, t) == if t == s then Some(r) else Rec(stores, home, t)
    requires forall t :: t in home ==> Rec(stores, home, t).Some?
    requires Fits(r, s, calls[home[s].call], sent, PlaceOf(place, s), runs, s in handled, s in early)
    requires forall t :: t in home && t != s ==>
      Fits(Rec(stores, home, t).value, t, calls[home[t].call], sent, PlaceOf(place, t), runs, t in handled, t in early)
    ensures StatusOk(next, calls, home, sent, place, runs, handled, early)
  {
    hide Rec, Fits, PlaceOf;
  }

  lemma RecAfterWrite(stores: map<NodeId, Store>, home: map<SubtaskId, Home>, s: SubtaskId, c: Change)
    requires s in home && Rec(stores, home, s).Some?
    ensures var next := Write(stores, home[s].agent, home[s].job, s, c);
            forall t :: t in home ==>
              Rec(next, home, t) == if t == s then Some(Amend(Rec(stores, home, s).value, c)) else Rec(stores, home, t)
  {
    hide Write, RecordAt, Amend;
    WriteEffect(stores, home[s].agent, home[s].job, s, c);
  }

  lemma WriteKeepsHomes(stores: map<NodeId, Store>, calls: seq<Call>, home: map<SubtaskId, Home>, s: SubtaskId,
                        c: Change)
    requires HomesOk(stores, calls, home) && s in home
    ensures HomesOk(Write(stores, home[s].agent, home[s].job, s, c), calls, home)
    ensures Write(stores, home[s].agent, home[s].job, s, c).Keys == stores.Keys
  {
    hide Write, RecordAt, Amend, HomesOk;
    assert Rec(stores, home, s).Some? by { HomesGiveRecord(stores, calls, home, s); }
    WriteEffect(stores, home[s].agent, home[s].job, s, c);
    HomesAfterWrite(stores, Write(stores, home[s].agent, home[s].job, s, c), calls, home);
  }

  lemma HomesGiveRecord(stores: map<NodeId, Store>, calls: seq<Call>, home: map<SubtaskId, Home>, s: SubtaskId)
    requires HomesOk(stores, calls, home) && s in home
    ensures Rec(stores, home, s).Some? && home[s].call < |calls|
    ensures calls[home[s].call].parent == home[s].agent && calls[home[s].call].job == home[s].job
  {
    hide RecordAt;
  }

  // ----- a call moves on

  /** Moving a call from a subtask it was dispatching to a place where it dispatches
      none disturbs no other subtask. */
  lemma OthersFit(r: SubtaskRecord, t: SubtaskId, s: SubtaskId, call: Call, pc: Pc, sent: map<SubtaskId, Parcel>,
                  p: Place,
                  runs: seq<ResultMessage>, handled: bool, early: bool)
    requires t != s && (call.pc == Looking(s) || call.pc == Awaiting(s)) && (pc.Next? || pc.Aborted?)
    requires Fits(r, t, call, sent, p, runs, handled, early)
    ensures Fits(r, t, call.(pc := pc), sent, p, runs, handled, early)
  {
    hide Vouched;
  }

  lemma CallsAfterMove(calls: seq<Call>, c: nat, pc: Pc, home: map<SubtaskId, Home>, sent: map<SubtaskId, Parcel>,
                       handled: set<SubtaskId>, early: set<SubtaskId>)
    requires CallsOk(calls, home, sent) && EarlyOk(calls, handled, early) && c < |calls|
    requires pc.Next? || pc.Aborted?
    ensures CallsOk(SetPc(calls, c, pc), home, sent) && EarlyOk(SetPc(calls, c, pc), handled, early)
  {}

  /** The dispatch of one subtask ends: its record is written and its call goes on. */
  lemma DispatchEnds(st: State, c: nat, s: SubtaskId, change: Change, pc: Pc)
    requires Inv(st) && c < |st.calls|
    requires st.calls[c].pc == Looking(s) || st.calls[c].pc == Awaiting(s)
    requires pc.Next? || pc.Aborted?
    requires s in st.h.home && Rec(st.stores, st.h.home, s).Some?
    requires Fits(Amend(Rec(st.stores, st.h.home, s).value, change), s, st.calls[c].(pc := pc), st.h.sent,
                  PlaceOf(st.h.place, s), st.h.runs, s in st.h.handled, s in st.h.early)
    ensures var call := st.calls[c];
            Inv(st.(stores := Write(st.stores, call.parent, call.job, s, change), calls := SetPc(st.calls, c, pc)))
  {
    hide Write, Rec, Fits, PlacesOk, RunsOk, BegunOk, ReportsOk, AcksOk, SentOk, BoxesOk, Amend, HomesOk, EarlyOk;
    var home, calls := st.h.home, SetPc(st.calls, c, pc);
    assert home[s].call == c by { assert CallFits(st.calls[c], c, home, st.h.sent); }
    CallsAfterMove(st.calls, c, pc, home, st.h.sent, st.h.handled, st.h.early);
    hide CallsOk, CallFits;
    HomesGiveRecord(st.stores, st.calls, home, s);
    var next := Write(st.stores, st.calls[c].parent, st.calls[c].job, s, change);
    WriteKeepsHomes(st.stores, st.calls, home, s, change);
    HomesSameCalls(next, st.calls, calls, home);
    RecAfterWrite(st.stores, home, s, change);
    forall t | t in home && t != s
      ensures home[t].call < |calls|
      ensures Rec(st.stores, home, t).Some?
      ensures Fits(Rec(st.stores, home, t).value, t, calls[home[t].call], st.h.sent, PlaceOf(st.h.place, t), st.h.runs,
                   t in st.h.handled, t in st.h.early)
    {
      if home[t].call == c {
        OthersFit(Rec(st.stores, home, t).value, t, s, st.calls[c], pc, st.h.sent, PlaceOf(st.h.place, t), st.h.runs,
                  t in st.h.handled, t in st.h.early);
      }
    }
    StatusFromFits(st.stores, next, calls, home, st.h.sent, st.h.place, st.h.runs, st.h.handled, st.h.early, s,
                   Amend(Rec(st.stores, home, s).value, change));
  }

  lemma RefuseKeepsInv(st: State, c: nat, reason: string)
    requires Inv(st) && CanLook(st, c)
    ensures Inv(Refuse(st, c, reason))
  {
    hide PlacesOk, RunsOk, BegunOk, ReportsOk, AcksOk, BoxesOk, HomesOk, Write, RecordAt, Vouched;
    DispatchEnds(st, c, st.calls[c].pc.sub, FailWith(reason), Next);
  }

  lemma ReplyKeepsInv(st: State, c: nat)
    requires Inv(st) && CanResume(st, c) && st.calls[c].pc.sub in st.replies && st.replies[st.calls[c].pc.sub]
    ensures Inv(ReplyAccepted(st, c))
  {
    hide PlacesOk, RunsOk, BegunOk, ReportsOk, BoxesOk, HomesOk, SentOk, Write, RecordAt, Rec, Vouched, PlaceOf;
    assert CallFits(st.calls[c], c, st.h.home, st.h.sent);
    hide CallsOk;
    DispatchEnds(st, c, st.calls[c].pc.sub, StartRunning, Next);
  }

  lemma FailingTwice(stores: map<NodeId, Store>, a: NodeId, j: JobId, s: SubtaskId, reason: string)
    requires RecordAt(stores, a, j, s).Some?
    ensures var once := Write(stores, a, j, s, FailWith(reason));
            Write(once, a, j, s, FailWith(reason)) == once
  {
    var c := FailWith(reason);
    var job := stores[a][j];
    var rs := AmendAll(job.subtasks, s, c);
    assert AmendAll(rs, s, c) == rs;
    assert HasId(rs, s) by {
      var i :| 0 <= i < |job.subtasks| && job.subtasks[i].id == s;
      assert rs[i].id == s;
    }
    var done := UpdatedJob(job, s, c);
    assert done.subtasks == rs && UpdatedJob(done, s, c) == done by {
      assert job.(subtasks := rs).(status := done.status) == done;
      assert RollUp(done) == done.status;
    }
    var once := Write(stores, a, j, s, c);
    assert once[a][j] == done;
    assert once[a][j := done] == once[a];
    assert once[a := once[a]] == once;
  }

  lemma DispatchFailsKeepsInv(st: State, c: nat, reason: string)
    requires Inv(st) && CanResume(st, c)
    ensures Inv(DispatchFails(st, c, reason))
  {
    hide PlacesOk, RunsOk, BegunOk, ReportsOk, BoxesOk, HomesOk, Write, RecordAt, Vouched;
    var call := st.calls[c];
    var s := call.pc.sub;
    HomesGiveRecord(st.stores, st.calls, st.h.home, s);
    FailingTwice(st.stores, call.parent, call.job, s, reason);
    DispatchEnds(st, c, s, FailWith(reason), Next);
  }

  /** A call ends, or fails outright, without writing a record. */
  lemma MoveKeepsInv(st: State, c: nat, pc: Pc)
    requires Inv(st) && c < |st.calls|
    requires pc.Aborted? || (pc.Returned? && st.calls[c].todo == [])
    requires !st.calls[c].pc.Awaiting? && (pc.Returned? ==> !st.calls[c].pc.Looking? && !st.calls[c].pc.Aborted?)
    ensures Inv(st.(calls := SetPc(st.calls, c, pc)))
  {
    hide RecordAt, Rec, HomesOk, PlacesOk, RunsOk, BegunOk, ReportsOk, AcksOk, SentOk, BoxesOk, Vouched, PlaceOf,
         CallsOk, EarlyOk, StatusOk;
    MoveCalls(st, c, pc);
    MoveStatus(st, c, pc);
    HomesSameCalls(st.stores, st.calls, SetPc(st.calls, c, pc), st.h.home);
  }

  lemma MoveCalls(st: State, c: nat, pc: Pc)
    requires Inv(st) && c < |st.calls|
    requires pc.Aborted? || (pc.Returned? && st.calls[c].todo == [])
    ensures CallsOk(SetPc(st.calls, c, pc), st.h.home, st.h.sent)
    ensures EarlyOk(SetPc(st.calls, c, pc), st.h.handled, st.h.early)
  {
    hide HomesOk, PlacesOk, RunsOk, BegunOk, ReportsOk, AcksOk, SentOk, BoxesOk, StatusOk;
  }

  lemma MoveStatus(st: State, c: nat, pc: Pc)
    requires Inv(st) && c < |st.calls|
    requires pc.Aborted? || (pc.Returned? && st.calls[c].todo == [])
    requires !st.calls[c].pc.Awaiting? && (pc.Returned? ==> !st.calls[c].pc.Looking? && !st.calls[c].pc.Aborted?)
    ensures StatusOk(st.stores, SetPc(st.calls, c, pc), st.h.home, st.h.sent, st.h.place, st.h.runs, st.h.handled,
                     st.h.early)
  {
    hide RecordAt, Rec, HomesOk, PlacesOk, RunsOk, BegunOk, ReportsOk, AcksOk, SentOk, BoxesOk, Vouched, PlaceOf,
         EarlyOk, CallsOk;
  }

  // ----- the assign message is sent

  /** More has been sent, and what was sent before is where it was. */
  ghost predicate SentGrows(sent: map<SubtaskId, Parcel>, sent': map<SubtaskId, Parcel>,
                            place: map<SubtaskId, Place>, place': map<SubtaskId, Place>) {
    forall t :: t in sent ==> t in sent' && sent'[t] == sent[t] && PlaceOf(place', t) == PlaceOf(place, t)
  }

  lemma RunsGrow(boxes: map<NodeId, Mailbox.State>, sent: map<SubtaskId, Parcel>, sent': map<SubtaskId, Parcel>,
                 place: map<SubtaskId, Place>, place': map<SubtaskId, Place>, runs: seq<ResultMessage>,
                 begun: seq<(NodeId, SubtaskId)>)
    requires SentGrows(sent, sent', place, place')
    requires RunsOk(boxes, sent, place, runs) && BegunOk(boxes, sent, place, begun)
    ensures RunsOk(boxes, sent', place', runs) && BegunOk(boxes, sent', place', begun)
  {
    hide PlaceOf, Reported, Started;
  }

  lemma AcksGrow(acks: set<(SubtaskId, nat)>, replies: map<SubtaskId, bool>, sent: map<SubtaskId, Parcel>,
                 sent': map<SubtaskId, Parcel>, place: map<SubtaskId, Place>, place': map<SubtaskId, Place>,
                 handled: set<SubtaskId>, exhausted: set<SubtaskId>)
    requires SentGrows(sent, sent', place, place') && AcksOk(acks, replies, sent, place, handled, exhausted)
    requires forall t :: t !in sent ==> !PlaceOf(place', t).Left?
    ensures AcksOk(acks, replies, sent', place', handled, exhausted)
  {
    hide PlaceOf;
  }

  lemma ReportsGrow(reports: multiset<Report>, sent: map<SubtaskId, Parcel>, sent': map<SubtaskId, Parcel>,
                    place: map<SubtaskId, Place>, place': map<SubtaskId, Place>, runs: seq<ResultMessage>)
    requires SentGrows(sent, sent', place, place') && ReportsOk(reports, sent, runs)
    ensures ReportsOk(reports, sent', runs)
  {
    hide PlaceOf;
  }

  lemma SentGrowsKeeps(st: State, sent: map<SubtaskId, Parcel>, place: map<SubtaskId, Place>)
    requires Inv(st) && SentGrows(st.h.sent, sent, st.h.place, place)
    requires forall t :: t !in st.h.sent ==> !PlaceOf(place, t).Left?
    ensures RunsOk(st.boxes, sent, place, st.h.runs)
    ensures BegunOk(st.boxes, sent, place, st.h.begun)
    ensures ReportsOk(st.reports, sent, st.h.runs)
    ensures AcksOk(st.acks, st.replies, sent, place, st.h.handled, st.h.exhausted)
  {
    hide PlaceOf, HomesOk, StatusOk, CallsOk, BoxesOk, RunsOk, BegunOk, ReportsOk, AcksOk, PlacesOk, SentOk, EarlyOk,
         SentGrows;
    RunsGrow(st.boxes, st.h.sent, sent, st.h.place, place, st.h.runs, st.h.begun);
    ReportsGrow(st.reports, st.h.sent, sent, st.h.place, place, st.h.runs);
    AcksGrow(st.acks, st.replies, st.h.sent, sent, st.h.place, place, st.h.handled, st.h.exhausted);
  }

  lemma SendParcels(parcels: multiset<Parcel>, sent: map<SubtaskId, Parcel>, place: map<SubtaskId, Place>,
                    s: SubtaskId, pk: Parcel)
    requires ParcelsOk(parcels, sent, place) && s !in sent && pk.msg.sub == s
    ensures ParcelsOk(parcels + multiset{pk}, sent[s := pk], place[s := InNet])
  {
    assert pk !in parcels;
  }

  lemma SendPlaces(st: State, s: SubtaskId, pk: Parcel)
    requires Inv(st) && s !in st.h.sent && pk.msg.sub == s
    ensures PlacesOk(st.boxes, st.parcels + multiset{pk}, st.h.sent[s := pk], st.h.place[s := InNet])
    ensures SentGrows(st.h.sent, st.h.sent[s := pk], st.h.place, st.h.place[s := InNet])
    ensures forall t :: t !in st.h.sent ==> !PlaceOf(st.h.place[s := InNet], t).Left?
  {
    hide HomesOk, StatusOk, CallsOk, BoxesOk, RunsOk, BegunOk, ReportsOk, AcksOk, BoxFits, ParcelsOk, InQueue, SentOk;
    var sent, place := st.h.sent[s := pk], st.h.place[s := InNet];
    SentGrowsBoxes(st.boxes, st.h.sent, sent, st.h.place, place);
    SendParcels(st.parcels, st.h.sent, st.h.place, s, pk);
    forall t ensures PlaceFits(t, PlaceOf(place, t), st.boxes, st.parcels + multiset{pk}, sent) {
      assert PlaceFits(t, PlaceOf(st.h.place, t), st.boxes, st.parcels, st.h.sent);
    }
    forall t | t !in st.h.sent ensures !PlaceOf(place, t).Left? {
      assert PlaceFits(t, PlaceOf(st.h.place, t), st.boxes, st.parcels, st.h.sent);
    }
  }

  lemma SentGrowsBoxes(boxes: map<NodeId, Mailbox.State>, sent: map<SubtaskId, Parcel>, sent': map<SubtaskId, Parcel>,
                       place: map<SubtaskId, Place>, place': map<SubtaskId, Place>)
    requires SentGrows(sent, sent', place, place')
    requires AllBoxed(boxes, sent, place)
    ensures AllBoxed(boxes, sent', place')
  {
    hide PlaceOf;
    forall a | a in boxes ensures BoxFits(a, boxes[a], sent', place') {
      assert BoxFits(a, boxes[a], sent, place);
    }
  }

  lemma SendCalls(st: State, c: nat, s: SubtaskId, pk: Parcel)
    requires Inv(st) && c < |st.calls| && st.calls[c].pc == Looking(s)
    ensures CallsOk(SetPc(st.calls, c, Awaiting(s)), st.h.home, st.h.sent[s := pk])
    ensures EarlyOk(SetPc(st.calls, c, Awaiting(s)), st.h.handled, st.h.early)
    ensures s in st.h.home && s !in st.h.sent && st.h.home[s].call == c
  {
    hide HomesOk, StatusOk, BoxesOk, RunsOk, BegunOk, ReportsOk, PlacesOk, SentOk;
    var calls := SetPc(st.calls, c, Awaiting(s));
    assert CallFits(st.calls[c], c, st.h.home, st.h.sent);
    forall d | 0 <= d < |calls| ensures CallFits(calls[d], d, st.h.home, st.h.sent[s := pk]) {
      assert CallFits(st.calls[d], d, st.h.home, st.h.sent);
    }
  }

  lemma SendStatus(st: State, c: nat, s: SubtaskId, pk: Parcel)
    requires Inv(st) && c < |st.calls| && st.calls[c].pc == Looking(s) && pk.msg.sub == s
    requires s in st.h.home && s !in st.h.sent && st.h.home[s].call == c
    ensures StatusOk(Write(st.stores, st.h.home[s].agent, st.h.home[s].job, s, Assign(pk.to)),
                     SetPc(st.calls, c, Awaiting(s)), st.h.home, st.h.sent[s := pk], st.h.place[s := InNet],
                     st.h.runs, st.h.handled, st.h.early)
  {
    hide Write, Rec, PlacesOk, RunsOk, BegunOk, ReportsOk, SentOk, BoxesOk, HomesOk, CallsOk, EarlyOk, Vouched;
    var home, calls := st.h.home, SetPc(st.calls, c, Awaiting(s));
    var sent, place := st.h.sent[s := pk], st.h.place[s := InNet];
    var next := Write(st.stores, home[s].agent, home[s].job, s, Assign(pk.to));
    RecAfterWrite(st.stores, home, s, Assign(pk.to));
    forall t | t in home && t != s
      ensures Fits(Rec(st.stores, home, t).value, t, calls[home[t].call], sent, PlaceOf(place, t), st.h.runs,
                   t in st.h.handled, t in st.h.early)
    {
      assert PlaceOf(place, t) == PlaceOf(st.h.place, t);
    }
    StatusFromFits(st.stores, next, calls, home, sent, place, st.h.runs, st.h.handled, st.h.early, s,
                   Amend(Rec(st.stores, home, s).value, Assign(pk.to)));
  }

  lemma SendKeepsInv(st: State, c: nat, choice: Scheduler.Choice)
    requires Inv(st) && CanLook(st, c) && choice.node.id != st.calls[c].parent
    ensures Inv(Send(st, c, choice))
  {
    hide Write, RecordAt, PlacesOk, RunsOk, BegunOk, ReportsOk, AcksOk, BoxesOk, HomesOk, CallsOk, EarlyOk, StatusOk,
         RequestOf;
    var s := st.calls[c].pc.sub;
    var pk := Parcel(choice.node.id, MessageOf(st, c));
    SendCalls(st, c, s, pk);
    HomesGiveRecord(st.stores, st.calls, st.h.home, s);
    WriteKeepsHomes(st.stores, st.calls, st.h.home, s, Assign(choice.node.id));
    HomesSameCalls(Write(st.stores, st.h.home[s].agent, st.h.home[s].job, s, Assign(choice.node.id)), st.calls,
                   SetPc(st.calls, c, Awaiting(s)), st.h.home);
    SendPlaces(st, s, pk);
    SentGrowsKeeps(st, st.h.sent[s := pk], st.h.place[s := InNet]);
    SendStatus(st, c, s, pk);
  }

  // ----- jobs and records are added

  /** A change of jobs that leaves every record and every job's parent alone. */
  ghost predicate SameRecords(stores: map<NodeId, Store>, next: map<NodeId, Store>) {
    && next.Keys == stores.Keys
    && (forall b :: b in stores ==> next[b].Keys == stores[b].Keys)
    && (forall b, k :: b in stores && k in stores[b] ==> next[b][k].parent == stores[b][k].parent)
    && (forall b, k, t :: RecordAt(next, b, k, t) == RecordAt(stores, b, k, t))
  }

  lemma SameRecordsKeepsInv(st: State, next: map<NodeId, Store>)
    requires Inv(st) && SameRecords(st.stores, next)
    ensures Inv(st.(stores := next))
  {
    hide RecordAt, Fits, PlacesOk, RunsOk, BegunOk, ReportsOk, AcksOk, SentOk, BoxesOk, CallsOk, EarlyOk, HomesOk;
    HomesAfterWrite(st.stores, next, st.calls, st.h.home);
  }

  lemma FailKeepsRecords(stores: map<NodeId, Store>, p: NodeId, j: JobId, text: string)
    ensures SameRecords(stores, stores)
    ensures p in stores && Fail(stores[p], j, text).Ok? ==>
              SameRecords(stores, stores[p := Fail(stores[p], j, text).value])
  {
    hide Find, RollUp;
  }

  lemma LocalKeepsRecords(stores: map<NodeId, Store>, p: NodeId, j: JobId, result: string)
    ensures SameRecords(stores, stores)
    ensures p in stores && CompleteLocal(stores[p], j, result).Ok? ==>
              SameRecords(stores, stores[p := CompleteLocal(stores[p], j, result).value])
  {
    hide Find, RollUp;
  }

  lemma LonelyCall(st: State, c: nat)
    requires Inv(st) && c < |st.calls| && (st.calls[c].pc.Planning? || st.calls[c].pc.Local?)
    ensures st.calls[c].todo == []
  {
    hide HomesOk, SentOk, BoxesOk, PlacesOk, RunsOk, BegunOk, ReportsOk, AcksOk, EarlyOk, StatusOk;
    assert CallFits(st.calls[c], c, st.h.home, st.h.sent);
  }

  lemma PlanFailsKeepsInv(st: State, c: nat, text: string)
    requires Inv(st) && CanPlan(st, c)
    ensures Inv(PlanFails(st, c, text))
  {
    var next := PlanFails(st, c, text).stores;
    assert st.calls[c].todo == [] by { LonelyCall(st, c); }
    FailKeepsRecords(st.stores, st.calls[c].parent, st.calls[c].job, "planning failed: " + text);
    hide Inv, Fail, SameRecords;
    SameRecordsKeepsInv(st, next);
    MoveKeepsInv(st.(stores := next), c, Returned);
  }

  lemma LocalDoneKeepsInv(st: State, c: nat, result: string)
    requires Inv(st) && CanEndLocal(st, c)
    ensures Inv(LocalDone(st, c, result))
  {
    var next := LocalDone(st, c, result).stores;
    assert st.calls[c].todo == [] by { LonelyCall(st, c); }
    LocalKeepsRecords(st.stores, st.calls[c].parent, st.calls[c].job, result);
    hide Inv, CompleteLocal, SameRecords;
    SameRecordsKeepsInv(st, next);
    MoveKeepsInv(st.(stores := next), c, Returned);
  }

  lemma PlanKeepsInv(st: State, c: nat, specs: seq<SubtaskSpec>)
    requires Inv(st) && CanPlan(st, c)
    ensures Inv(Plan(st, c, specs))
  {
    hide RecordAt, Rec, HomesOk, PlacesOk, RunsOk, BegunOk, ReportsOk, AcksOk, SentOk, BoxesOk, Vouched, PlaceOf,
         CallsOk, EarlyOk, StatusOk;
    PlanCalls(st, c, specs);
    PlanStatus(st, c, specs);
    HomesSameCalls(st.stores, st.calls, Plan(st, c, specs).calls, st.h.home);
  }

  lemma PlanCalls(st: State, c: nat, specs: seq<SubtaskSpec>)
    requires Inv(st) && CanPlan(st, c)
    ensures CallsOk(Plan(st, c, specs).calls, st.h.home, st.h.sent)
    ensures EarlyOk(Plan(st, c, specs).calls, st.h.handled, st.h.early)
  {
    hide HomesOk, PlacesOk, RunsOk, BegunOk, ReportsOk, AcksOk, SentOk, BoxesOk, StatusOk;
  }

  lemma PlanStatus(st: State, c: nat, specs: seq<SubtaskSpec>)
    requires Inv(st) && CanPlan(st, c)
    ensures StatusOk(st.stores, Plan(st, c, specs).calls, st.h.home, st.h.sent, st.h.place, st.h.runs, st.h.handled,
                     st.h.early)
  {
    hide RecordAt, Rec, HomesOk, PlacesOk, RunsOk, BegunOk, ReportsOk, AcksOk, SentOk, BoxesOk, Vouched, PlaceOf,
         EarlyOk;
    assert CallFits(st.calls[c], c, st.h.home, st.h.sent);
    hide CallsOk;
  }

  lemma ForwardKeepsInv(st: State, p: NodeId, j: JobId, description: string, skills: seq<string>, tools: seq<string>,
                        payload: Payload, source: Option<SubtaskId>, target: Option<NodeId>)
    requires Inv(st) && CanForward(st, p, j, source)
    ensures Inv(Forward(st, p, j, description, skills, tools, payload, source, target))
  {
    hide RecordAt, Rec, HomesOk, PlacesOk, RunsOk, BegunOk, ReportsOk, AcksOk, SentOk, BoxesOk, Vouched, PlaceOf,
         ForwardPayload, SourceAssignee;
    HomesSameCalls(st.stores, st.calls, Forward(st, p, j, description, skills, tools, payload, source, target).calls,
                   st.h.home);
  }

  // ----- new records

  lemma FindFresh(specs: seq<SubtaskSpec>, ids: seq<SubtaskId>, t: SubtaskId)
    requires |specs| == |ids|
    ensures Find(RecordsFromSpecs(specs, ids), t).Some? <==> t in ids
    ensures t in ids ==> Find(RecordsFromSpecs(specs, ids), t).value.status.PendingTask?
  {
    var rs := RecordsFromSpecs(specs, ids);
    if HasId(rs, t) {
      var i :| 0 <= i < |rs| && rs[i].id == t;
      assert ids[i] == t;
    }
    if t in ids {
      var i :| 0 <= i < |ids| && ids[i] == t;
      assert rs[i].id == t;
    }
  }

  lemma SubmitRecords(st: State, p: NodeId, j: JobId, description: string, specs: seq<SubtaskSpec>, ids: seq<SubtaskId>)
    requires CanSubmit(st, p, j, specs, ids)
    ensures var next := st.stores[p := Create(st.stores[p], j, p, description, specs, ids)];
            && (forall b, k, t :: !(b == p && k == j) ==> RecordAt(next, b, k, t) == RecordAt(st.stores, b, k, t))
            && (forall t :: RecordAt(next, p, j, t).Some? <==> t in ids)
            && (forall t :: t in ids ==> RecordAt(next, p, j, t).value.status.PendingTask?)
  {
    hide RollUp, Find;
    forall t ensures Find(RecordsFromSpecs(specs, ids), t).Some? <==> t in ids
             ensures t in ids ==> Find(RecordsFromSpecs(specs, ids), t).value.status.PendingTask?
    {
      FindFresh(specs, ids, t);
    }
  }

  /** A new call has added a new job, and with it the homes of the given ids. */
  ghost predicate JobAdded(stores: map<NodeId, Store>, next: map<NodeId, Store>, calls: seq<Call>, call: Call,
                           home: map<SubtaskId, Home>, home': map<SubtaskId, Home>, ids: seq<SubtaskId>) {
    var p, j := call.parent, call.job;
    && !call.pc.Awaiting? && p in stores && next.Keys == stores.Keys
    && (forall a :: a in stores ==> j !in stores[a])
    && (forall a :: a in stores && a != p ==> next[a] == stores[a])
    && next[p].Keys == stores[p].Keys + {j} && next[p][j].parent == p
    && (forall k :: k in stores[p] ==> next[p][k] == stores[p][k])
    && (forall b, k, t :: !(b == p && k == j) ==> RecordAt(next, b, k, t) == RecordAt(stores, b, k, t))
    && (forall t :: RecordAt(next, p, j, t).Some? <==> t in ids)
    && (forall t :: t in ids ==> RecordAt(next, p, j, t).value.status.PendingTask? && t !in home)
    && (forall t :: t in home' <==> t in home || t in ids)
    && (forall t :: t in home ==> home'[t] == home[t])
    && (forall t :: t in ids ==> home'[t] == Home(p, j, |calls|))
    && (forall t :: t in ids ==> Existing(t) in call.todo)
  }

  lemma CreateShape(stores: map<NodeId, Store>, p: NodeId, j: JobId, description: string, specs: seq<SubtaskSpec>,
                    ids: seq<SubtaskId>)
    requires p in stores && |specs| == |ids| && j !in stores[p]
    ensures var next := stores[p := Create(stores[p], j, p, description, specs, ids)];
            && next.Keys == stores.Keys
            && (forall a :: a in stores && a != p ==> next[a] == stores[a])
            && next[p].Keys == stores[p].Keys + {j} && next[p][j].parent == p
            && (forall k :: k in stores[p] ==> next[p][k] == stores[p][k])
  {}

  lemma SubmitIds(st: State, p: NodeId, j: JobId, specs: seq<SubtaskSpec>, ids: seq<SubtaskId>, t: SubtaskId)
    requires CanSubmit(st, p, j, specs, ids) && t in ids
    ensures Existing(t) in Todos(ids) && t !in st.h.home
  {
    var i :| 0 <= i < |ids| && ids[i] == t;
    assert Todos(ids)[i] == Existing(t);
    assert Fresh(st, ids[i]);
  }

  lemma SubmitAddsJob(st: State, p: NodeId, j: JobId, description: string, specs: seq<SubtaskSpec>, ids: seq<SubtaskId>,
                      planner: bool)
    requires CanSubmit(st, p, j, specs, ids)
    ensures var next := Submit(st, p, j, description, specs, ids, planner);
            |next.calls| == |st.calls| + 1
            && JobAdded(st.stores, next.stores, st.calls, next.calls[|st.calls|], st.h.home, next.h.home, ids)
  {
    hide RecordAt, Create, Todos;
    CreateShape(st.stores, p, j, description, specs, ids);
    SubmitRecords(st, p, j, description, specs, ids);
    forall t | t in ids ensures Existing(t) in Todos(ids) && t !in st.h.home {
      SubmitIds(st, p, j, specs, ids, t);
    }
  }

  lemma JobAddedSame(stores: map<NodeId, Store>, next: map<NodeId, Store>, calls: seq<Call>, call: Call,
                     home: map<SubtaskId, Home>, home': map<SubtaskId, Home>, ids: seq<SubtaskId>, s: SubtaskId)
    requires HomesOk(stores, calls, home) && JobAdded(stores, next, calls, call, home, home', ids) && s in home
    ensures Rec(next, home', s) == Rec(stores, home, s) && Rec(next, home', s).Some?
  {
    HomesGiveRecord(stores, calls, home, s);
    RecordInJob(stores, home[s].agent, home[s].job, s);
    hide RecordAt, HomesOk;
  }

  lemma JobAddedRecords(stores: map<NodeId, Store>, next: map<NodeId, Store>, calls: seq<Call>, call: Call,
                        home: map<SubtaskId, Home>, home': map<SubtaskId, Home>, ids: seq<SubtaskId>)
    requires HomesOk(stores, calls, home) && JobAdded(stores, next, calls, call, home, home', ids)
    ensures forall a, j, s :: RecordAt(next, a, j, s).Some? ==> s in home' && home'[s].agent == a && home'[s].job == j
    ensures forall s :: s in home' ==> Rec(next, home', s).Some?
  {
    hide RecordAt;
    forall a, k, s | RecordAt(next, a, k, s).Some? ensures s in home' && home'[s].agent == a && home'[s].job == k {
      if !(a == call.parent && k == call.job) { assert RecordAt(stores, a, k, s).Some?; }
    }
    forall s | s in home' ensures Rec(next, home', s).Some? {
      if s in home { JobAddedSame(stores, next, calls, call, home, home', ids, s); }
    }
  }

  lemma JobAddedJobs(stores: map<NodeId, Store>, next: map<NodeId, Store>, calls: seq<Call>, call: Call,
                     home: map<SubtaskId, Home>, home': map<SubtaskId, Home>, ids: seq<SubtaskId>)
    requires HomesOk(stores, calls, home) && JobAdded(stores, next, calls, call, home, home', ids)
    ensures forall a, b, j :: a in next && b in next && j in next[a] && j in next[b] ==> a == b
    ensures forall a, j :: a in next && j in next[a] ==> next[a][j].parent == a
    ensures forall c :: 0 <= c < |calls + [call]| ==>
              (calls + [call])[c].parent in next && (calls + [call])[c].job in next[(calls + [call])[c].parent]
  {
    hide RecordAt;
    var calls' := calls + [call];
    forall a, k | a in next && k in next[a]
      ensures next[a][k].parent == a
      ensures k == call.job ==> a == call.parent
      ensures k != call.job ==> k in stores[a]
    {
      if a != call.parent { assert next[a] == stores[a]; }
    }
    forall c | 0 <= c < |calls'| ensures calls'[c].parent in next && calls'[c].job in next[calls'[c].parent] {
      if c < |calls| {
        assert calls[c].job in stores[calls[c].parent];
      }
    }
  }

  lemma JobAddedHomes(stores: map<NodeId, Store>, next: map<NodeId, Store>, calls: seq<Call>, call: Call,
                      home: map<SubtaskId, Home>, home': map<SubtaskId, Home>, ids: seq<SubtaskId>)
    requires HomesOk(stores, calls, home) && JobAdded(stores, next, calls, call, home, home', ids)
    ensures HomesOk(next, calls + [call], home')
  {
    hide RecordAt, Rec;
    JobAddedRecords(stores, next, calls, call, home, home', ids);
    JobAddedJobs(stores, next, calls, call, home, home', ids);
    forall s | s in home'
      ensures home'[s].call < |calls + [call]| && (calls + [call])[home'[s].call].parent == home'[s].agent
              && (calls + [call])[home'[s].call].job == home'[s].job
    {
      if s in home { HomesGiveRecord(stores, calls, home, s); }
    }
  }

  lemma JobAddedStatus(st: State, next: map<NodeId, Store>, call: Call, home': map<SubtaskId, Home>,
                       ids: seq<SubtaskId>)
    requires Inv(st) && JobAdded(st.stores, next, st.calls, call, st.h.home, home', ids)
    ensures StatusOk(next, st.calls + [call], home', st.h.sent, st.h.place, st.h.runs, st.h.handled, st.h.early)
  {
    hide PlacesOk, RunsOk, BegunOk, ReportsOk, AcksOk, BoxesOk, CallsOk, EarlyOk, PlaceOf, Vouched, RecordAt;
    var calls' := st.calls + [call];
    forall s | s in home'
      ensures home'[s].call < |calls'| && Rec(next, home', s).Some?
      ensures Fits(Rec(next, home', s).value, s, calls'[home'[s].call], st.h.sent, PlaceOf(st.h.place, s), st.h.runs,
                   s in st.h.handled, s in st.h.early)
    {
      if s in st.h.home {
        HomesGiveRecord(st.stores, st.calls, st.h.home, s);
        RecordInJob(st.stores, st.h.home[s].agent, st.h.home[s].job, s);
        assert Rec(next, home', s) == Rec(st.stores, st.h.home, s);
      } else {
        assert s in ids;
      }
    }
  }

  lemma SubmitCalls(st: State, p: NodeId, j: JobId, description: string, specs: seq<SubtaskSpec>, ids: seq<SubtaskId>,
                    planner: bool)
    requires Inv(st) && CanSubmit(st, p, j, specs, ids)
    ensures var next := Submit(st, p, j, description, specs, ids, planner);
            CallsOk(next.calls, next.h.home, next.h.sent) && EarlyOk(next.calls, next.h.handled, next.h.early)
  {
    hide PlacesOk, RunsOk, BegunOk, ReportsOk, AcksOk, BoxesOk, StatusOk, HomesOk, RecordAt, PlaceOf, Create;
    var next := Submit(st, p, j, description, specs, ids, planner);
    forall c | 0 <= c < |next.calls| ensures CallFits(next.calls[c], c, next.h.home, next.h.sent) {
      if c < |st.calls| {
        assert CallFits(st.calls[c], c, st.h.home, st.h.sent);
      } else {
        assert forall i :: 0 <= i < |ids| ==> ids[i] !in st.h.sent;
      }
    }
  }

  lemma SubmitKeepsInv(st: State, p: NodeId, j: JobId, description: string, specs: seq<SubtaskSpec>,
                       ids: seq<SubtaskId>,
                       planner: bool)
    requires Inv(st) && CanSubmit(st, p, j, specs, ids)
    ensures Inv(Submit(st, p, j, description, specs, ids, planner))
  {
    var next := Submit(st, p, j, description, specs, ids, planner);
    SubmitAddsJob(st, p, j, description, specs, ids, planner);
    SubmitCalls(st, p, j, description, specs, ids, planner);
    var call := next.calls[|st.calls|];
    hide JobAdded, PlacesOk, RunsOk, BegunOk, ReportsOk, AcksOk, BoxesOk, CallsOk, StatusOk, EarlyOk, HomesOk, RecordAt,
         PlaceOf, Create;
    JobAddedHomes(st.stores, next.stores, st.calls, call, st.h.home, next.h.home, ids);
    JobAddedStatus(st, next.stores, call, next.h.home, ids);
    SentAfterSubmit(st, next.h.home);
  }

  lemma SentAfterSubmit(st: State, home': map<SubtaskId, Home>)
    requires SentOk(st.h.home, st.h.sent)
    requires forall s :: s in st.h.home ==> s in home' && home'[s] == st.h.home[s]
    ensures SentOk(home', st.h.sent)
  {}

  lemma RecordInJob(stores: map<NodeId, Store>, a: NodeId, j: JobId, s: SubtaskId)
    requires RecordAt(stores, a, j, s).Some?
    ensures a in stores && j in stores[a]
  {}

  lemma AddRecords(stores: map<NodeId, Store>, p: NodeId, j: JobId, spec: SubtaskSpec, s: SubtaskId)
    requires p in stores && j in stores[p] && RecordAt(stores, p, j, s).None?
    ensures var next := stores[p := AddSubtask(stores[p], j, spec, s).value];
            && next.Keys == stores.Keys
            && (forall b :: b in stores ==> next[b].Keys == stores[b].Keys)
            && (forall b, k :: b in stores && k in stores[b] ==> next[b][k].parent == stores[b][k].parent)
    ensures forall b, k, t :: RecordAt(stores[p := AddSubtask(stores[p], j, spec, s).value], b, k, t) ==
              if b == p && k == j && t == s then Some(RecordFromSpec(spec, s)) else RecordAt(stores, b, k, t)
  {
    hide RollUp, Find;
    LookupAdded(stores[p], j, spec, s);
  }

  /** A record with a new id has been added to a job that exists. */
  ghost predicate RecordAdded(stores: map<NodeId, Store>, next: map<NodeId, Store>, p: NodeId, j: JobId, s: SubtaskId,
                              r: SubtaskRecord) {
    && next.Keys == stores.Keys
    && (forall b :: b in stores ==> next[b].Keys == stores[b].Keys)
    && (forall b, k :: b in stores && k in stores[b] ==> next[b][k].parent == stores[b][k].parent)
    && (forall b, k, t :: RecordAt(next, b, k, t) ==
          if b == p && k == j && t == s then Some(r) else RecordAt(stores, b, k, t))
  }

  lemma RecordAddedHomes(stores: map<NodeId, Store>, next: map<NodeId, Store>, calls: seq<Call>, home: map<SubtaskId,
                         Home>,
                         c: nat, s: SubtaskId, r: SubtaskRecord)
    requires HomesOk(stores, calls, home) && s !in home && c < |calls|
    requires RecordAdded(stores, next, calls[c].parent, calls[c].job, s, r)
    ensures HomesOk(next, calls, home[s := Home(calls[c].parent, calls[c].job, c)])
  {
    hide RecordAt;
  }

  /** The test at the head of `_dispatch` never fires: no agent works on a job that
      its own store holds. */
  lemma GuardNeverFires(st: State, a: NodeId, j: JobId)
    requires Inv(st) && a in st.stores && j in st.stores[a]
    ensures !WorksOn(st.boxes, a, j)
  {
    hide RunsOk, BegunOk, ReportsOk, AcksOk, BoxesOk, CallsOk, EarlyOk, StatusOk, RecordAt, Mailbox.Inv;
    if WorksOn(st.boxes, a, j) {
      assert BoxFits(a, st.boxes[a], st.h.sent, st.h.place);
      var s := st.boxes[a].slot.value.sub;
      HomesGiveRecord(st.stores, st.calls, st.h.home, s);
      RecordInJob(st.stores, st.h.home[s].agent, st.h.home[s].job, s);
    }
  }

  /** A call goes on to its next subtask, which is now the one it looks up. */
  lemma BeginCalls(st: State, c: nat, home: map<SubtaskId, Home>, s: SubtaskId)
    requires Inv(st) && c < |st.calls| && st.calls[c].pc.Next? && st.calls[c].todo != []
    requires s in home && home[s].call == c && s !in st.h.sent
    requires st.calls[c].todo[0].Existing? ==> st.calls[c].todo[0].sub == s
    requires forall t :: t in st.h.home ==> t in home && home[t] == st.h.home[t]
    requires st.calls[c].todo[0].Planned? ==> s !in st.h.home
    ensures var calls := st.calls[c := st.calls[c].(todo := st.calls[c].todo[1..], pc := Looking(s))];
            CallsOk(calls, home, st.h.sent) && EarlyOk(calls, st.h.handled, st.h.early)
  {
    hide RunsOk, BegunOk, ReportsOk, AcksOk, BoxesOk, StatusOk, HomesOk, PlacesOk, SentOk;
    var calls := st.calls[c := st.calls[c].(todo := st.calls[c].todo[1..], pc := Looking(s))];
    forall d | 0 <= d < |calls| ensures CallFits(calls[d], d, home, st.h.sent) {
      assert CallFits(st.calls[d], d, st.h.home, st.h.sent);
      if d == c {
        forall x | 0 <= x < |calls[c].todo| && calls[c].todo[x].Existing?
          ensures calls[c].todo[x].sub != s
        {
          assert calls[c].todo[x] == st.calls[c].todo[x + 1];
          assert st.calls[c].todo[0].Existing? ==> st.calls[c].todo[0] != st.calls[c].todo[x + 1];
        }
      }
    }
  }

  lemma BeginOthersFit(r: SubtaskRecord, t: SubtaskId, s: SubtaskId, call: Call, sent: map<SubtaskId, Parcel>, p: Place,
                       runs: seq<ResultMessage>, handled: bool, early: bool)
    requires call.pc.Next? && call.todo != []
    requires t == s || call.todo[0] != Existing(t)
    requires Fits(r, t, call, sent, p, runs, handled, early)
    ensures Fits(r, t, call.(todo := call.todo[1..], pc := Looking(s)), sent, p, runs, handled, early)
  {
    hide Vouched;
    assert call.todo == [call.todo[0]] + call.todo[1..];
  }

  lemma BeginExistingKeepsInv(st: State, c: nat, newId: SubtaskId)
    requires Inv(st) && CanBegin(st, c, newId) && st.calls[c].todo[0].Existing?
    ensures Inv(Begin(st, c, newId))
  {
    hide Write, Rec, RecordAt, RunsOk, BegunOk, ReportsOk, AcksOk, BoxesOk, PlacesOk, SentOk, Fits, EarlyOk, PlaceOf;
    var call := st.calls[c];
    var s := call.todo[0].sub;
    assert CallFits(call, c, st.h.home, st.h.sent);
    hide CallsOk;
    GuardNeverFires(st, call.parent, call.job);
    BeginCalls(st, c, st.h.home, s);
    var calls := st.calls[c := call.(todo := call.todo[1..], pc := Looking(s))];
    HomesSameCalls(st.stores, st.calls, calls, st.h.home);
    hide HomesOk, WorksOn;
    forall t | t in st.h.home
      ensures st.h.home[t].call < |calls|
      ensures Fits(Rec(st.stores, st.h.home, t).value, t, calls[st.h.home[t].call], st.h.sent, PlaceOf(st.h.place, t),
                   st.h.runs, t in st.h.handled, t in st.h.early)
    {
      if st.h.home[t].call == c {
        BeginOthersFit(Rec(st.stores, st.h.home, t).value, t, s, call, st.h.sent, PlaceOf(st.h.place, t), st.h.runs,
                       t in st.h.handled, t in st.h.early);
      }
    }
  }

  lemma BeginPlannedKeepsInv(st: State, c: nat, newId: SubtaskId)
    requires Inv(st) && CanBegin(st, c, newId) && st.calls[c].todo[0].Planned?
    ensures Inv(Begin(st, c, newId))
  {
    hide Write, Rec, RunsOk, BegunOk, ReportsOk, AcksOk, BoxesOk, PlacesOk, Fits, EarlyOk, PlaceOf, AddSubtask, Lookup;
    var call := st.calls[c];
    var s := newId;
    GuardNeverFires(st, call.parent, call.job);
    assert RecordAt(st.stores, call.parent, call.job, s).None?;
    var r := RecordFromSpec(call.todo[0].spec, s);
    AddedOk(st, call.parent, call.job, call.todo[0].spec, s);
    var next := st.stores[call.parent := AddSubtask(st.stores[call.parent], call.job, call.todo[0].spec, s).value];
    var home := st.h.home[s := Home(call.parent, call.job, c)];
    var calls := st.calls[c := call.(todo := call.todo[1..], pc := Looking(s))];
    AddRecords(st.stores, call.parent, call.job, call.todo[0].spec, s);
    hide RecordAt, HomesOk, WorksOn;
    assert Begin(st, c, newId) == st.(stores := next, calls := calls, h := st.h.(home := home));
    RecordAddedHomes(st.stores, next, st.calls, st.h.home, c, s, r);
    HomesSameCalls(next, st.calls, calls, home);
    BeginCalls(st, c, home, s);
    SentAfterSubmit(st, home);
    BeginPlannedStatus(st, c, s, r, next);
  }

  lemma AddedOk(st: State, p: NodeId, j: JobId, spec: SubtaskSpec, s: SubtaskId)
    requires p in st.stores && j in st.stores[p]
    ensures AddSubtask(st.stores[p], j, spec, s).Ok?
  {}

  lemma BeginPlannedStatus(st: State, c: nat, s: SubtaskId, r: SubtaskRecord, next: map<NodeId, Store>)
    requires Inv(st) && c < |st.calls| && st.calls[c].pc.Next? && st.calls[c].todo != [] && st.calls[c].todo[0].Planned?
    requires s !in st.h.home && r.status.PendingTask?
    requires RecordAdded(st.stores, next, st.calls[c].parent, st.calls[c].job, s, r)
    ensures StatusOk(next, st.calls[c := st.calls[c].(todo := st.calls[c].todo[1..], pc := Looking(s))],
                     st.h.home[s := Home(st.calls[c].parent, st.calls[c].job, c)], st.h.sent, st.h.place, st.h.runs,
                     st.h.handled, st.h.early)
  {
    hide RecordAt, Fits, RunsOk, BegunOk, ReportsOk, AcksOk, BoxesOk, PlacesOk, HomesOk, CallsOk, EarlyOk, PlaceOf;
    var call := st.calls[c];
    var home := st.h.home[s := Home(call.parent, call.job, c)];
    var calls := st.calls[c := call.(todo := call.todo[1..], pc := Looking(s))];
    forall t | t in home
      ensures home[t].call < |calls| && Rec(next, home, t).Some?
      ensures Fits(Rec(next, home, t).value, t, calls[home[t].call], st.h.sent, PlaceOf(st.h.place, t),
                   st.h.runs, t in st.h.handled, t in st.h.early)
    {
      if t == s {
        NewRecordFits(st, r, s, calls[c]);
      } else {
        assert Rec(next, home, t) == Rec(st.stores, st.h.home, t);
        if home[t].call == c {
          BeginOthersFit(Rec(st.stores, st.h.home, t).value, t, s, call, st.h.sent, PlaceOf(st.h.place, t), st.h.runs,
                         t in st.h.handled, t in st.h.early);
        }
      }
    }
  }

  lemma NewRecordFits(st: State, r: SubtaskRecord, s: SubtaskId, call: Call)
    requires SentOk(st.h.home, st.h.sent) && s !in st.h.home && r.status.PendingTask? && call.pc == Looking(s)
    ensures Fits(r, s, call, st.h.sent, PlaceOf(st.h.place, s), st.h.runs, s in st.h.handled, s in st.h.early)
  {}
}
