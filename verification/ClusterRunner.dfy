/** The steps of a child's runner, and the results it reports, keep the invariant. */
module ClusterRunner {
  import opened Models
  import opened Jobs
  import opened Cluster
  import opened ClusterInvariant
  import opened ClusterParent
  import opened ClusterNetwork
  import Mailbox

  lemma TheRunner(st: State, a: NodeId, i: nat)
    requires Inv(st) && HasRunner(st, a, i)
    ensures var box := st.boxes[a];
            && i == 0 && |box.runners| == 1 && box.slot.Some?
            && Mailbox.Inv(box, a, st.config[a].capacity)
            && (!box.runners[0].Spawned? ==> box.runners[0].work == box.slot.value)
            && BoxFits(a, box, st.h.sent, st.h.place)
  {
    hide HomesOk, CallsOk, StatusOk, AcksOk, EarlyOk, ReportsOk, RunsOk, BegunOk, AllPlaced, ParcelsOk, SentOk, BoxFits;
    assert BoxFits(a, st.boxes[a], st.h.sent, st.h.place);
  }

  // ----- only the runner changes

  lemma RunnerPlaces(st: State, a: NodeId, next: Mailbox.State)
    requires Inv(st) && a in st.boxes && a in st.config
    requires next.slot == st.boxes[a].slot && next.queue == st.boxes[a].queue
    requires Mailbox.Inv(next, a, st.config[a].capacity)
    ensures BoxesOk(st.config, st.boxes[a := next])
    ensures PlacesOk(st.boxes[a := next], st.parcels, st.h.sent, st.h.place)
  {
    hide HomesOk, CallsOk, StatusOk, AcksOk, EarlyOk, ReportsOk, RunsOk, BegunOk, ParcelsOk, SentOk, PlaceOf,
         BoxFits, PlaceFits, Mailbox.Inv;
    var boxes := st.boxes[a := next];
    forall b | b in boxes ensures BoxFits(b, boxes[b], st.h.sent, st.h.place) {
      assert BoxFits(b, st.boxes[b], st.h.sent, st.h.place);
      if b == a { SameWorkBox(a, st.boxes[a], next, st.h.sent, st.h.place); }
    }
    forall t ensures PlaceFits(t, PlaceOf(st.h.place, t), boxes, st.parcels, st.h.sent) {
      assert PlaceFits(t, PlaceOf(st.h.place, t), st.boxes, st.parcels, st.h.sent);
      SameWorkPlace(t, a, next, st.boxes, st.parcels, st.h.sent, st.h.place);
    }
  }

  lemma SameWorkBox(a: NodeId, box: Mailbox.State, next: Mailbox.State, sent: map<SubtaskId, Parcel>,
                    place: map<SubtaskId, Place>)
    requires BoxFits(a, box, sent, place) && next.slot == box.slot && next.queue == box.queue
    ensures BoxFits(a, next, sent, place)
  {}

  lemma SameWorkPlace(t: SubtaskId, a: NodeId, next: Mailbox.State, boxes: map<NodeId, Mailbox.State>,
                      parcels: multiset<Parcel>, sent: map<SubtaskId, Parcel>, place: map<SubtaskId, Place>)
    requires PlaceFits(t, PlaceOf(place, t), boxes, parcels, sent)
    requires a in boxes && next.slot == boxes[a].slot && next.queue == boxes[a].queue
    ensures PlaceFits(t, PlaceOf(place, t), boxes[a := next], parcels, sent)
  {}

  /** What the slot of a valid mailbox says about its subtask. */
  lemma SlotFacts(a: NodeId, box: Mailbox.State, sent: map<SubtaskId, Parcel>, place: map<SubtaskId, Place>,
                  home: map<SubtaskId, Home>)
    requires BoxFits(a, box, sent, place) && box.slot.Some? && SentOk(home, sent)
    ensures var w := box.slot.value;
            && w.sub in sent && sent[w.sub].to == a && PlaceOf(place, w.sub) == InSlot(a)
            && w.job == sent[w.sub].msg.job && w.parent == sent[w.sub].msg.parent
  {}

  lemma BeginRunRuns(boxes: map<NodeId, Mailbox.State>, a: NodeId, next: Mailbox.State, sent: map<SubtaskId, Parcel>,
                     place: map<SubtaskId, Place>, runs: seq<ResultMessage>, begun: seq<(NodeId, SubtaskId)>,
                     s: SubtaskId)
    requires RunsOk(boxes, sent, place, runs) && BegunOk(boxes, sent, place, begun)
    requires a in boxes && |boxes[a].runners| == 1 && boxes[a].runners[0].Spawned?
    requires |next.runners| == 1 && next.runners[0].Executing?
    requires s in sent && sent[s].to == a && PlaceOf(place, s) == InSlot(a)
    ensures RunsOk(boxes[a := next], sent, place, runs) && BegunOk(boxes[a := next], sent, place, begun + [(a, s)])
  {
    hide PlaceOf;
    assert forall k :: 0 <= k < |begun| ==> begun[k].1 != s;
  }

  lemma BeginRunKeepsInv(st: State, a: NodeId, i: nat)
    requires Inv(st) && CanBeginRun(st, a, i)
    ensures Inv(BeginRun(st, a, i))
  {
    hide HomesOk, CallsOk, StatusOk, PlacesOk, BoxesOk, EarlyOk, AcksOk, ReportsOk, RunsOk, BegunOk, BoxFits, PlaceOf;
    TheRunner(st, a, i);
    var box := st.boxes[a];
    SlotFacts(a, box, st.h.sent, st.h.place, st.h.home);
    var next := Mailbox.Begin(box, i);
    RunnerPlaces(st, a, next);
    BeginRunRuns(st.boxes, a, next, st.h.sent, st.h.place, st.h.runs, st.h.begun, box.slot.value.sub);
  }

  lemma ExecuteRuns(boxes: map<NodeId, Mailbox.State>, a: NodeId, next: Mailbox.State, sent: map<SubtaskId, Parcel>,
                    place: map<SubtaskId, Place>, runs: seq<ResultMessage>, begun: seq<(NodeId, SubtaskId)>,
                    m: ResultMessage)
    requires RunsOk(boxes, sent, place, runs) && BegunOk(boxes, sent, place, begun)
    requires a in boxes && |boxes[a].runners| == 1 && boxes[a].runners[0].Executing?
    requires |next.runners| == 1 && next.runners[0].Reporting? && next.runners[0].result == m
    requires m.sub in sent && sent[m.sub].to == a == m.child && PlaceOf(place, m.sub) == InSlot(a)
    requires m.job == sent[m.sub].msg.job && m.status.Terminal()
    ensures RunsOk(boxes[a := next], sent, place, runs + [m]) && BegunOk(boxes[a := next], sent, place, begun)
  {
    hide PlaceOf;
    assert forall k :: 0 <= k < |runs| ==> runs[k].sub != m.sub;
    assert m in runs + [m];
  }

  lemma MoreRuns(st: State, m: ResultMessage)
    requires Inv(st)
    ensures StatusOk(st.stores, st.calls, st.h.home, st.h.sent, st.h.place, st.h.runs + [m], st.h.handled, st.h.early)
    ensures ReportsOk(st.reports, st.h.sent, st.h.runs + [m])
  {
    hide Rec, HomesOk, CallsOk, PlacesOk, RunsOk, BegunOk, AcksOk, PlaceOf;
  }

  lemma ExecuteKeepsInv(st: State, a: NodeId, i: nat, o: Mailbox.Outcome)
    requires Inv(st) && CanExecute(st, a, i)
    ensures Inv(Execute(st, a, i, o))
  {
    hide HomesOk, CallsOk, StatusOk, PlacesOk, BoxesOk, EarlyOk, AcksOk, ReportsOk, RunsOk, BegunOk, BoxFits, PlaceOf;
    TheRunner(st, a, i);
    var box := st.boxes[a];
    SlotFacts(a, box, st.h.sent, st.h.place, st.h.home);
    var next := Mailbox.Execute(box, i, a, o);
    RunnerPlaces(st, a, next);
    var m := Mailbox.ResultOf(box.slot.value, a, o);
    ExecuteRuns(st.boxes, a, next, st.h.sent, st.h.place, st.h.runs, st.h.begun, m);
    MoreRuns(st, m);
  }

  /** Posting, or getting ready to post again, keeps the result. */
  lemma ReportingOn(boxes: map<NodeId, Mailbox.State>, a: NodeId, next: Mailbox.State, sent: map<SubtaskId, Parcel>,
                    place: map<SubtaskId, Place>, runs: seq<ResultMessage>, begun: seq<(NodeId, SubtaskId)>)
    requires RunsOk(boxes, sent, place, runs) && BegunOk(boxes, sent, place, begun)
    requires a in boxes && |boxes[a].runners| == 1 && boxes[a].runners[0].Reporting?
    requires |next.runners| == 1 && next.runners[0].Reporting? && next.runners[0].result == boxes[a].runners[0].result
    ensures RunsOk(boxes[a := next], sent, place, runs) && BegunOk(boxes[a := next], sent, place, begun)
    ensures next.runners[0].result in runs
  {
    hide PlaceOf;
  }

  lemma PostReports(reports: multiset<Report>, sent: map<SubtaskId, Parcel>, runs: seq<ResultMessage>, rp: Report)
    requires ReportsOk(reports, sent, runs)
    requires rp.msg in runs && rp.msg.sub in sent && rp.to == sent[rp.msg.sub].msg.parent
    ensures ReportsOk(reports + multiset{rp}, sent, runs)
  {}

  lemma PostKeepsInv(st: State, a: NodeId, i: nat)
    requires Inv(st) && CanPost(st, a, i)
    ensures Inv(Post(st, a, i))
  {
    hide HomesOk, CallsOk, StatusOk, PlacesOk, BoxesOk, EarlyOk, AcksOk, ReportsOk, RunsOk, BegunOk, BoxFits, PlaceOf;
    TheRunner(st, a, i);
    var box := st.boxes[a];
    SlotFacts(a, box, st.h.sent, st.h.place, st.h.home);
    var r, next := box.runners[0], Mailbox.Post(box, i);
    RunnerPlaces(st, a, next);
    ReportingOn(st.boxes, a, next, st.h.sent, st.h.place, st.h.runs, st.h.begun);
    PostReports(st.reports, st.h.sent, st.h.runs, Report(r.work.parent, r.result, r.attempt));
  }

  lemma RetryKeepsInv(st: State, a: NodeId, i: nat)
    requires Inv(st) && CanEndAttempt(st, a, i) && !Mailbox.LastAttempt(st.boxes[a].runners[i])
    ensures Inv(AttemptFails(st, a, i))
  {
    hide HomesOk, CallsOk, StatusOk, PlacesOk, BoxesOk, EarlyOk, AcksOk, ReportsOk, RunsOk, BegunOk, BoxFits, PlaceOf,
         SentOk;
    TheRunner(st, a, i);
    var next := Mailbox.Retry(st.boxes[a], i);
    RunnerPlaces(st, a, next);
    ReportingOn(st.boxes, a, next, st.h.sent, st.h.place, st.h.runs, st.h.begun);
  }

  // ----- the slot is handed over

  /** What a handover leaves: the head of the queue with a new runner, or nothing. */
  function Passed(box: Mailbox.State): Mailbox.State {
    if box.queue == [] then Mailbox.EMPTY
    else Mailbox.State(Some(Mailbox.ChildFromAssign(box.queue[0])), box.queue[1..], [Mailbox.Spawned])
  }

  lemma HandOverPasses(box: Mailbox.State, a: NodeId, capacity: nat)
    requires Mailbox.Inv(box, a, capacity) && box.slot.Some?
    ensures Mailbox.HandOver(box, 0) == Passed(box) && Mailbox.Inv(Passed(box), a, capacity)
  {}

  lemma PassedBox(a: NodeId, box: Mailbox.State, sent: map<SubtaskId, Parcel>, place: map<SubtaskId, Place>)
    requires BoxFits(a, box, sent, place) && box.slot.Some?
    ensures BoxFits(a, Passed(box), sent, Moved(place, box, a, box.slot.value.sub))
  {}

  /** Where a handover leaves each subtask. */
  lemma MovedTo(a: NodeId, box: Mailbox.State, boxes: map<NodeId, Mailbox.State>, parcels: multiset<Parcel>,
                sent: map<SubtaskId, Parcel>, place: map<SubtaskId, Place>, t: SubtaskId)
    requires BoxFits(a, box, sent, place) && box.slot.Some? && a in boxes && boxes[a] == box
    requires PlaceFits(t, PlaceOf(place, t), boxes, parcels, sent)
    ensures var p := PlaceOf(Moved(place, box, a, box.slot.value.sub), t);
            if t == box.slot.value.sub then p == Left(a) && PlaceOf(place, t) == InSlot(a)
            else if box.queue != [] && t == box.queue[0].sub then p == InSlot(a) && PlaceOf(place, t) == Queued(a)
            else p == PlaceOf(place, t) && p != InSlot(a)
  {
    hide InQueue;
  }

  lemma PassedPlace(a: NodeId, box: Mailbox.State, boxes: map<NodeId, Mailbox.State>, parcels: multiset<Parcel>,
                    sent: map<SubtaskId, Parcel>, place: map<SubtaskId, Place>, t: SubtaskId)
    requires BoxFits(a, box, sent, place) && box.slot.Some? && a in boxes && boxes[a] == box
    requires PlaceFits(t, PlaceOf(place, t), boxes, parcels, sent)
    ensures PlaceFits(t, PlaceOf(Moved(place, box, a, box.slot.value.sub), t), boxes[a := Passed(box)], parcels, sent)
  {
    MovedTo(a, box, boxes, parcels, sent, place, t);
    hide Moved, PlaceOf;
    if box.queue != [] && t != box.queue[0].sub && InQueue(box, t) {
      var i :| 0 <= i < |box.queue| && box.queue[i].sub == t;
      assert Passed(box).queue[i - 1].sub == t;
    }
  }

  lemma OtherBoxMoved(b: NodeId, other: Mailbox.State, a: NodeId, box: Mailbox.State, sent: map<SubtaskId, Parcel>,
                      place: map<SubtaskId, Place>)
    requires BoxFits(b, other, sent, place) && BoxFits(a, box, sent, place) && box.slot.Some? && a != b
    ensures BoxFits(b, other, sent, Moved(place, box, a, box.slot.value.sub))
  {}

  lemma ParcelsMoved(parcels: multiset<Parcel>, a: NodeId, box: Mailbox.State, sent: map<SubtaskId, Parcel>,
                     place: map<SubtaskId, Place>)
    requires ParcelsOk(parcels, sent, place) && BoxFits(a, box, sent, place) && box.slot.Some?
    ensures ParcelsOk(parcels, sent, Moved(place, box, a, box.slot.value.sub))
  {}

  lemma PassedRun(m: ResultMessage, a: NodeId, box: Mailbox.State, boxes: map<NodeId, Mailbox.State>,
                  sent: map<SubtaskId, Parcel>, place: map<SubtaskId, Place>, p: Place)
    requires RunFits(m, boxes, sent, place) && a in boxes && boxes[a] == box && box.slot.Some?
    requires if m.sub == box.slot.value.sub then p == Left(a) && PlaceOf(place, m.sub) == InSlot(a)
             else if box.queue != [] && m.sub == box.queue[0].sub then
               p == InSlot(a) && PlaceOf(place, m.sub) == Queued(a)
             else p == PlaceOf(place, m.sub) && p != InSlot(a)
    ensures p == Left(m.child) || (p == InSlot(m.child) && Reported(boxes[a := Passed(box)], m.child, m))
  {}

  lemma PassedBegun(e: (NodeId, SubtaskId), a: NodeId, box: Mailbox.State, boxes: map<NodeId, Mailbox.State>,
                    place: map<SubtaskId, Place>, p: Place)
    requires PlaceOf(place, e.1) == Left(e.0) || (PlaceOf(place, e.1) == InSlot(e.0) && Started(boxes, e.0))
    requires a in boxes && boxes[a] == box && box.slot.Some?
    requires if e.1 == box.slot.value.sub then p == Left(a) && PlaceOf(place, e.1) == InSlot(a)
             else if box.queue != [] && e.1 == box.queue[0].sub then p == InSlot(a) && PlaceOf(place, e.1) == Queued(a)
             else p == PlaceOf(place, e.1) && p != InSlot(a)
    ensures p == Left(e.0) || (p == InSlot(e.0) && Started(boxes[a := Passed(box)], e.0))
  {}

  lemma HandOverPlaces(st: State, a: NodeId)
    requires Inv(st) && HasRunner(st, a, 0)
    ensures var box := st.boxes[a];
            var boxes := st.boxes[a := Passed(box)];
            var place := Moved(st.h.place, box, a, box.slot.value.sub);
            BoxesOk(st.config, boxes) && PlacesOk(boxes, st.parcels, st.h.sent, place)
  {
    hide HomesOk, CallsOk, StatusOk, EarlyOk, AcksOk, ReportsOk, RunsOk, BegunOk, BoxFits, PlaceFits, ParcelsOk,
         PlaceOf, SentOk, Mailbox.Inv, Moved, Passed;
    TheRunner(st, a, 0);
    var box := st.boxes[a];
    HandOverPasses(box, a, st.config[a].capacity);
    var boxes := st.boxes[a := Passed(box)];
    var place := Moved(st.h.place, box, a, box.slot.value.sub);
    ParcelsMoved(st.parcels, a, box, st.h.sent, st.h.place);
    forall b | b in boxes ensures BoxFits(b, boxes[b], st.h.sent, place) {
      assert BoxFits(b, st.boxes[b], st.h.sent, st.h.place);
      if b == a { PassedBox(a, box, st.h.sent, st.h.place); }
      else { OtherBoxMoved(b, st.boxes[b], a, box, st.h.sent, st.h.place); }
    }
    forall t ensures PlaceFits(t, PlaceOf(place, t), boxes, st.parcels, st.h.sent) {
      assert PlaceFits(t, PlaceOf(st.h.place, t), st.boxes, st.parcels, st.h.sent);
      PassedPlace(a, box, st.boxes, st.parcels, st.h.sent, st.h.place, t);
    }
  }

  lemma MovedIn(st: State, a: NodeId, t: SubtaskId)
    requires Inv(st) && HasRunner(st, a, 0)
    ensures var box := st.boxes[a];
            var p := PlaceOf(Moved(st.h.place, box, a, box.slot.value.sub), t);
            box.slot.Some? &&
            if t == box.slot.value.sub then p == Left(a) && PlaceOf(st.h.place, t) == InSlot(a)
            else if box.queue != [] && t == box.queue[0].sub then p == InSlot(a) && PlaceOf(st.h.place, t) == Queued(a)
            else p == PlaceOf(st.h.place, t) && p != InSlot(a)
  {
    hide HomesOk, CallsOk, StatusOk, EarlyOk, AcksOk, ReportsOk, RunsOk, BegunOk, BoxFits, PlaceFits, ParcelsOk,
         PlaceOf, SentOk, Mailbox.Inv, Moved, AllBoxed, BoxesOk;
    TheRunner(st, a, 0);
    assert PlaceFits(t, PlaceOf(st.h.place, t), st.boxes, st.parcels, st.h.sent);
    MovedTo(a, st.boxes[a], st.boxes, st.parcels, st.h.sent, st.h.place, t);
  }

  lemma HandOverRuns(st: State, a: NodeId)
    requires Inv(st) && HasRunner(st, a, 0)
    ensures var box := st.boxes[a];
            var boxes := st.boxes[a := Passed(box)];
            var place := Moved(st.h.place, box, a, box.slot.value.sub);
            RunsOk(boxes, st.h.sent, place, st.h.runs) && BegunOk(boxes, st.h.sent, place, st.h.begun)
  {
    hide HomesOk, CallsOk, StatusOk, EarlyOk, AcksOk, ReportsOk, BoxFits, PlacesOk, PlaceOf, SentOk, Mailbox.Inv, Moved,
         BoxesOk, Reported, Started, RunFits;
    TheRunner(st, a, 0);
    var box := st.boxes[a];
    var boxes := st.boxes[a := Passed(box)];
    var place := Moved(st.h.place, box, a, box.slot.value.sub);
    forall i | 0 <= i < |st.h.runs| ensures RunFits(st.h.runs[i], boxes, st.h.sent, place) {
      var m := st.h.runs[i];
      MovedIn(st, a, m.sub);
      assert RunFits(m, st.boxes, st.h.sent, st.h.place);
      PassedRun(m, a, box, st.boxes, st.h.sent, st.h.place, PlaceOf(place, m.sub));
      RunFitsAt(m, st.boxes, boxes, st.h.sent, st.h.place, place);
    }
    forall i | 0 <= i < |st.h.begun|
      ensures PlaceOf(place, st.h.begun[i].1) == Left(st.h.begun[i].0)
              || (PlaceOf(place, st.h.begun[i].1) == InSlot(st.h.begun[i].0) && Started(boxes, st.h.begun[i].0))
    {
      var e := st.h.begun[i];
      MovedIn(st, a, e.1);
      PassedBegun(e, a, box, st.boxes, st.h.place, PlaceOf(place, e.1));
    }
    assert forall b :: b in boxes && |boxes[b].runners| == 1 && boxes[b].runners[0].Reporting? ==> b != a;
  }

  lemma RunFitsAt(m: ResultMessage, boxes: map<NodeId, Mailbox.State>, boxes': map<NodeId, Mailbox.State>,
                  sent: map<SubtaskId, Parcel>, place: map<SubtaskId, Place>, place': map<SubtaskId, Place>)
    requires RunFits(m, boxes, sent, place)
    requires PlaceOf(place', m.sub) == Left(m.child)
             || (PlaceOf(place', m.sub) == InSlot(m.child) && Reported(boxes', m.child, m))
    ensures RunFits(m, boxes', sent, place')
  {}

  lemma HandOverAcks(st: State, a: NodeId, exhausted: set<SubtaskId>)
    requires Inv(st) && HasRunner(st, a, 0) && st.h.exhausted <= exhausted
    requires st.boxes[a].slot.Some? ==> st.boxes[a].slot.value.sub in st.h.handled + exhausted
    ensures var box := st.boxes[a];
            var place := Moved(st.h.place, box, a, box.slot.value.sub);
            && AcksOk(st.acks, st.replies, st.h.sent, place, st.h.handled, exhausted)
            && StatusOk(st.stores, st.calls, st.h.home, st.h.sent, place, st.h.runs, st.h.handled, st.h.early)
  {
    hide HomesOk, CallsOk, StatusOk, EarlyOk, ReportsOk, SentOk, BoxesOk, PlacesOk, RunsOk, BegunOk, Moved, PlaceOf,
         Mailbox.Inv, BoxFits;
    TheRunner(st, a, 0);
    var box := st.boxes[a];
    var place := Moved(st.h.place, box, a, box.slot.value.sub);
    forall t ensures Taken(PlaceOf(st.h.place, t)) <==> Taken(PlaceOf(place, t))
             ensures PlaceOf(place, t).InNet? <==> PlaceOf(st.h.place, t).InNet?
             ensures PlaceOf(place, t).Left? ==> t in st.h.handled || t in exhausted
    {
      MovedIn(st, a, t);
    }
    StatusAfterMove(st, place);
  }

  lemma GiveUpKeepsInv(st: State, a: NodeId, i: nat)
    requires Inv(st) && CanEndAttempt(st, a, i) && Mailbox.LastAttempt(st.boxes[a].runners[i])
    ensures Inv(AttemptFails(st, a, i))
  {
    hide HomesOk, CallsOk, StatusOk, PlacesOk, BoxesOk, EarlyOk, AcksOk, SentOk, RunsOk, BegunOk, ReportsOk, PlaceOf,
         Moved, Mailbox.Inv, Mailbox.HandOver, BoxFits, Passed;
    TheRunner(st, a, i);
    var box := st.boxes[a];
    HandOverPasses(box, a, st.config[a].capacity);
    HandOverPlaces(st, a);
    HandOverRuns(st, a);
    HandOverAcks(st, a, st.h.exhausted + {box.slot.value.sub});
  }

  lemma AttemptDoneKeepsInv(st: State, a: NodeId, i: nat)
    requires Inv(st) && CanFinish(st, a, i)
    ensures Inv(AttemptDone(st, a, i))
  {
    hide HomesOk, CallsOk, StatusOk, PlacesOk, BoxesOk, EarlyOk, SentOk, RunsOk, BegunOk, ReportsOk, PlaceOf,
         Moved, Mailbox.Inv, Mailbox.HandOver, BoxFits, Passed;
    TheRunner(st, a, i);
    var box := st.boxes[a];
    HandOverPasses(box, a, st.config[a].capacity);
    HandOverPlaces(st, a);
    HandOverRuns(st, a);
    assert box.slot.value.sub in st.h.handled by {
      assert (box.slot.value.sub, box.runners[0].attempt) in st.acks;
    }
    HandOverAcks(st, a, st.h.exhausted);
  }

  // ----- results arrive

  lemma LoseReportKeepsInv(st: State, rp: Report)
    requires Inv(st)
    ensures Inv(LoseReport(st, rp))
  {
    hide HomesOk, CallsOk, StatusOk, PlacesOk, BoxesOk, EarlyOk, AcksOk, SentOk, RunsOk, BegunOk;
  }

  lemma ReportFacts(st: State, rp: Report)
    requires Inv(st) && CanReport(st, rp)
    ensures var s := rp.msg.sub;
            && rp.msg in st.h.runs && s in st.h.sent && s in st.h.home
            && rp.to == st.h.home[s].agent && rp.msg.job == st.h.home[s].job
            && rp.msg.child == st.h.sent[s].to && rp.msg.status.Terminal()
  {
    hide HomesOk, CallsOk, StatusOk, PlacesOk, BoxesOk, EarlyOk, AcksOk, BegunOk, PlaceOf, Reported;
    var k :| 0 <= k < |st.h.runs| && st.h.runs[k] == rp.msg;
    assert RunFits(st.h.runs[k], st.boxes, st.h.sent, st.h.place);
  }

  lemma AcceptFits(r: SubtaskRecord, s: SubtaskId, m: ResultMessage, call: Call, sent: map<SubtaskId, Parcel>, p: Place,
                   runs: seq<ResultMessage>, early: bool)
    requires m in runs && m.sub == s && m.status.Terminal() && s in sent && m.child == sent[s].to
    ensures Fits(Amend(r, Accept(m)), s, call, sent, p, runs, true, early)
  {}

  lemma DeliverReportStatus(st: State, rp: Report, early: set<SubtaskId>)
    requires Inv(st) && CanReport(st, rp)
    requires forall t :: t != rp.msg.sub ==> (t in early <==> t in st.h.early)
    ensures StatusOk(Write(st.stores, rp.to, rp.msg.job, rp.msg.sub, Accept(rp.msg)), st.calls, st.h.home, st.h.sent,
                     st.h.place, st.h.runs, st.h.handled + {rp.msg.sub}, early)
  {
    hide HomesOk, CallsOk, PlacesOk, BoxesOk, EarlyOk, AcksOk, BegunOk, RunsOk, ReportsOk, PlaceOf, Write, Rec, Fits,
         SentOk, Amend;
    ReportFacts(st, rp);
    var m, s := rp.msg, rp.msg.sub;
    RecAfterWrite(st.stores, st.h.home, s, Accept(m));
    var r := Rec(st.stores, st.h.home, s).value;
    AcceptFits(r, s, m, st.calls[st.h.home[s].call], st.h.sent, PlaceOf(st.h.place, s), st.h.runs, s in early);
    StatusFromFits(st.stores, Write(st.stores, rp.to, m.job, s, Accept(m)), st.calls, st.h.home, st.h.sent, st.h.place,
                   st.h.runs, st.h.handled + {s}, early, s, Amend(r, Accept(m)));
  }

  lemma EarlyAfterReport(calls: seq<Call>, handled: set<SubtaskId>, early: set<SubtaskId>, s: SubtaskId)
    requires EarlyOk(calls, handled, early)
    ensures EarlyOk(calls, handled + {s}, if Awaited(calls, s) then early + {s} else early)
  {
    forall c | 0 <= c < |calls| && calls[c].pc.Awaiting? && calls[c].pc.sub in handled + {s}
      ensures calls[c].pc.sub in if Awaited(calls, s) then early + {s} else early
    {
      if calls[c].pc.sub == s { assert calls[c].pc == Awaiting(s); }
    }
  }

  lemma DeliverReportKeepsInv(st: State, rp: Report)
    requires Inv(st) && CanReport(st, rp)
    ensures Inv(DeliverReport(st, rp))
  {
    hide HomesOk, CallsOk, PlacesOk, BoxesOk, EarlyOk, BegunOk, RunsOk, PlaceOf, Write, RecordAt, Fits, SentOk, Awaited;
    ReportFacts(st, rp);
    var m, s := rp.msg, rp.msg.sub;
    assert RecordAt(st.stores, rp.to, m.job, s).Some?;
    WriteKeepsHomes(st.stores, st.calls, st.h.home, s, Accept(m));
    DeliverReportStatus(st, rp, if Awaited(st.calls, s) then st.h.early + {s} else st.h.early);
    EarlyAfterReport(st.calls, st.h.handled, st.h.early, s);
    hide StatusOk;
  }
}
