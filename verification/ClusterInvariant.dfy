/** The inductive invariant of the protocol. Each part speaks only of the components
    it names, so a step that leaves those alone keeps that part for free. */
module ClusterInvariant {
  import opened Models
  import opened Jobs
  import opened Cluster
  import Mailbox

  /** The record of a subtask at the agent that created it. */
  function Rec(stores: map<NodeId, Store>, home: map<SubtaskId, Home>, s: SubtaskId): Option<SubtaskRecord> {
    if s in home then RecordAt(stores, home[s].agent, home[s].job, s) else None
  }

  /** Records live exactly where they were created, and each job in one store. */
  ghost predicate HomesOk(stores: map<NodeId, Store>, calls: seq<Call>, home: map<SubtaskId, Home>) {
    && (forall a, j, s :: RecordAt(stores, a, j, s).Some? ==> s in home && home[s].agent == a && home[s].job == j)
    && (forall s :: s in home ==> Rec(stores, home, s).Some?)
    && (forall s :: s in home ==> home[s].call < |calls| && calls[home[s].call].parent == home[s].agent
                                  && calls[home[s].call].job == home[s].job)
    && (forall a, j :: a in stores && j in stores[a] ==> stores[a][j].parent == a)
    && (forall a, b, j :: a in stores && b in stores && j in stores[a] && j in stores[b] ==> a == b)
    && (forall c :: 0 <= c < |calls| ==> calls[c].parent in stores && calls[c].job in stores[calls[c].parent])
  }

  /** What a call still has to dispatch is its own and has not been sent. */
  ghost predicate CallFits(call: Call, c: nat, home: map<SubtaskId, Home>, sent: map<SubtaskId, Parcel>) {
    && (call.pc.Planning? || call.pc.Local? || call.pc.Returned? ==> call.todo == [])
    && (forall x :: 0 <= x < |call.todo| && call.todo[x].Existing? ==>
          var s := call.todo[x].sub;
          s in home && home[s].call == c && s !in sent && call.pc != Looking(s) && call.pc != Awaiting(s))
    && (forall x, y :: 0 <= x < y < |call.todo| && call.todo[x].Existing? ==> call.todo[x] != call.todo[y])
    && (call.pc.Looking? ==> call.pc.sub in home && home[call.pc.sub].call == c && call.pc.sub !in sent)
    && (call.pc.Awaiting? ==> call.pc.sub in home && home[call.pc.sub].call == c && call.pc.sub in sent)
  }

  ghost predicate CallsOk(calls: seq<Call>, home: map<SubtaskId, Home>, sent: map<SubtaskId, Parcel>) {
    forall c :: 0 <= c < |calls| ==> CallFits(calls[c], c, home, sent)
  }

  /** A sent message names its subtask's home as parent and goes to another agent. */
  ghost predicate SentOk(home: map<SubtaskId, Home>, sent: map<SubtaskId, Parcel>) {
    forall s :: s in sent ==>
      && s in home && sent[s].msg.sub == s && sent[s].msg.job == home[s].job
      && sent[s].msg.parent == home[s].agent && sent[s].to != home[s].agent
  }

  ghost predicate BoxesOk(config: map<NodeId, Config>, boxes: map<NodeId, Mailbox.State>) {
    forall a :: a in boxes ==> a in config && Mailbox.Inv(boxes[a], a, config[a].capacity)
  }

  /** The mailbox of agent a holds what was sent to it, at the recorded places. */
  ghost predicate BoxFits(a: NodeId, box: Mailbox.State, sent: map<SubtaskId, Parcel>, place: map<SubtaskId, Place>) {
    && (box.slot.Some? ==>
          var s := box.slot.value.sub;
          s in sent && sent[s].to == a && box.slot.value == Mailbox.ChildFromAssign(sent[s].msg)
          && PlaceOf(place, s) == InSlot(a))
    && (forall i :: 0 <= i < |box.queue| ==>
          var s := box.queue[i].sub;
          s in sent && sent[s] == Parcel(a, box.queue[i]) && PlaceOf(place, s) == Queued(a))
    && (forall i, k :: 0 <= i < k < |box.queue| ==> box.queue[i].sub != box.queue[k].sub)
  }

  predicate InQueue(box: Mailbox.State, s: SubtaskId) {
    exists i :: 0 <= i < |box.queue| && box.queue[i].sub == s
  }

  /** A place is where the message or its work really is. */
  ghost predicate PlaceFits(s: SubtaskId, p: Place, boxes: map<NodeId, Mailbox.State>, parcels: multiset<Parcel>,
                            sent: map<SubtaskId, Parcel>) {
    && (p.Unsent? <==> s !in sent)
    && (p.InNet? ==> sent[s] in parcels)
    && (p.Queued? ==> p.at == sent[s].to && p.at in boxes && InQueue(boxes[p.at], s))
    && (p.InSlot? ==> p.at == sent[s].to && p.at in boxes && boxes[p.at].slot.Some? && boxes[p.at].slot.value.sub == s)
    && (p.Left? ==> p.at == sent[s].to)
  }

  ghost predicate ParcelsOk(parcels: multiset<Parcel>, sent: map<SubtaskId, Parcel>, place: map<SubtaskId, Place>) {
    forall pk :: pk in parcels ==>
      parcels[pk] == 1 && pk.msg.sub in sent && sent[pk.msg.sub] == pk && PlaceOf(place, pk.msg.sub) == InNet
  }

  ghost predicate AllBoxed(boxes: map<NodeId, Mailbox.State>, sent: map<SubtaskId, Parcel>, place: map<SubtaskId,
                           Place>) {
    forall a {:trigger BoxFits(a, boxes[a], sent, place)} :: a in boxes ==> BoxFits(a, boxes[a], sent, place)
  }

  ghost predicate AllPlaced(boxes: map<NodeId, Mailbox.State>, parcels: multiset<Parcel>, sent: map<SubtaskId, Parcel>,
                            place: map<SubtaskId, Place>) {
    forall s {:trigger PlaceFits(s, PlaceOf(place, s), boxes, parcels, sent)} ::
      PlaceFits(s, PlaceOf(place, s), boxes, parcels, sent)
  }

  ghost predicate PlacesOk(boxes: map<NodeId, Mailbox.State>, parcels: multiset<Parcel>, sent: map<SubtaskId, Parcel>,
                           place: map<SubtaskId, Place>) {
    AllBoxed(boxes, sent, place) && AllPlaced(boxes, parcels, sent, place) && ParcelsOk(parcels, sent, place)
  }

  predicate Reported(boxes: map<NodeId, Mailbox.State>, a: NodeId, m: ResultMessage) {
    a in boxes && |boxes[a].runners| == 1 && boxes[a].runners[0].Reporting? && boxes[a].runners[0].result == m
  }

  predicate Started(boxes: map<NodeId, Mailbox.State>, a: NodeId) {
    a in boxes && |boxes[a].runners| == 1 && !boxes[a].runners[0].Spawned?
  }

  /** A finished run belongs to a subtask that was sent to that agent, and to no
      other run; its runner is still reporting it or has handed over. */
  ghost predicate RunFits(m: ResultMessage, boxes: map<NodeId, Mailbox.State>, sent: map<SubtaskId, Parcel>,
                          place: map<SubtaskId, Place>) {
    && m.sub in sent && m.child == sent[m.sub].to && m.job == sent[m.sub].msg.job && m.status.Terminal()
    && (PlaceOf(place, m.sub) == Left(m.child)
        || (PlaceOf(place, m.sub) == InSlot(m.child) && Reported(boxes, m.child, m)))
  }

  ghost predicate RunsOk(boxes: map<NodeId, Mailbox.State>, sent: map<SubtaskId, Parcel>, place: map<SubtaskId, Place>,
                         runs: seq<ResultMessage>) {
    && (forall i :: 0 <= i < |runs| ==> RunFits(runs[i], boxes, sent, place))
    && (forall i, k :: 0 <= i < k < |runs| ==> runs[i].sub != runs[k].sub)
    && (forall a :: a in boxes && |boxes[a].runners| == 1 && boxes[a].runners[0].Reporting? ==>
          boxes[a].runners[0].result in runs)
  }

  ghost predicate BegunOk(boxes: map<NodeId, Mailbox.State>, sent: map<SubtaskId, Parcel>, place: map<SubtaskId, Place>,
                          begun: seq<(NodeId, SubtaskId)>) {
    && (forall i :: 0 <= i < |begun| ==>
          begun[i].1 in sent && sent[begun[i].1].to == begun[i].0
          && (PlaceOf(place, begun[i].1) == Left(begun[i].0)
              || (PlaceOf(place, begun[i].1) == InSlot(begun[i].0) && Started(boxes, begun[i].0))))
    && (forall i, k :: 0 <= i < k < |begun| ==> begun[i].1 != begun[k].1)
  }

  ghost predicate ReportsOk(reports: multiset<Report>, sent: map<SubtaskId, Parcel>, runs: seq<ResultMessage>) {
    forall rp :: rp in reports ==>
      rp.msg in runs && rp.msg.sub in sent && rp.to == sent[rp.msg.sub].msg.parent
  }

  predicate Taken(p: Place) {
    p.Queued? || p.InSlot? || p.Left?
  }

  ghost predicate AcksOk(acks: set<(SubtaskId, nat)>, replies: map<SubtaskId, bool>, sent: map<SubtaskId, Parcel>,
                         place: map<SubtaskId, Place>, handled: set<SubtaskId>, exhausted: set<SubtaskId>) {
    && (forall x :: x in acks ==> x.0 in handled)
    && (forall s :: s in handled ==> s in sent)
    && (forall s :: PlaceOf(place, s).Left? ==> s in handled || s in exhausted)
    && (forall s :: s in replies ==> s in sent && (replies[s] <==> Taken(PlaceOf(place, s)))
                                     && !PlaceOf(place, s).InNet?)
  }

  ghost predicate EarlyOk(calls: seq<Call>, handled: set<SubtaskId>, early: set<SubtaskId>) {
    && early <= handled
    && (forall c :: 0 <= c < |calls| && calls[c].pc.Awaiting? && calls[c].pc.sub in handled ==>
          calls[c].pc.sub in early)
  }

  /** A run of this subtask completed with what the record says. */
  ghost predicate Vouched(r: SubtaskRecord, s: SubtaskId, runs: seq<ResultMessage>) {
    exists m :: m in runs && m.sub == s && m.status.Completed? && r.assignee == Some(m.child)
                && r.result == m.result && r.artifactIds == m.artifactIds
  }

  /** What a record's status says about its call, its message and its results. */
  ghost predicate Fits(r: SubtaskRecord, s: SubtaskId, call: Call, sent: map<SubtaskId, Parcel>, p: Place,
                       runs: seq<ResultMessage>, handled: bool, early: bool) {
    && (r.status.PendingTask? ==> s !in sent && (call.pc.Aborted? || Existing(s) in call.todo || call.pc == Looking(s)))
    && (r.status.Assigned? ==> s in sent && call.pc == Awaiting(s) && !handled)
    && (call.pc == Awaiting(s) ==> if handled then r.status.Terminal() else r.status.Assigned?)
    && (r.status.Running? ==> s in sent && (early || (!handled && Taken(p))))
    && (r.status.Completed? ==> Vouched(r, s, runs))
    && (s in sent ==> r.assignee == Some(sent[s].to))
  }

  ghost predicate StatusOk(stores: map<NodeId, Store>, calls: seq<Call>, home: map<SubtaskId, Home>,
                           sent: map<SubtaskId, Parcel>, place: map<SubtaskId, Place>, runs: seq<ResultMessage>,
                           handled: set<SubtaskId>, early: set<SubtaskId>) {
    forall s :: s in home ==>
      && home[s].call < |calls|
      && Rec(stores, home, s).Some?
      && Fits(Rec(stores, home, s).value, s, calls[home[s].call], sent, PlaceOf(place, s),
              runs, s in handled, s in early)
  }

  ghost predicate Inv(st: State) {
    && st.stores.Keys == st.config.Keys && st.boxes.Keys == st.config.Keys
    && HomesOk(st.stores, st.calls, st.h.home)
    && CallsOk(st.calls, st.h.home, st.h.sent)
    && SentOk(st.h.home, st.h.sent)
    && BoxesOk(st.config, st.boxes)
    && PlacesOk(st.boxes, st.parcels, st.h.sent, st.h.place)
    && RunsOk(st.boxes, st.h.sent, st.h.place, st.h.runs)
    && BegunOk(st.boxes, st.h.sent, st.h.place, st.h.begun)
    && ReportsOk(st.reports, st.h.sent, st.h.runs)
    && AcksOk(st.acks, st.replies, st.h.sent, st.h.place, st.h.handled, st.h.exhausted)
    && EarlyOk(st.calls, st.h.handled, st.h.early)
    && StatusOk(st.stores, st.calls, st.h.home, st.h.sent, st.h.place, st.h.runs, st.h.handled, st.h.early)
  }

  lemma InitialInv(st: State)
    requires Initial(st)
    ensures Inv(st)
  {}

  // ----- writes to a record

  /** A write changes the one record it names. */
  lemma WriteEffect(stores: map<NodeId, Store>, a: NodeId, j: JobId, s: SubtaskId, c: Change)
    requires RecordAt(stores, a, j, s).Some?
    ensures var next := Write(stores, a, j, s, c);
            && next.Keys == stores.Keys
            && (forall b :: b in stores ==> next[b].Keys == stores[b].Keys)
            && (forall b, k :: b in stores && k in stores[b] ==> next[b][k].parent == stores[b][k].parent)
    ensures forall b, k, t :: RecordAt(Write(stores, a, j, s, c), b, k, t) ==
              if b == a && k == j && t == s then Some(Amend(RecordAt(stores, a, j, s).value, c))
              else RecordAt(stores, b, k, t)
  {
    hide RollUp, Find, Amend;
    LookupUpdated(stores[a], j, s, c);
  }

  lemma HomesAfterWrite(stores: map<NodeId, Store>, next: map<NodeId, Store>, calls: seq<Call>, home: map<SubtaskId,
                        Home>)
    requires HomesOk(stores, calls, home) && next.Keys == stores.Keys
    requires forall b :: b in stores ==> next[b].Keys == stores[b].Keys
    requires forall b, k :: b in stores && k in stores[b] ==> next[b][k].parent == stores[b][k].parent
    requires forall b, k, t :: RecordAt(next, b, k, t).Some? <==> RecordAt(stores, b, k, t).Some?
    ensures HomesOk(next, calls, home)
  {
    hide RecordAt;
  }

  /** Calls that keep their parents and jobs keep the homes. */
  lemma HomesSameCalls(stores: map<NodeId, Store>, calls: seq<Call>, calls': seq<Call>, home: map<SubtaskId, Home>)
    requires HomesOk(stores, calls, home) && |calls'| >= |calls|
    requires forall c :: 0 <= c < |calls| ==> calls'[c].parent == calls[c].parent && calls'[c].job == calls[c].job
    requires forall c :: |calls| <= c < |calls'| ==>
              calls'[c].parent in stores && calls'[c].job in stores[calls'[c].parent]
    ensures HomesOk(stores, calls', home)
  {
    hide RecordAt;
  }
}
