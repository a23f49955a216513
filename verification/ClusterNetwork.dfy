/** Delivery and loss of assign messages keep the invariant. */
module ClusterNetwork {
  import opened Models
  import opened Cluster
  import opened ClusterInvariant
  import Mailbox

  /** Statuses do not depend on places beyond whether the work was taken. */
  lemma StatusAfterMove(st: State, place: map<SubtaskId, Place>)
    requires Inv(st) && forall t :: Taken(PlaceOf(st.h.place, t)) ==> Taken(PlaceOf(place, t))
    ensures StatusOk(st.stores, st.calls, st.h.home, st.h.sent, place, st.h.runs, st.h.handled, st.h.early)
  {
    hide Rec, HomesOk, CallsOk, PlacesOk, RunsOk, BegunOk, AcksOk, Vouched, Taken, PlaceOf;
  }

  lemma ParcelFacts(st: State, pk: Parcel)
    requires Inv(st) && pk in st.parcels
    ensures var s := pk.msg.sub;
            s in st.h.sent && st.h.sent[s] == pk && PlaceOf(st.h.place, s) == InNet && st.parcels[pk] == 1
            && pk.msg.parent != pk.to
  {
    hide HomesOk, CallsOk, StatusOk, RunsOk, BegunOk, AcksOk, AllPlaced, AllBoxed, PlaceOf;
  }

  /** One parcel leaves the network. */
  lemma ParcelLeaves(parcels: multiset<Parcel>, sent: map<SubtaskId, Parcel>, place: map<SubtaskId, Place>,
                     pk: Parcel, p: Place)
    requires ParcelsOk(parcels, sent, place) && pk in parcels
    ensures ParcelsOk(parcels - multiset{pk}, sent, place[pk.msg.sub := p])
  {}

  /** A mailbox that the parcel does not enter. */
  lemma OtherBox(a: NodeId, box: Mailbox.State, sent: map<SubtaskId, Parcel>, place: map<SubtaskId, Place>,
                 s: SubtaskId, p: Place)
    requires BoxFits(a, box, sent, place) && PlaceOf(place, s) == InNet
    ensures BoxFits(a, box, sent, place[s := p])
  {}

  lemma OtherPlace(t: SubtaskId, s: SubtaskId, place: map<SubtaskId, Place>, p: Place, boxes: map<NodeId,
                   Mailbox.State>,
                   parcels: multiset<Parcel>, sent: map<SubtaskId, Parcel>, pk: Parcel)
    requires PlaceFits(t, PlaceOf(place, t), boxes, parcels, sent)
    requires t in sent ==> sent[t].msg.sub == t
    requires s in sent && sent[s] == pk && pk.msg.sub == s && p.Dropped?
    ensures PlaceFits(t, PlaceOf(place[s := p], t), boxes, parcels - multiset{pk}, sent)
  {
    hide InQueue;
  }

  lemma OthersRuns(boxes: map<NodeId, Mailbox.State>, sent: map<SubtaskId, Parcel>, place: map<SubtaskId, Place>,
                   runs: seq<ResultMessage>, begun: seq<(NodeId, SubtaskId)>, s: SubtaskId, p: Place)
    requires RunsOk(boxes, sent, place, runs) && BegunOk(boxes, sent, place, begun) && PlaceOf(place, s) == InNet
    ensures RunsOk(boxes, sent, place[s := p], runs) && BegunOk(boxes, sent, place[s := p], begun)
  {
    hide Reported, Started;
  }

  /** A message that is lost or refused reaches no mailbox. */
  lemma DropPlaces(st: State, pk: Parcel)
    requires Inv(st) && pk in st.parcels
    ensures var place := st.h.place[pk.msg.sub := Dropped];
            && PlacesOk(st.boxes, st.parcels - multiset{pk}, st.h.sent, place)
            && RunsOk(st.boxes, st.h.sent, place, st.h.runs)
            && BegunOk(st.boxes, st.h.sent, place, st.h.begun)
  {
    hide HomesOk, CallsOk, StatusOk, BoxesOk, AcksOk, EarlyOk, ReportsOk, RunsOk, BegunOk, BoxFits, PlaceFits,
         ParcelsOk, PlaceOf;
    var s := pk.msg.sub;
    ParcelFacts(st, pk);
    ParcelLeaves(st.parcels, st.h.sent, st.h.place, pk, Dropped);
    OthersRuns(st.boxes, st.h.sent, st.h.place, st.h.runs, st.h.begun, s, Dropped);
    var place := st.h.place[s := Dropped];
    forall a | a in st.boxes ensures BoxFits(a, st.boxes[a], st.h.sent, place) {
      assert BoxFits(a, st.boxes[a], st.h.sent, st.h.place);
      OtherBox(a, st.boxes[a], st.h.sent, st.h.place, s, Dropped);
    }
    forall t ensures PlaceFits(t, PlaceOf(place, t), st.boxes, st.parcels - multiset{pk}, st.h.sent) {
      assert PlaceFits(t, PlaceOf(st.h.place, t), st.boxes, st.parcels, st.h.sent);
      OtherPlace(t, s, st.h.place, Dropped, st.boxes, st.parcels, st.h.sent, pk);
    }
  }

  lemma DropAcks(acks: set<(SubtaskId, nat)>, replies: map<SubtaskId, bool>, sent: map<SubtaskId, Parcel>,
                 place: map<SubtaskId, Place>, handled: set<SubtaskId>, exhausted: set<SubtaskId>, s: SubtaskId)
    requires AcksOk(acks, replies, sent, place, handled, exhausted) && PlaceOf(place, s) == InNet && s in sent
    ensures AcksOk(acks, replies, sent, place[s := Dropped], handled, exhausted)
    ensures AcksOk(acks, replies[s := false], sent, place[s := Dropped], handled, exhausted)
  {}

  lemma LoseKeepsInv(st: State, pk: Parcel)
    requires Inv(st) && pk in st.parcels
    ensures Inv(Lose(st, pk))
  {
    hide HomesOk, CallsOk, StatusOk, PlacesOk, BoxesOk, EarlyOk, RunsOk, BegunOk, ReportsOk, AcksOk, SentOk;
    ParcelFacts(st, pk);
    DropPlaces(st, pk);
    DropAcks(st.acks, st.replies, st.h.sent, st.h.place, st.h.handled, st.h.exhausted, pk.msg.sub);
    StatusAfterMove(st, st.h.place[pk.msg.sub := Dropped]);
  }

  // ----- the message is accepted

  function Entered(box: Mailbox.State, a: NodeId): Place {
    if box.slot.None? then InSlot(a) else Queued(a)
  }

  lemma EnteredBox(a: NodeId, box: Mailbox.State, next: Mailbox.State, capacity: nat, m: AssignMessage,
                   sent: map<SubtaskId, Parcel>, place: map<SubtaskId, Place>)
    requires BoxFits(a, box, sent, place) && Mailbox.Inv(box, a, capacity)
    requires m.sub in sent && sent[m.sub] == Parcel(a, m) && PlaceOf(place, m.sub) == InNet
    requires Mailbox.Accept(box, a, capacity, m) == Ok(next)
    ensures BoxFits(a, next, sent, place[m.sub := Entered(box, a)]) && Mailbox.Inv(next, a, capacity)
  {}

  lemma EnteredPlace(t: SubtaskId, a: NodeId, box: Mailbox.State, next: Mailbox.State, capacity: nat, m: AssignMessage,
                     boxes: map<NodeId, Mailbox.State>, parcels: multiset<Parcel>, sent: map<SubtaskId, Parcel>,
                     place: map<SubtaskId, Place>)
    requires PlaceFits(t, PlaceOf(place, t), boxes, parcels, sent)
    requires a in boxes && boxes[a] == box && Mailbox.Inv(box, a, capacity)
    requires m.sub in sent && sent[m.sub] == Parcel(a, m) && (t in sent ==> sent[t].msg.sub == t)
    requires Mailbox.Accept(box, a, capacity, m) == Ok(next)
    ensures PlaceFits(t, PlaceOf(place[m.sub := Entered(box, a)], t), boxes[a := next],
                      parcels - multiset{Parcel(a, m)}, sent)
  {
    if box.slot.Some? {
      assert next.queue[|box.queue|] == m;
      if InQueue(box, t) {
        var i :| 0 <= i < |box.queue| && box.queue[i].sub == t;
        assert next.queue[i].sub == t;
      }
    }
  }

  lemma EnteredRuns(boxes: map<NodeId, Mailbox.State>, a: NodeId, next: Mailbox.State, capacity: nat, m: AssignMessage,
                    sent: map<SubtaskId, Parcel>, place: map<SubtaskId, Place>, runs: seq<ResultMessage>,
                    begun: seq<(NodeId, SubtaskId)>)
    requires RunsOk(boxes, sent, place, runs) && BegunOk(boxes, sent, place, begun)
    requires a in boxes && Mailbox.Inv(boxes[a], a, capacity) && Mailbox.Accept(boxes[a], a, capacity, m) == Ok(next)
    ensures RunsOk(boxes[a := next], sent, place, runs) && BegunOk(boxes[a := next], sent, place, begun)
  {
    hide PlaceOf;
    var box := boxes[a];
    assert box.slot.None? ==> box.runners == [] && next.runners == [Mailbox.Spawned];
    assert box.slot.Some? ==> next.runners == box.runners;
    hide Mailbox.Inv, Mailbox.Accept;
  }

  lemma EnterPlaces(st: State, pk: Parcel, next: Mailbox.State)
    requires Inv(st) && CanDeliver(st, pk)
    requires Mailbox.Accept(st.boxes[pk.to], pk.to, st.config[pk.to].capacity, pk.msg) == Ok(next)
    ensures var place, boxes := st.h.place[pk.msg.sub := Entered(st.boxes[pk.to], pk.to)], st.boxes[pk.to := next];
            && BoxesOk(st.config, boxes)
            && PlacesOk(boxes, st.parcels - multiset{pk}, st.h.sent, place)
            && RunsOk(boxes, st.h.sent, place, st.h.runs)
            && BegunOk(boxes, st.h.sent, place, st.h.begun)
  {
    hide HomesOk, CallsOk, StatusOk, AcksOk, EarlyOk, ReportsOk, RunsOk, BegunOk, BoxFits, PlaceFits, ParcelsOk,
         PlaceOf, Entered, Mailbox.Inv, Mailbox.Accept;
    var a, box, s := pk.to, st.boxes[pk.to], pk.msg.sub;
    var p := Entered(box, a);
    var place, boxes := st.h.place[s := p], st.boxes[a := next];
    ParcelFacts(st, pk);
    assert pk == Parcel(a, pk.msg);
    ParcelLeaves(st.parcels, st.h.sent, st.h.place, pk, p);
    assert BoxFits(a, box, st.h.sent, st.h.place);
    EnteredBox(a, box, next, st.config[a].capacity, pk.msg, st.h.sent, st.h.place);
    OthersRuns(st.boxes, st.h.sent, st.h.place, st.h.runs, st.h.begun, s, p);
    EnteredRuns(st.boxes, a, next, st.config[a].capacity, pk.msg, st.h.sent, place, st.h.runs, st.h.begun);
    forall b | b in boxes ensures BoxFits(b, boxes[b], st.h.sent, place) {
      if b != a {
        assert BoxFits(b, st.boxes[b], st.h.sent, st.h.place);
        OtherBox(b, st.boxes[b], st.h.sent, st.h.place, s, p);
      }
    }
    forall t ensures PlaceFits(t, PlaceOf(place, t), boxes, st.parcels - multiset{pk}, st.h.sent) {
      assert PlaceFits(t, PlaceOf(st.h.place, t), st.boxes, st.parcels, st.h.sent);
      EnteredPlace(t, a, box, next, st.config[a].capacity, pk.msg, st.boxes, st.parcels, st.h.sent, st.h.place);
    }
  }

  lemma EnterAcks(acks: set<(SubtaskId, nat)>, replies: map<SubtaskId, bool>, sent: map<SubtaskId, Parcel>,
                  place: map<SubtaskId, Place>, handled: set<SubtaskId>, exhausted: set<SubtaskId>, s: SubtaskId,
                  box: Mailbox.State, a: NodeId)
    requires AcksOk(acks, replies, sent, place, handled, exhausted) && PlaceOf(place, s) == InNet && s in sent
    ensures AcksOk(acks, replies[s := true], sent, place[s := Entered(box, a)], handled, exhausted)
  {}

  lemma DeliverKeepsInv(st: State, pk: Parcel)
    requires Inv(st) && CanDeliver(st, pk)
    ensures Inv(Deliver(st, pk))
  {
    hide HomesOk, CallsOk, StatusOk, PlacesOk, BoxesOk, EarlyOk, RunsOk, BegunOk, ReportsOk, AcksOk, SentOk,
         Mailbox.Accept;
    ParcelFacts(st, pk);
    var s, box := pk.msg.sub, st.boxes[pk.to];
    match Mailbox.Accept(box, pk.to, st.config[pk.to].capacity, pk.msg) {
      case Ok(next) =>
        EnterPlaces(st, pk, next);
        EnterAcks(st.acks, st.replies, st.h.sent, st.h.place, st.h.handled, st.h.exhausted, s, box, pk.to);
        StatusAfterMove(st, st.h.place[s := Entered(box, pk.to)]);
      case Err(_) =>
        DropPlaces(st, pk);
        DropAcks(st.acks, st.replies, st.h.sent, st.h.place, st.h.handled, st.h.exhausted, s);
        StatusAfterMove(st, st.h.place[s := Dropped]);
    }
  }
}
