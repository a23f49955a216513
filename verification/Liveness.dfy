/** Expiry compares timestamp texts; these lemmas say what that means in time, and
    what a catalog answer can and cannot hold. */
module Liveness {
  import opened Models
  import opened Timestamps
  import opened Manager
  import Catalog
  import Text

  /** The instant a row was last heard of. */
  function LastSeen(row: NodeRecord): Option<Instant> {
    ParseIso(row.lastSeen)
  }

  /** Expiry marks OFFLINE exactly the rows older than the timeout, and changes
      nothing else in any row. */
  lemma ExpiryIsByTime(st: State, now: Instant, timeout: nat, id: NodeId)
    requires WellFormed(st) && ClockOk(now, timeout) && id in st.nodes
    ensures LastSeen(st.nodes[id]).Some? && Valid(LastSeen(st.nodes[id]).value)
    ensures var row, after := st.nodes[id], Expire(st, now, timeout).nodes[id];
            after == if Micros(LastSeen(row).value) < Micros(now) - timeout then row.(status := Offline) else row
  {
    hide ParseIso, Iso, Cutoff, Text.Less, Micros, ClockOk, Valid;
    var row := st.nodes[id];
    var t :| Valid(t) && row.lastSeen == Iso(t);
    ParseUndoesPrint(t);
    CutoffIsByTime(t, now, timeout);
  }

  lemma CutoffIsByTime(t: Instant, now: Instant, timeout: nat)
    requires Valid(t) && ClockOk(now, timeout)
    ensures Text.Less(Iso(t), Cutoff(now, timeout)) <==> Micros(t) < Micros(now) - timeout
  {
    hide Iso, Text.Less, Micros, FromMicros;
    TextOrderIsTimeOrder(t, FromMicros(Micros(now) - timeout));
  }

  /** Every row that is not OFFLINE was heard of at or after the given time. */
  ghost predicate FreshSince(st: State, time: int) {
    forall id :: id in st.nodes && !st.nodes[id].status.Offline? ==>
      LastSeen(st.nodes[id]).Some? && Valid(LastSeen(st.nodes[id]).value)
      && Micros(LastSeen(st.nodes[id]).value) >= time
  }

  /** A step that stamps a row does so with a reading not before the given time; it reads
      the clock under the lock. An expiry reads it before and may come with an older one. */
  predicate NotBefore(s: Step, time: int) {
    match s
    case RegisterStep(_, _, now) => Valid(now) && Micros(now) >= time
    case HeartbeatStep(_, _, now) => Valid(now) && Micros(now) >= time
    case _ => true
  }

  lemma ExpiryMakesFresh(st: State, now: Instant, timeout: nat)
    requires WellFormed(st) && ClockOk(now, timeout)
    ensures FreshSince(Expire(st, now, timeout), Micros(now) - timeout)
  {
    hide ParseIso, Iso, Micros, Expire;
    forall id | id in st.nodes ensures id in Expire(st, now, timeout).nodes {
      ExpireKeepsKeys(st, now, timeout);
    }
    ExpireKeepsKeys(st, now, timeout);
    forall id | id in Expire(st, now, timeout).nodes && !Expire(st, now, timeout).nodes[id].status.Offline?
      ensures LastSeen(Expire(st, now, timeout).nodes[id]).Some?
      ensures Valid(LastSeen(Expire(st, now, timeout).nodes[id]).value)
      ensures Micros(LastSeen(Expire(st, now, timeout).nodes[id]).value) >= Micros(now) - timeout
    {
      ExpiryIsByTime(st, now, timeout, id);
    }
  }

  lemma ExpireKeepsKeys(st: State, now: Instant, timeout: nat)
    requires ClockOk(now, timeout)
    ensures Expire(st, now, timeout).nodes.Keys == st.nodes.Keys
  {}

  lemma StepKeepsFresh(st: State, s: Step, timeout: nat, time: int)
    requires StepOk(s, timeout) && FreshSince(st, time) && NotBefore(s, time)
    ensures FreshSince(Apply(st, s, timeout), time)
  {
    hide ParseIso, Iso, Micros, Cutoff, Text.Less;
    match s
    case RegisterStep(req, id, now) => ParseUndoesPrint(now);
    case HeartbeatStep(id, beat, now) => ParseUndoesPrint(now);
    case _ =>
  }

  lemma {:induction false} StepsKeepFresh(st: State, steps: seq<Step>, timeout: nat, time: int)
    requires StepsOk(steps, timeout) && FreshSince(st, time)
    requires forall i :: 0 <= i < |steps| ==> NotBefore(steps[i], time)
    ensures FreshSince(Run(st, steps, timeout), time)
  {
    hide FreshSince, NotBefore, Apply;
    if steps != [] {
      var front := steps[..|steps| - 1];
      assert StepsOk(front, timeout);
      assert forall i :: 0 <= i < |front| ==> front[i] == steps[i];
      StepsKeepFresh(st, front, timeout, time);
      StepKeepsFresh(Run(st, front, timeout), steps[|steps| - 1], timeout, time);
    }
  }

  /** Between the expiry of a query and its SELECT any steps of other calls may run,
      on a clock that does not go back, expiries with older readings included. The table
      then still shows as alive only
      nodes heard of within the timeout before the expiry. */
  lemma AliveMeansRecent(st: State, now: Instant, between: seq<Step>, timeout: nat)
    requires WellFormed(st) && ClockOk(now, timeout) && StepsOk(between, timeout)
    requires forall i :: 0 <= i < |between| ==> NotBefore(between[i], Micros(now))
    ensures FreshSince(Run(Expire(st, now, timeout), between, timeout), Micros(now) - timeout)
  {
    hide FreshSince, Expire, Micros;
    ExpiryMakesFresh(st, now, timeout);
    forall i | 0 <= i < |between| ensures NotBefore(between[i], Micros(now) - timeout) {
      assert NotBefore(between[i], Micros(now));
    }
    StepsKeepFresh(Expire(st, now, timeout), between, timeout, Micros(now) - timeout);
  }

  /** An answer holds the node heard of longest ago first, and nodes heard of at the same
      instant by id. */
  lemma AnswerIsOldestFirst(st: State, q: Catalog.Query, answer: seq<NodeRecord>, i: nat, j: nat)
    requires WellFormed(st) && Catalog.IsAnswer(st, q, answer) && i < j < |answer|
    ensures var a, b := LastSeen(answer[i]), LastSeen(answer[j]);
            && a.Some? && b.Some? && Valid(a.value) && Valid(b.value)
            && Micros(a.value) <= Micros(b.value)
            && (Micros(a.value) == Micros(b.value) ==> Text.Less(answer[i].id, answer[j].id))
  {
    hide ParseIso, Iso, Micros, Text.Less, Valid;
    var x, y := answer[i], answer[j];
    assert Catalog.Listed(st, q.group, x) && Catalog.Listed(st, q.group, y);
    var t :| Valid(t) && x.lastSeen == Iso(t);
    var u :| Valid(u) && y.lastSeen == Iso(u);
    ParseUndoesPrint(t);
    ParseUndoesPrint(u);
    TextOrderIsTimeOrder(t, u);
    TextOrderIsTimeOrder(u, t);
    assert Catalog.SeenLe(x, y);
    if Text.Less(x.lastSeen, y.lastSeen) && Text.Less(y.lastSeen, x.lastSeen) {
      Text.LessAsymmetric(x.lastSeen, y.lastSeen);
    }
    if x.lastSeen == y.lastSeen { Text.LessIrreflexive(x.lastSeen); }
    if Text.Less(x.lastSeen, y.lastSeen) { assert Micros(t) < Micros(u); }
  }

  lemma NoRows()
    ensures WellFormed(EMPTY)
  {}

  /** So, after any history of the manager, a catalog answer that asks for idle nodes
      never holds one that was last heard of before the timeout, as the clock stood when
      the query expired the rows. */
  lemma AnswerIsRecent(history: seq<Step>, now: Instant, between: seq<Step>, timeout: nat, q: Catalog.Query,
                       answer: seq<NodeRecord>, n: NodeRecord)
    requires StepsOk(history, timeout) && ClockOk(now, timeout) && StepsOk(between, timeout)
    requires forall i :: 0 <= i < |between| ==> NotBefore(between[i], Micros(now))
    requires q.idleOnly && n in answer
    requires Catalog.IsAnswer(Run(Expire(Run(EMPTY, history, timeout), now, timeout), between, timeout), q, answer)
    ensures LastSeen(n).Some? && Valid(LastSeen(n).value) && Micros(LastSeen(n).value) >= Micros(now) - timeout
  {
    hide Run, Expire, ParseIso, Micros, NotBefore, WellFormed;
    var st := Run(EMPTY, history, timeout);
    assert WellFormed(EMPTY) by { NoRows(); }
    RowsAlwaysWellFormed(EMPTY, history, timeout);
    AliveMeansRecent(st, now, between, timeout);
    var seen := Run(Expire(st, now, timeout), between, timeout);
    assert Catalog.Listed(seen, q.group, n) && n.status == Idle;
  }
}
