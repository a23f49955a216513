/** Sequential dispatches over a fixed set of candidates keep the load even. */
module Balance {
  import opened Arithmetic
  import opened Models
  import opened Jobs
  import opened Inflight
  import opened Scheduler

  function Raise(counts: map<NodeId, nat>, a: NodeId): map<NodeId, nat> {
    counts[a := LoadOf(counts, a) + 1]
  }

  /** How a dispatch ends after its target was picked: accepted, or failed, which gives
      the target's count back but leaves the cursor where the pick moved it. */
  datatype Ending = Taken | Lost(reason: string)

  function Taking(ends: seq<Ending>): nat {
    if ends == [] then 0 else (if ends[0].Taken? then 1 else 0) + Taking(ends[1..])
  }

  function Loaded(counts: map<NodeId, nat>, a: NodeId, e: Ending): map<NodeId, nat> {
    if e.Taken? then Raise(counts, a) else counts
  }

  /** The loads after dispatches in a row that end so, with no result handled in between. */
  function AfterPicks(nodes: seq<NodeRecord>, counts: map<NodeId, nat>, cursor: nat, ends: seq<Ending>)
    : map<NodeId, nat>
    requires nodes != []
    decreases |ends|
  {
    if ends == [] then counts
    else
      var c := Pick(nodes, counts, cursor).value;
      AfterPicks(nodes, Loaded(counts, c.node.id, ends[0]), c.cursor, ends[1..])
  }

  /** No two candidates differ by more than d. */
  ghost predicate SpreadWithin(nodes: seq<NodeRecord>, counts: map<NodeId, nat>, d: nat) {
    forall m, n :: m in nodes && n in nodes ==> LoadOf(counts, m.id) <= LoadOf(counts, n.id) + d
  }

  lemma PickKeepsSpread(nodes: seq<NodeRecord>, counts: map<NodeId, nat>, cursor: nat, d: nat)
    requires nodes != [] && d >= 1 && SpreadWithin(nodes, counts, d)
    ensures SpreadWithin(nodes, Raise(counts, Pick(nodes, counts, cursor).value.node.id), d)
  {
    PickIsLeastLoaded(nodes, counts, cursor);
  }

  lemma SpreadWeakens(nodes: seq<NodeRecord>, counts: map<NodeId, nat>, d: nat, e: nat)
    requires SpreadWithin(nodes, counts, d) && d <= e
    ensures SpreadWithin(nodes, counts, e)
  {}

  /** The spread never exceeds the larger of one and what it was at the start, whichever
      of the dispatches fail. */
  lemma {:induction false} SpreadNeverGrows(nodes: seq<NodeRecord>, counts: map<NodeId, nat>, cursor: nat,
                                            ends: seq<Ending>, d: nat)
    requires nodes != [] && SpreadWithin(nodes, counts, d)
    ensures SpreadWithin(nodes, AfterPicks(nodes, counts, cursor, ends), if d >= 1 then d else 1)
    decreases |ends|
  {
    hide Pick;
    var e := if d >= 1 then d else 1;
    SpreadWeakens(nodes, counts, d, e);
    if ends != [] {
      PickIsLeastLoaded(nodes, counts, cursor);
      PickKeepsSpread(nodes, counts, cursor, e);
      var c := Pick(nodes, counts, cursor).value;
      SpreadNeverGrows(nodes, Loaded(counts, c.node.id, ends[0]), c.cursor, ends[1..], e);
    }
  }

  // ----- totals

  function TotalLoad(nodes: seq<NodeRecord>, counts: map<NodeId, nat>): nat {
    if nodes == [] then 0 else LoadOf(counts, nodes[0].id) + TotalLoad(nodes[1..], counts)
  }

  lemma {:induction false} RaiseOutside(nodes: seq<NodeRecord>, counts: map<NodeId, nat>, a: NodeId)
    requires forall n :: n in nodes ==> n.id != a
    ensures TotalLoad(nodes, Raise(counts, a)) == TotalLoad(nodes, counts)
  {
    if nodes != [] {
      assert nodes[0] in nodes;
      assert forall n :: n in nodes[1..] ==> n in nodes;
      RaiseOutside(nodes[1..], counts, a);
    }
  }

  lemma {:induction false} RaiseAddsOne(nodes: seq<NodeRecord>, counts: map<NodeId, nat>, n: NodeRecord)
    requires DistinctNodeIds(nodes) && n in nodes
    ensures TotalLoad(nodes, Raise(counts, n.id)) == TotalLoad(nodes, counts) + 1
  {
    var rest := nodes[1..];
    assert forall i :: 0 <= i < |rest| ==> rest[i] == nodes[i + 1];
    if nodes[0].id == n.id {
      forall m | m in rest ensures m.id != n.id {
        var i :| 0 <= i < |rest| && rest[i] == m;
        assert nodes[i + 1].id != nodes[0].id;
      }
      RaiseOutside(rest, counts, n.id);
    } else {
      assert n in rest;
      RaiseAddsOne(rest, counts, n);
    }
  }

  lemma {:induction false} TotalAfterPicks(nodes: seq<NodeRecord>, counts: map<NodeId, nat>, cursor: nat,
                                           ends: seq<Ending>)
    requires nodes != [] && DistinctNodeIds(nodes)
    ensures TotalLoad(nodes, AfterPicks(nodes, counts, cursor, ends)) == TotalLoad(nodes, counts) + Taking(ends)
    decreases |ends|
  {
    hide Pick, TotalLoad, DistinctNodeIds;
    if ends != [] {
      PickIsLeastLoaded(nodes, counts, cursor);
      var c := Pick(nodes, counts, cursor).value;
      RaiseAddsOne(nodes, counts, c.node);
      TotalAfterPicks(nodes, Loaded(counts, c.node.id, ends[0]), c.cursor, ends[1..]);
    }
  }

  lemma MulSuccessor(n: nat, x: nat)
    ensures (n + 1) * x == n * x + x
  {}

  lemma MulStep(n: nat, x: nat)
    ensures n * (x + 1) == n * x + n
  {}

  lemma {:induction false} TotalBounds(nodes: seq<NodeRecord>, counts: map<NodeId, nat>, lo: nat, hi: nat)
    requires forall n :: n in nodes ==> lo <= LoadOf(counts, n.id) <= hi
    ensures |nodes| * lo <= TotalLoad(nodes, counts) <= |nodes| * hi
  {
    if nodes != [] {
      assert nodes[0] in nodes;
      assert forall n :: n in nodes[1..] ==> n in nodes;
      TotalBounds(nodes[1..], counts, lo, hi);
      MulSuccessor(|nodes[1..]|, lo);
      MulSuccessor(|nodes[1..]|, hi);
    }
  }

  lemma {:induction false} ZeroTotal(nodes: seq<NodeRecord>, counts: map<NodeId, nat>)
    requires forall n :: n in nodes ==> LoadOf(counts, n.id) == 0
    ensures TotalLoad(nodes, counts) == 0
  {
    TotalBounds(nodes, counts, 0, 0);
  }

  lemma ZeroSpread(nodes: seq<NodeRecord>, counts: map<NodeId, nat>)
    requires forall n :: n in nodes ==> LoadOf(counts, n.id) == 0
    ensures SpreadWithin(nodes, counts, 0)
  {}

  /** One element strictly inside a bound makes the bound on the total strict. */
  lemma {:induction false} TotalStrict(nodes: seq<NodeRecord>, counts: map<NodeId, nat>, n: NodeRecord, lo: nat,
                                       hi: nat)
    requires forall m :: m in nodes ==> lo <= LoadOf(counts, m.id) <= hi
    requires n in nodes
    ensures LoadOf(counts, n.id) < hi ==> TotalLoad(nodes, counts) < |nodes| * hi
    ensures LoadOf(counts, n.id) > lo ==> TotalLoad(nodes, counts) > |nodes| * lo
  {
    var rest := nodes[1..];
    assert nodes[0] in nodes;
    assert forall m :: m in rest ==> m in nodes;
    TotalBounds(rest, counts, lo, hi);
    MulSuccessor(|rest|, lo);
    MulSuccessor(|rest|, hi);
    if nodes[0] != n { TotalStrict(rest, counts, n, lo, hi); }
  }

  lemma FloorAndCeiling(n: nat, k: nat, x: nat)
    requires n > 0
    requires n * x < k + n && k < n * x + n
    ensures k / n <= x <= (k + n - 1) / n
  {
    var q, r := k / n, k % n;
    assert k == q * n + r;
    if q > x {
      MulAtLeast(q - x, n);
    }
    var q2, r2 := (k + n - 1) / n, (k + n - 1) % n;
    assert k + n - 1 == q2 * n + r2;
    if x > q2 {
      MulAtLeast(x - q2, n);
    }
  }

  /** Within a spread of one, every load lies within one of n's, and n's own lies
      strictly inside both bounds. */
  lemma ShareOf(nodes: seq<NodeRecord>, counts: map<NodeId, nat>, n: NodeRecord)
    requires n in nodes && SpreadWithin(nodes, counts, 1)
    ensures |nodes| * LoadOf(counts, n.id) < TotalLoad(nodes, counts) + |nodes|
    ensures TotalLoad(nodes, counts) < |nodes| * LoadOf(counts, n.id) + |nodes|
  {
    var x, size := LoadOf(counts, n.id), |nodes|;
    TotalStrict(nodes, counts, n, if x == 0 then 0 else x - 1, x + 1);
    MulStep(size, x);
    if x > 0 { MulStep(size, x - 1); }
  }

  lemma TotalFromZero(nodes: seq<NodeRecord>, counts: map<NodeId, nat>, cursor: nat, ends: seq<Ending>)
    requires nodes != [] && DistinctNodeIds(nodes)
    requires forall m :: m in nodes ==> LoadOf(counts, m.id) == 0
    ensures TotalLoad(nodes, AfterPicks(nodes, counts, cursor, ends)) == Taking(ends)
    ensures SpreadWithin(nodes, AfterPicks(nodes, counts, cursor, ends), 1)
  {
    hide *;
    ZeroSpread(nodes, counts);
    SpreadNeverGrows(nodes, counts, cursor, ends, 0);
    TotalAfterPicks(nodes, counts, cursor, ends);
    ZeroTotal(nodes, counts);
  }

  /** From zero load, dispatches of which k are accepted leave every one of the n candidates
      with k/n subtasks rounded down or rounded up, wherever the failed ones stand. */
  lemma EvenShares(nodes: seq<NodeRecord>, counts: map<NodeId, nat>, cursor: nat, ends: seq<Ending>, n: NodeRecord)
    requires DistinctNodeIds(nodes) && n in nodes
    requires forall m :: m in nodes ==> LoadOf(counts, m.id) == 0
    ensures var k := Taking(ends);
            k / |nodes| <= LoadOf(AfterPicks(nodes, counts, cursor, ends), n.id) <= (k + |nodes| - 1) / |nodes|
  {
    hide *;
    TotalFromZero(nodes, counts, cursor, ends);
    var after := AfterPicks(nodes, counts, cursor, ends);
    ShareOf(nodes, after, n);
    FloorAndCeiling(|nodes|, Taking(ends), LoadOf(after, n.id));
  }

  // ----- the same for a job store

  /** A subtask waiting at a position of a job. */
  datatype Slot = Slot(job: JobId, index: nat)

  ghost predicate Waiting(st: Store, s: Slot) {
    && s.job in st && s.index < |st[s.job].subtasks| && DistinctIds(st[s.job].subtasks)
    && st[s.job].subtasks[s.index].status.PendingTask?
  }

  ghost predicate WaitingAll(st: Store, slots: seq<Slot>) {
    && (forall i :: 0 <= i < |slots| ==> Waiting(st, slots[i]))
    && (forall i, j :: 0 <= i < j < |slots| ==> slots[i] != slots[j])
  }

  function OrSame(r: Result<Store, StoreError>, st: Store): Store {
    match r
    case Ok(next) => next
    case Err(_) => st
  }

  /** The writes of one dispatch: ASSIGNED, then RUNNING, or FAILED here and again in the
      caller's handler. */
  function Dispatched(st: Store, s: Slot, to: NodeId, e: Ending): Store
    requires s.job in st && s.index < |st[s.job].subtasks|
  {
    var id := st[s.job].subtasks[s.index].id;
    var marked := OrSame(UpdateSubtask(st, s.job, id, Assign(to)), st);
    match e
    case Taken => OrSame(UpdateSubtask(marked, s.job, id, StartRunning), marked)
    case Lost(reason) =>
      var failed := OrSame(UpdateSubtask(marked, s.job, id, FailWith(reason)), marked);
      OrSame(UpdateSubtask(failed, s.job, id, FailWith(reason)), failed)
  }

  ghost predicate CountsAgree(nodes: seq<NodeRecord>, counts: map<NodeId, nat>, st: Store) {
    forall n :: n in nodes ==> LoadOf(counts, n.id) == InflightCount(st, n.id)
  }

  /** Only an accepted dispatch raises a count, its target's by one. */
  lemma DispatchedCounts(st: Store, s: Slot, to: NodeId, e: Ending, a: NodeId)
    requires Waiting(st, s) && to != ""
    ensures InflightCount(Dispatched(st, s, to, e), a)
         == InflightCount(st, a) + if e.Taken? && a == to then 1 else 0
  {
    hide InflightCount;
    var id := st[s.job].subtasks[s.index].id;
    UpdateKeepsIds(st, s.job, s.index, Assign(to));
    var marked := UpdateSubtask(st, s.job, id, Assign(to)).value;
    match e
    case Taken =>
      AssignRaisesOne(st, s.job, s.index, to, a);
      UpdateKeepsIds(marked, s.job, s.index, StartRunning);
      RunningKeepsCounts(marked, s.job, s.index, a);
    case Lost(reason) =>
      FailureGivesBack(st, s.job, s.index, to, reason, a);
  }

  lemma OthersWait(st: Store, s: Slot, c: Change, other: Slot)
    requires s.job in st && s.index < |st[s.job].subtasks| && DistinctIds(st[s.job].subtasks)
    requires Waiting(st, other) && other != s
    ensures UpdateSubtask(st, s.job, st[s.job].subtasks[s.index].id, c).Ok?
    ensures Waiting(UpdateSubtask(st, s.job, st[s.job].subtasks[s.index].id, c).value, other)
  {
    UpdateKeepsIds(st, s.job, s.index, c);
  }

  lemma DispatchedKeepsWaiting(st: Store, s: Slot, to: NodeId, e: Ending, other: Slot)
    requires Waiting(st, s) && Waiting(st, other) && other != s
    ensures Waiting(Dispatched(st, s, to, e), other)
  {
    var id := st[s.job].subtasks[s.index].id;
    OthersWait(st, s, Assign(to), other);
    UpdateKeepsIds(st, s.job, s.index, Assign(to));
    var marked := UpdateSubtask(st, s.job, id, Assign(to)).value;
    match e
    case Taken => OthersWait(marked, s, StartRunning, other);
    case Lost(reason) =>
      OthersWait(marked, s, FailWith(reason), other);
      UpdateKeepsIds(marked, s.job, s.index, FailWith(reason));
      OthersWait(UpdateSubtask(marked, s.job, id, FailWith(reason)).value, s, FailWith(reason), other);
  }

  /** Dispatches the given subtasks one after the other, each to the node picked
      from the counts of the store as it then is. */
  function DispatchRun(st: Store, nodes: seq<NodeRecord>, counts: map<NodeId, nat>, cursor: nat, slots: seq<Slot>,
                       ends: seq<Ending>): Store
    requires nodes != [] && |ends| == |slots|
    decreases |slots|
  {
    if slots == [] || slots[0].job !in st || slots[0].index >= |st[slots[0].job].subtasks| then st
    else
      var c := Pick(nodes, counts, cursor).value;
      DispatchRun(Dispatched(st, slots[0], c.node.id, ends[0]), nodes, Loaded(counts, c.node.id, ends[0]), c.cursor,
                  slots[1..], ends[1..])
  }

  lemma DispatchedStep(st: Store, nodes: seq<NodeRecord>, counts: map<NodeId, nat>, slots: seq<Slot>, to: NodeId,
                       e: Ending)
    requires slots != [] && WaitingAll(st, slots) && CountsAgree(nodes, counts, st) && to != ""
    ensures CountsAgree(nodes, Loaded(counts, to, e), Dispatched(st, slots[0], to, e))
    ensures WaitingAll(Dispatched(st, slots[0], to, e), slots[1..])
  {
    hide Dispatched;
    assert Waiting(st, slots[0]);
    forall n | n in nodes
      ensures LoadOf(Loaded(counts, to, e), n.id) == InflightCount(Dispatched(st, slots[0], to, e), n.id)
    {
      DispatchedCounts(st, slots[0], to, e, n.id);
    }
    forall i | 0 <= i < |slots[1..]| ensures Waiting(Dispatched(st, slots[0], to, e), slots[1..][i]) {
      assert slots[1..][i] == slots[i + 1] && slots[0] != slots[i + 1];
      DispatchedKeepsWaiting(st, slots[0], to, e, slots[i + 1]);
    }
  }

  /** The store's own in-flight counts follow the abstract loads, so the spread
      bound and the even shares hold of what `inflight_counts` reports. */
  lemma {:induction false} StoreFollowsPicks(st: Store, nodes: seq<NodeRecord>, counts: map<NodeId, nat>, cursor: nat,
                                             slots: seq<Slot>, ends: seq<Ending>)
    requires nodes != [] && (forall n :: n in nodes ==> n.id != "") && |ends| == |slots|
    requires WaitingAll(st, slots) && CountsAgree(nodes, counts, st)
    ensures CountsAgree(nodes, AfterPicks(nodes, counts, cursor, ends),
                        DispatchRun(st, nodes, counts, cursor, slots, ends))
    decreases |slots|
  {
    hide Pick, Dispatched, CountsAgree;
    if slots != [] {
      assert Waiting(st, slots[0]);
      PickIsLeastLoaded(nodes, counts, cursor);
      var c := Pick(nodes, counts, cursor).value;
      DispatchedStep(st, nodes, counts, slots, c.node.id, ends[0]);
      StoreFollowsPicks(Dispatched(st, slots[0], c.node.id, ends[0]), nodes, Loaded(counts, c.node.id, ends[0]),
                        c.cursor, slots[1..], ends[1..]);
    }
  }

  /** Dispatches of which k are accepted, from a store with nothing in flight for the
      candidates, give each of the n candidates k/n subtasks, rounded down or up. */
  lemma StoreSharesEvenly(st: Store, nodes: seq<NodeRecord>, counts: map<NodeId, nat>, cursor: nat,
                          slots: seq<Slot>, ends: seq<Ending>, n: NodeRecord)
    requires DistinctNodeIds(nodes) && n in nodes && (forall m :: m in nodes ==> m.id != "") && |ends| == |slots|
    requires WaitingAll(st, slots) && CountsAgree(nodes, counts, st)
    requires forall m :: m in nodes ==> InflightCount(st, m.id) == 0
    ensures var k := Taking(ends);
            k / |nodes|
            <= InflightCount(DispatchRun(st, nodes, counts, cursor, slots, ends), n.id)
            <= (k + |nodes| - 1) / |nodes|
  {
    StoreFollowsPicks(st, nodes, counts, cursor, slots, ends);
    EvenShares(nodes, counts, cursor, ends, n);
  }

  /** And from any counts, the store's spread stays within the larger of one and what it
      was. */
  lemma StoreSpreadNeverGrows(st: Store, nodes: seq<NodeRecord>, counts: map<NodeId, nat>, cursor: nat,
                              slots: seq<Slot>, ends: seq<Ending>, d: nat, m: NodeRecord, n: NodeRecord)
    requires nodes != [] && (forall n :: n in nodes ==> n.id != "") && |ends| == |slots| && m in nodes && n in nodes
    requires WaitingAll(st, slots) && CountsAgree(nodes, counts, st) && SpreadWithin(nodes, counts, d)
    ensures var after := DispatchRun(st, nodes, counts, cursor, slots, ends);
            InflightCount(after, m.id) <= InflightCount(after, n.id) + if d >= 1 then d else 1
  {
    StoreFollowsPicks(st, nodes, counts, cursor, slots, ends);
    SpreadNeverGrows(nodes, counts, cursor, ends, d);
  }
}
