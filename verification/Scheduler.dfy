/** Which idle agent gets the next subtask (src/mycoagent/node/runtime.py,
    pick_dispatch_target): the least in-flight, round robin among ties. */
module Scheduler {
  import opened Models
  import opened Inflight
  import opened Arithmetic
  import Text
  import Ordering

  datatype Choice = Choice(node: NodeRecord, cursor: nat)

  function MinLoad(nodes: seq<NodeRecord>, counts: map<NodeId, nat>): (m: nat)
    requires nodes != []
    ensures forall n :: n in nodes ==> m <= LoadOf(counts, n.id)
    ensures exists n :: n in nodes && LoadOf(counts, n.id) == m
  {
    var here := LoadOf(counts, nodes[0].id);
    if |nodes| == 1 then here
    else
      var rest := MinLoad(nodes[1..], counts);
      assert nodes[0] in nodes;
      assert forall n :: n in nodes ==> n == nodes[0] || n in nodes[1..];
      assert forall n :: n in nodes[1..] ==> n in nodes;
      if here <= rest then here else rest
  }

  function WithLoad(nodes: seq<NodeRecord>, counts: map<NodeId, nat>, load: nat): (pool: seq<NodeRecord>)
    ensures forall n :: n in pool <==> n in nodes && LoadOf(counts, n.id) == load
  {
    if nodes == [] then []
    else if LoadOf(counts, nodes[0].id) == load then [nodes[0]] + WithLoad(nodes[1..], counts, load)
    else WithLoad(nodes[1..], counts, load)
  }

  predicate IdLe(x: NodeRecord, y: NodeRecord) {
    Text.LessEq(x.id, y.id)
  }

  /** The least loaded nodes in id order. */
  function Pool(nodes: seq<NodeRecord>, counts: map<NodeId, nat>): seq<NodeRecord>
    requires nodes != []
  {
    Ordering.Sort(WithLoad(nodes, counts, MinLoad(nodes, counts)), IdLe)
  }

  lemma PoolMembers(nodes: seq<NodeRecord>, counts: map<NodeId, nat>)
    requires nodes != []
    ensures Pool(nodes, counts) != []
    ensures Ordering.Sorted(Pool(nodes, counts), IdLe)
    ensures multiset(Pool(nodes, counts)) == multiset(WithLoad(nodes, counts, MinLoad(nodes, counts)))
    ensures forall n :: n in Pool(nodes, counts) <==> n in nodes && LoadOf(counts, n.id) == MinLoad(nodes, counts)
  {
    IdLeIsTotal();
    var tied := WithLoad(nodes, counts, MinLoad(nodes, counts));
    Ordering.SortSorts(tied, IdLe);
    forall n ensures n in Pool(nodes, counts) <==> n in tied {
      assert n in multiset(Pool(nodes, counts)) <==> n in multiset(tied);
    }
    var n :| n in nodes && LoadOf(counts, n.id) == MinLoad(nodes, counts);
    assert n in tied;
  }

  lemma IdLeIsTotal()
    ensures Ordering.TotalPreorder(IdLe)
  {
    forall x: NodeRecord, y: NodeRecord ensures IdLe(x, y) || IdLe(y, x) {
      Text.LessTotal(x.id, y.id);
    }
    forall x: NodeRecord, y: NodeRecord, z: NodeRecord | IdLe(x, y) && IdLe(y, z) ensures IdLe(x, z) {
      if x.id != y.id && y.id != z.id { Text.LessTransitive(x.id, y.id, z.id); }
    }
  }

  /** None when there is no candidate. */
  function Pick(nodes: seq<NodeRecord>, counts: map<NodeId, nat>, cursor: nat): Option<Choice> {
    if nodes == [] then None
    else
      PoolMembers(nodes, counts);
      var pool := Pool(nodes, counts);
      Some(Choice(pool[cursor % |pool|], cursor + 1))
  }

  // ----- least loaded, and independent of the order of the candidates

  lemma PickIsLeastLoaded(nodes: seq<NodeRecord>, counts: map<NodeId, nat>, cursor: nat)
    ensures Pick(nodes, counts, cursor).Some? <==> nodes != []
    ensures nodes != [] ==>
              var n := Pick(nodes, counts, cursor).value.node;
              n in nodes && forall m :: m in nodes ==> LoadOf(counts, n.id) <= LoadOf(counts, m.id)
  {
    if nodes != [] {
      PoolMembers(nodes, counts);
      var pool := Pool(nodes, counts);
      assert pool[cursor % |pool|] in pool;
    }
  }

  ghost predicate DistinctNodeIds(nodes: seq<NodeRecord>) {
    forall i, j :: 0 <= i < |nodes| && 0 <= j < |nodes| && nodes[i].id == nodes[j].id ==> i == j
  }

  lemma {:induction false} WithLoadCount(nodes: seq<NodeRecord>, counts: map<NodeId, nat>, load: nat, n: NodeRecord)
    ensures multiset(WithLoad(nodes, counts, load))[n]
         == if LoadOf(counts, n.id) == load then multiset(nodes)[n] else 0
  {
    if nodes != [] {
      assert nodes == [nodes[0]] + nodes[1..];
      WithLoadCount(nodes[1..], counts, load, n);
    }
  }

  lemma LeastIgnoresOrder(xs: seq<NodeRecord>, ys: seq<NodeRecord>, counts: map<NodeId, nat>)
    requires multiset(xs) == multiset(ys) && xs != [] && ys != []
    ensures MinLoad(xs, counts) == MinLoad(ys, counts)
  {
    forall n ensures n in xs <==> n in ys {
      assert n in multiset(xs) <==> n in multiset(ys);
    }
  }

  lemma TiedIgnoresOrder(xs: seq<NodeRecord>, ys: seq<NodeRecord>, counts: map<NodeId, nat>)
    requires multiset(xs) == multiset(ys) && xs != [] && ys != []
    ensures multiset(WithLoad(xs, counts, MinLoad(xs, counts))) == multiset(WithLoad(ys, counts, MinLoad(ys, counts)))
  {
    var load := MinLoad(xs, counts);
    LeastIgnoresOrder(xs, ys, counts);
    hide MinLoad;
    forall n ensures multiset(WithLoad(xs, counts, load))[n] == multiset(WithLoad(ys, counts, load))[n] {
      WithLoadCount(xs, counts, load, n);
      WithLoadCount(ys, counts, load, n);
    }
  }

  lemma TiesAreEqual(xs: seq<NodeRecord>, m: NodeRecord, n: NodeRecord)
    requires DistinctNodeIds(xs) && m in xs && n in xs && IdLe(m, n) && IdLe(n, m)
    ensures m == n
  {
    if m.id != n.id { Text.LessAsymmetric(m.id, n.id); }
    var i :| 0 <= i < |xs| && xs[i] == m;
    var j :| 0 <= j < |xs| && xs[j] == n;
  }

  /** Candidates with distinct ids: the chosen node is the same in every order. */
  lemma PickIgnoresOrder(xs: seq<NodeRecord>, ys: seq<NodeRecord>, counts: map<NodeId, nat>, cursor: nat)
    requires multiset(xs) == multiset(ys) && DistinctNodeIds(xs)
    ensures Pick(xs, counts, cursor) == Pick(ys, counts, cursor)
  {
    assert |xs| == |multiset(xs)| == |multiset(ys)| == |ys|;
    if xs != [] {
      PoolMembers(xs, counts);
      PoolMembers(ys, counts);
      TiedIgnoresOrder(xs, ys, counts);
      IdLeIsTotal();
      forall m, n | m in Pool(xs, counts) && n in Pool(xs, counts) && IdLe(m, n) && IdLe(n, m)
        ensures m == n
      {
        TiesAreEqual(xs, m, n);
      }
      Ordering.SortedUnique(Pool(xs, counts), Pool(ys, counts), IdLe);
    }
  }

  // ----- round robin

  lemma Rotate(r: nat, i: nat, n: nat)
    requires n > 0 && i < n
    ensures (r + i) % n == if r % n + i < n then r % n + i else r % n + i - n
  {
    var q, q2 := r / n, (r + i) / n;
    assert r == q * n + r % n;
    assert r + i == q2 * n + (r + i) % n;
    if r % n + i < n {
      DivisionIsUnique(n, q2, (r + i) % n, q, r % n + i);
    } else {
      assert (q + 1) * n == q * n + n;
      DivisionIsUnique(n, q2, (r + i) % n, q + 1, r % n + i - n);
    }
  }

  lemma RotationKeepsElements<T>(p: seq<T>, r: nat)
    requires r <= |p|
    ensures multiset(p[r..] + p[..r]) == multiset(p)
  {
    assert p == p[..r] + p[r..];
  }

  /** Reading a sequence round from any start gives each element once. */
  lemma RoundVisitsEachOnce<T>(p: seq<T>, cursor: nat, picks: seq<T>)
    requires p != [] && |picks| == |p|
    requires forall i :: 0 <= i < |p| ==> picks[i] == p[(cursor + i) % |p|]
    ensures multiset(picks) == multiset(p)
  {
    var r := cursor % |p|;
    forall i | 0 <= i < |p| ensures picks[i] == (p[r..] + p[..r])[i] {
      Rotate(cursor, i, |p|);
    }
    assert picks == p[r..] + p[..r];
    RotationKeepsElements(p, r);
  }

  /** k picks in a row on unchanged loads, each with the cursor that the one before left. */
  function Picks(nodes: seq<NodeRecord>, counts: map<NodeId, nat>, cursor: nat, k: nat): seq<Choice>
    requires nodes != []
    decreases k
  {
    if k == 0 then []
    else
      var c := Pick(nodes, counts, cursor).value;
      [c] + Picks(nodes, counts, c.cursor, k - 1)
  }

  function Nodes(picks: seq<Choice>): (nodes: seq<NodeRecord>)
    ensures |nodes| == |picks| && forall i :: 0 <= i < |picks| ==> nodes[i] == picks[i].node
  {
    seq(|picks|, i requires 0 <= i < |picks| => picks[i].node)
  }

  /** The element that a cursor points to, going round. */
  function AtCursor<T>(p: seq<T>, cursor: nat): T
    requires p != []
  {
    p[cursor % |p|]
  }

  lemma PickAtCursor(nodes: seq<NodeRecord>, counts: map<NodeId, nat>, cursor: nat)
    requires nodes != []
    ensures Pool(nodes, counts) != []
    ensures Pick(nodes, counts, cursor) == Some(Choice(AtCursor(Pool(nodes, counts), cursor), cursor + 1))
  {
    hide Pool;
    PoolMembers(nodes, counts);
  }

  lemma {:induction false} PicksGoRound(nodes: seq<NodeRecord>, counts: map<NodeId, nat>, cursor: nat, k: nat)
    requires nodes != []
    ensures var picks, pool := Picks(nodes, counts, cursor, k), Pool(nodes, counts);
            |picks| == k && pool != [] && forall i :: 0 <= i < k ==> picks[i].node == AtCursor(pool, cursor + i)
    decreases k
  {
    hide Pool, Pick, AtCursor;
    PickAtCursor(nodes, counts, cursor);
    if k > 0 {
      var pool, rest := Pool(nodes, counts), Picks(nodes, counts, cursor + 1, k - 1);
      PicksGoRound(nodes, counts, cursor + 1, k - 1);
      assert Picks(nodes, counts, cursor, k) == [Pick(nodes, counts, cursor).value] + rest;
      forall i | 0 < i < k ensures Picks(nodes, counts, cursor, k)[i].node == AtCursor(pool, cursor + i) {
        assert rest[i - 1].node == AtCursor(pool, cursor + 1 + (i - 1));
      }
    }
  }

  /** While the tie pool stays the same, |pool| picks in a row choose each of its
      nodes exactly once. */
  lemma RoundRobinVisitsEachOnce(nodes: seq<NodeRecord>, counts: map<NodeId, nat>, cursor: nat)
    requires nodes != []
    ensures multiset(Nodes(Picks(nodes, counts, cursor, |Pool(nodes, counts)|))) == multiset(Pool(nodes, counts))
  {
    hide Pool, Picks;
    PoolMembers(nodes, counts);
    PicksGoRound(nodes, counts, cursor, |Pool(nodes, counts)|);
    RoundVisitsEachOnce(Pool(nodes, counts), cursor, Nodes(Picks(nodes, counts, cursor, |Pool(nodes, counts)|)));
  }

  // ----- which node it is

  /** The ids of the candidates that nobody has less load than. */
  ghost function LeastLoaded(nodes: seq<NodeRecord>, counts: map<NodeId, nat>): set<NodeId> {
    set n | n in nodes && (forall m :: m in nodes ==> LoadOf(counts, n.id) <= LoadOf(counts, m.id)) :: n.id
  }

  ghost predicate StrictlyById(pool: seq<NodeRecord>) {
    forall i, j :: 0 <= i < j < |pool| ==> Text.Less(pool[i].id, pool[j].id)
  }

  lemma PoolIsStrict(nodes: seq<NodeRecord>, counts: map<NodeId, nat>)
    requires nodes != [] && DistinctNodeIds(nodes)
    ensures StrictlyById(Pool(nodes, counts))
  {
    hide Pool, Text.Less;
    PoolMembers(nodes, counts);
    var pool := Pool(nodes, counts);
    forall n ensures multiset(pool)[n] <= multiset(nodes)[n] {
      WithLoadCount(nodes, counts, MinLoad(nodes, counts), n);
    }
    Ordering.RearrangedOnce(nodes, pool);
    forall i, j | 0 <= i < j < |pool| ensures Text.Less(pool[i].id, pool[j].id) {
      assert IdLe(pool[i], pool[j]);
      if pool[i].id == pool[j].id { SameIdSameNode(nodes, pool[i], pool[j]); }
    }
  }

  lemma SameIdSameNode(nodes: seq<NodeRecord>, m: NodeRecord, n: NodeRecord)
    requires DistinctNodeIds(nodes) && m in nodes && n in nodes && m.id == n.id
    ensures m == n
  {
    var i :| 0 <= i < |nodes| && nodes[i] == m;
    var j :| 0 <= j < |nodes| && nodes[j] == n;
  }

  ghost function IdsBefore(pool: seq<NodeRecord>, r: nat): set<NodeId>
    requires r <= |pool|
  {
    set i | 0 <= i < r :: pool[i].id
  }

  lemma {:induction false} IdsBeforeCount(pool: seq<NodeRecord>, r: nat)
    requires r <= |pool| && StrictlyById(pool)
    ensures |IdsBefore(pool, r)| == r
  {
    hide Text.Less;
    if r > 0 {
      IdsBeforeCount(pool, r - 1);
      assert IdsBefore(pool, r) == IdsBefore(pool, r - 1) + {pool[r - 1].id};
      forall i | 0 <= i < r - 1 ensures pool[i].id != pool[r - 1].id { Text.LessIrreflexive(pool[i].id); }
    }
  }

  /** The ids of a set that come before this one in text order. */
  ghost function Below(ids: set<NodeId>, id: NodeId): set<NodeId> {
    set i | i in ids && Text.Less(i, id)
  }

  /** With distinct ids, the node chosen is the one that has, among the least loaded,
      cursor modulo their number before it in id order; and the cursor moves by one. */
  lemma PickIsNextInIdOrder(nodes: seq<NodeRecord>, counts: map<NodeId, nat>, cursor: nat)
    requires nodes != [] && DistinctNodeIds(nodes)
    ensures var c, least := Pick(nodes, counts, cursor).value, LeastLoaded(nodes, counts);
            && least != {} && c.node.id in least && c.cursor == cursor + 1
            && |Below(least, c.node.id)| == cursor % |least|
  {
    hide Pool, Text.Less, Pick, LeastLoaded, IdsBefore, StrictlyById, AtCursor, Below;
    PickAtCursor(nodes, counts, cursor);
    PoolIsStrict(nodes, counts);
    LeastAreThePool(nodes, counts);
    RankInOrder(Pool(nodes, counts), cursor);
  }

  lemma RankInOrder(pool: seq<NodeRecord>, cursor: nat)
    requires pool != [] && StrictlyById(pool)
    ensures var ids, id := IdsBefore(pool, |pool|), AtCursor(pool, cursor).id;
            ids != {} && id in ids && |Below(ids, id)| == cursor % |ids|
  {
    hide StrictlyById, Text.Less;
    IdsBeforeCount(pool, |pool|);
    var r := cursor % |pool|;
    IdsBeforeCount(pool, r);
    BeforeInOrder(pool, r);
    assert Below(IdsBefore(pool, |pool|), pool[r].id) == IdsBefore(pool, r);
    assert pool[r].id in IdsBefore(pool, |pool|);
  }

  lemma LeastAreThePool(nodes: seq<NodeRecord>, counts: map<NodeId, nat>)
    requires nodes != []
    ensures LeastLoaded(nodes, counts) == IdsBefore(Pool(nodes, counts), |Pool(nodes, counts)|)
  {
    hide Pool, MinLoad;
    PoolMembers(nodes, counts);
    var pool := Pool(nodes, counts);
    forall id ensures id in LeastLoaded(nodes, counts) <==> id in IdsBefore(pool, |pool|) {
      if id in IdsBefore(pool, |pool|) {
        var i :| 0 <= i < |pool| && pool[i].id == id;
        assert pool[i] in pool;
      }
      if id in LeastLoaded(nodes, counts) {
        var n :| n in nodes && n.id == id && forall m :: m in nodes ==> LoadOf(counts, n.id) <= LoadOf(counts, m.id);
        assert n in pool;
      }
    }
  }

  lemma BeforeInOrder(pool: seq<NodeRecord>, r: nat)
    requires r < |pool| && StrictlyById(pool)
    ensures forall id :: id in IdsBefore(pool, |pool|) && Text.Less(id, pool[r].id) <==> id in IdsBefore(pool, r)
  {
    hide Text.Less;
    forall i | 0 <= i < |pool| ensures Text.Less(pool[i].id, pool[r].id) <==> i < r {
      if i > r { Text.LessAsymmetric(pool[r].id, pool[i].id); }
      if i == r { Text.LessIrreflexive(pool[r].id); }
    }
    forall id ensures id in IdsBefore(pool, |pool|) && Text.Less(id, pool[r].id) <==> id in IdsBefore(pool, r) {
      if id in IdsBefore(pool, |pool|) && Text.Less(id, pool[r].id) {
        var i :| 0 <= i < |pool| && pool[i].id == id;
      }
    }
  }
}
