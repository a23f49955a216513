/** Catalog queries (src/mycoagent/manager/store.py, catalog_matches,
    filter_catalog_nodes and query_catalog). */
module Catalog {
  import opened Models
  import opened Manager
  import Ordering
  import Text

  datatype Query = Query(
    group: string,
    idleOnly: bool,
    skills: seq<string>,
    tools: seq<string>,
    excludeNode: Option<NodeId>,
    model: Option<string>,
    minContextWindow: Option<int>,
    minMemoryMb: Option<int>)

  predicate Given(text: Option<string>) {
    text.Some? && text.value != ""
  }

  function ContextOf(m: ModelInfo): int {
    if m.contextWindow.Some? then m.contextWindow.value else 0
  }

  function Named(models: seq<ModelInfo>, name: string): (r: seq<ModelInfo>)
    ensures forall m :: m in r <==> m in models && m.name == name
  {
    if models == [] then []
    else if models[0].name == name then [models[0]] + Named(models[1..], name)
    else Named(models[1..], name)
  }

  predicate Covers(have: seq<string>, need: seq<string>) {
    forall x :: x in need ==> x in have
  }

  /** `catalog_matches`, test by test. */
  predicate Matches(n: NodeRecord, q: Query) {
    if Given(q.excludeNode) && n.id == q.excludeNode.value then false
    else if q.idleOnly && !n.status.Idle? then false
    else if q.skills != [] && !Covers(n.skills, q.skills) then false
    else if q.tools != [] && !Covers(n.toolsAvailable, q.tools) then false
    else if q.minMemoryMb.Some? && n.memoryMb < q.minMemoryMb.value then false
    else
      var models := if Given(q.model) then Named(n.models, q.model.value) else n.models;
      if Given(q.model) && models == [] then false
      else q.minContextWindow.Some? ==> exists m :: m in models && ContextOf(m) >= q.minContextWindow.value
  }

  /** One model of the node serves both demands on models. */
  predicate Serves(m: ModelInfo, q: Query) {
    && (Given(q.model) ==> m.name == q.model.value)
    && (q.minContextWindow.Some? ==> Reaches(m, q.minContextWindow.value))
  }

  /** The model's context window is large enough; one that is not given counts for none. */
  predicate Reaches(m: ModelInfo, least: int) {
    match m.contextWindow
    case Some(window) => window >= least
    case None => least <= 0
  }

  /** What a query asks of a node, demand by demand. */
  ghost predicate Suits(n: NodeRecord, q: Query) {
    && (Given(q.excludeNode) ==> n.id != q.excludeNode.value)
    && (q.idleOnly ==> n.status == Idle)
    && Covers(n.skills, q.skills)
    && Covers(n.toolsAvailable, q.tools)
    && (q.minMemoryMb.Some? ==> n.memoryMb >= q.minMemoryMb.value)
    && (Given(q.model) || q.minContextWindow.Some? ==> exists m :: m in n.models && Serves(m, q))
  }

  lemma MatchesIffSuits(n: NodeRecord, q: Query)
    ensures Matches(n, q) <==> Suits(n, q)
  {
    var models := if Given(q.model) then Named(n.models, q.model.value) else n.models;
    if Matches(n, q) && q.minContextWindow.Some? {
      var m :| m in models && ContextOf(m) >= q.minContextWindow.value;
      assert m in n.models && Serves(m, q);
    } else if Matches(n, q) && Given(q.model) {
      assert models[0] in models;
      assert models[0] in n.models && Serves(models[0], q);
    }
    if Suits(n, q) && (Given(q.model) || q.minContextWindow.Some?) {
      var m :| m in n.models && Serves(m, q);
      assert m in models;
      assert q.minContextWindow.Some? ==> ContextOf(m) >= q.minContextWindow.value;
    }
  }

  function Filter(nodes: seq<NodeRecord>, q: Query): (r: seq<NodeRecord>)
    ensures forall n :: n in r <==> n in nodes && Matches(n, q)
  {
    if nodes == [] then []
    else if Matches(nodes[0], q) then [nodes[0]] + Filter(nodes[1..], q)
    else Filter(nodes[1..], q)
  }

  // ----- order and answers

  /** ORDER BY last_seen, id. */
  predicate SeenLe(x: NodeRecord, y: NodeRecord) {
    Text.Less(x.lastSeen, y.lastSeen) || (x.lastSeen == y.lastSeen && Text.LessEq(x.id, y.id))
  }

  lemma SeenLeIsTotal()
    ensures Ordering.TotalPreorder(SeenLe)
  {
    forall x: NodeRecord, y: NodeRecord ensures SeenLe(x, y) || SeenLe(y, x) {
      Text.LessTotal(x.lastSeen, y.lastSeen);
      Text.LessTotal(x.id, y.id);
    }
    forall x: NodeRecord, y: NodeRecord, z: NodeRecord | SeenLe(x, y) && SeenLe(y, z) ensures SeenLe(x, z) {
      if Text.Less(x.lastSeen, y.lastSeen) && Text.Less(y.lastSeen, z.lastSeen) {
        Text.LessTransitive(x.lastSeen, y.lastSeen, z.lastSeen);
      }
      if Text.Less(x.id, y.id) && Text.Less(y.id, z.id) { Text.LessTransitive(x.id, y.id, z.id); }
    }
  }

  ghost predicate DistinctIds(nodes: seq<NodeRecord>) {
    forall i, j :: 0 <= i < |nodes| && 0 <= j < |nodes| && nodes[i].id == nodes[j].id ==> i == j
  }

  /** The rows of a group that the SELECT reads. */
  predicate Listed(st: State, group: string, n: NodeRecord) {
    n.id in st.nodes && st.nodes[n.id] == n && n.group == group && n.membership == Approved
  }

  /** A catalog answer agrees with the rows: it holds each approved row of the group
      that suits the query, once, and no other, oldest heartbeat first. */
  ghost predicate IsAnswer(st: State, q: Query, answer: seq<NodeRecord>) {
    && (forall n :: n in answer <==> Listed(st, q.group, n) && Suits(n, q))
    && DistinctIds(answer)
    && Ordering.Sorted(answer, SeenLe)
  }

  /** Who asks for a positive context window gets nodes with a model that has one, of that
      size or more. */
  lemma WindowIsGiven(st: State, q: Query, answer: seq<NodeRecord>, n: NodeRecord)
    requires IsAnswer(st, q, answer) && n in answer && q.minContextWindow.Some? && q.minContextWindow.value > 0
    ensures exists m :: m in n.models && m.contextWindow.Some?
                        && m.contextWindow.value >= q.minContextWindow.value
                        && (Given(q.model) ==> m.name == q.model.value)
  {
    hide DistinctIds, SeenLe;
    var m :| m in n.models && Serves(m, q);
  }

  lemma {:induction false} FilterKeepsOrder(nodes: seq<NodeRecord>, q: Query)
    requires Ordering.Sorted(nodes, SeenLe) && DistinctIds(nodes)
    ensures Ordering.Sorted(Filter(nodes, q), SeenLe) && DistinctIds(Filter(nodes, q))
  {
    hide Matches, SeenLe;
    if nodes != [] {
      var rest, kept := nodes[1..], Filter(nodes[1..], q);
      assert forall i :: 0 <= i < |rest| ==> rest[i] == nodes[i + 1];
      FilterKeepsOrder(rest, q);
      forall k | 0 <= k < |kept| ensures SeenLe(nodes[0], kept[k]) && nodes[0].id != kept[k].id {
        assert kept[k] in rest;
        var i :| 0 <= i < |rest| && rest[i] == kept[k];
        assert nodes[i + 1] == kept[k];
      }
    }
  }

  lemma SortKeepsDistinct(nodes: seq<NodeRecord>)
    requires DistinctIds(nodes)
    ensures DistinctIds(Ordering.Sort(nodes, SeenLe))
    ensures forall n :: n in Ordering.Sort(nodes, SeenLe) <==> n in nodes
    ensures Ordering.Sorted(Ordering.Sort(nodes, SeenLe), SeenLe)
  {
    hide SeenLe;
    SeenLeIsTotal();
    Ordering.SortSorts(nodes, SeenLe);
    var out := Ordering.Sort(nodes, SeenLe);
    forall n ensures n in out <==> n in nodes {
      assert n in multiset(out) <==> n in multiset(nodes);
    }
    forall i, j | 0 <= i < |out| && 0 <= j < |out| && out[i].id == out[j].id ensures i == j {
      if i != j {
        assert out[i] in nodes && out[j] in nodes;
        var a :| 0 <= a < |nodes| && nodes[a] == out[i];
        var b :| 0 <= b < |nodes| && nodes[b] == out[j];
        assert a == b;
        TwiceInSeq(out, i, j);
        OnceInSeq(nodes, a);
      }
    }
  }

  lemma TwiceInSeq(s: seq<NodeRecord>, i: nat, j: nat)
    requires i < |s| && j < |s| && i != j && s[i] == s[j]
    ensures multiset(s)[s[i]] >= 2
  {
    var lo, hi := if i < j then i else j, if i < j then j else i;
    assert s == s[..hi] + [s[hi]] + s[hi + 1..];
    assert s[..hi][lo] == s[i];
    assert multiset(s[..hi])[s[i]] >= 1;
  }

  lemma OnceInSeq(s: seq<NodeRecord>, a: nat)
    requires a < |s| && DistinctIds(s)
    ensures multiset(s)[s[a]] == 1
  {
    assert s == s[..a] + [s[a]] + s[a + 1..];
    assert forall i :: 0 <= i < a ==> s[..a][i].id != s[a].id;
    var rest := s[a + 1..];
    assert s[a] !in s[..a] && s[a] !in rest;
    assert multiset(s[..a])[s[a]] == 0 && multiset(s[a + 1..])[s[a]] == 0;
  }
}
