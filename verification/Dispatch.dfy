/** How a parent chooses the agent for a subtask (src/mycoagent/node/runtime.py,
    _dispatch), given what the manager answers. */
module Dispatch {
  import opened Models
  import opened Inflight
  import opened Scheduler
  import opened Catalog
  import Manager
  import Ordering
  import Text

  datatype Error = SameJob | SelfOrSibling | AcrossGroups | NotApproved | NotIdle | NoCandidate

  /** What `_dispatch` is called with, and the caller's own id and group. */
  datatype Request = Request(
    self: NodeId,
    group: string,
    spec: SubtaskSpec,
    exclude: set<NodeId>,
    target: Option<NodeId>)

  function Blocked(req: Request): set<NodeId> {
    req.exclude + {req.self}
  }

  function QueryOf(req: Request): Query {
    Query(req.group, true, req.spec.skills, req.spec.tools, Some(req.self),
          req.spec.model, req.spec.minContextWindow, req.spec.minMemoryMb)
  }

  function Unblocked(nodes: seq<NodeRecord>, blocked: set<NodeId>): (r: seq<NodeRecord>)
    ensures forall n :: n in r <==> n in nodes && n.id !in blocked
  {
    if nodes == [] then []
    else if nodes[0].id !in blocked then [nodes[0]] + Unblocked(nodes[1..], blocked)
    else Unblocked(nodes[1..], blocked)
  }

  /** The tests on a node that was named by the caller. */
  function CheckNamed(req: Request, n: NodeRecord): Option<Error> {
    if n.id in Blocked(req) || n.id == req.self then Some(SelfOrSibling)
    else if n.group != req.group then Some(AcrossGroups)
    else if n.membership != Approved then Some(NotApproved)
    else if n.status != Idle then Some(NotIdle)
    else None
  }

  /** The choice among the nodes of a catalog answer. */
  function ChooseListed(req: Request, answer: seq<NodeRecord>, counts: map<NodeId, nat>, cursor: nat): Result<Choice,
                        Error> {
    var candidates := Unblocked(answer, Blocked(req));
    var c := Pick(candidates, counts, cursor);
    if c.None? then Err(NoCandidate)
    else if c.value.node.id == req.self then Err(SelfOrSibling)
    else if c.value.node.group != req.group then Err(AcrossGroups)
    else Ok(c.value)
  }

  /** The choice of a node that the caller named; the round-robin cursor stays. */
  function ChooseNamed(req: Request, n: NodeRecord, cursor: nat): Result<Choice, Error> {
    match CheckNamed(req, n)
    case Some(e) => Err(e)
    case None => Ok(Choice(n, cursor))
  }

  /** A named target that is not refused before the manager is asked. */
  predicate AsksForNode(req: Request) {
    Given(req.target) && req.target.value !in Blocked(req)
  }

  /** What the manager said: a node's row, or the answer to the catalog query. */
  ghost predicate Answered(req: Request, mgr: Manager.State, answer: seq<NodeRecord>) {
    && (AsksForNode(req) ==> req.target.value in mgr.nodes && mgr.nodes[req.target.value].id == req.target.value)
    && (!Given(req.target) ==> IsAnswer(mgr, QueryOf(req), answer))
  }

  function Choose(req: Request, mgr: Manager.State, answer: seq<NodeRecord>, counts: map<NodeId, nat>, cursor: nat)
    : Result<Choice, Error>
    requires AsksForNode(req) ==> req.target.value in mgr.nodes
  {
    if !Given(req.target) then ChooseListed(req, answer, counts, cursor)
    else if req.target.value in Blocked(req) then Err(SelfOrSibling)
    else ChooseNamed(req, mgr.nodes[req.target.value], cursor)
  }

  /** The node can do what the spec demands; one of its models meets both demands on
      models. */
  ghost predicate Able(n: NodeRecord, spec: SubtaskSpec) {
    && (forall x :: x in spec.skills ==> x in n.skills)
    && (forall x :: x in spec.tools ==> x in n.toolsAvailable)
    && (spec.minMemoryMb.Some? ==> n.memoryMb >= spec.minMemoryMb.value)
    && (Given(spec.model) || spec.minContextWindow.Some? ==>
          exists m :: m in n.models
                      && (Given(spec.model) ==> m.name == spec.model.value)
                      && (spec.minContextWindow.Some? ==> Reaches(m, spec.minContextWindow.value)))
  }

  /** A node that this dispatch may use: in the caller's group, APPROVED and IDLE in
      the manager's tables, neither the caller nor excluded; the named target if
      there is one, and otherwise able to do what the spec demands. */
  ghost predicate Eligible(mgr: Manager.State, req: Request, n: NodeRecord) {
    && Listed(mgr, req.group, n)
    && n.status == Idle
    && n.id != req.self && n.id !in req.exclude
    && (if Given(req.target) then n.id == req.target.value else Able(n, req.spec))
  }

  /** An empty text given for a target or a model asks for none. */
  lemma EmptyAsksForNone(mgr: Manager.State, req: Request, n: NodeRecord)
    ensures Eligible(mgr, req.(target := Some("")), n) <==> Eligible(mgr, req.(target := None), n)
    ensures Able(n, req.spec.(model := Some(""))) <==> Able(n, req.spec.(model := None))
    ensures req.target.Some? && req.target.value != "" && Eligible(mgr, req, n) ==> n.id == req.target.value
  {
    var some, none := req.spec.(model := Some("")), req.spec.(model := None);
    if req.spec.minContextWindow.Some? {
      if Able(n, some) {
        var m :| m in n.models && Reaches(m, req.spec.minContextWindow.value);
        assert Able(n, none);
      }
      if Able(n, none) {
        var m :| m in n.models && Reaches(m, req.spec.minContextWindow.value);
        assert Able(n, some);
      }
    }
  }

  /** The chosen node is eligible, and a dispatch is refused exactly when no node is. */
  lemma ChosenIsEligible(req: Request, mgr: Manager.State, answer: seq<NodeRecord>, counts: map<NodeId, nat>,
                         cursor: nat)
    requires Answered(req, mgr, answer)
    ensures var r := Choose(req, mgr, answer, counts, cursor);
            && (r.Ok? ==> Eligible(mgr, req, r.value.node))
            && (r.Err? <==> forall n :: !Eligible(mgr, req, n))
  {
    hide Pick, Suits, Able, Text.Less, Ordering.Sorted;
    var r := Choose(req, mgr, answer, counts, cursor);
    if !Given(req.target) {
      var candidates := Unblocked(answer, Blocked(req));
      PickIsLeastLoaded(candidates, counts, cursor);
      forall n ensures Suits(n, QueryOf(req)) <==> Asked(req, n) { SuitsIffAsked(req, n); }
      if r.Err? {
        assert forall n :: n !in candidates;
        assert forall n :: Eligible(mgr, req, n) ==> n in answer;
      } else {
        assert r.value.node in candidates;
      }
    } else if AsksForNode(req) {
      var n := mgr.nodes[req.target.value];
      if r.Ok? { assert Eligible(mgr, req, n); }
    }
  }

  /** What the catalog query of a dispatch asks for. */
  ghost predicate Asked(req: Request, n: NodeRecord) {
    n.status == Idle && (req.self != "" ==> n.id != req.self) && Able(n, req.spec)
  }

  lemma SuitsIffAsked(req: Request, n: NodeRecord)
    ensures Suits(n, QueryOf(req)) <==> Asked(req, n)
  {
    var q := QueryOf(req);
    if Suits(n, q) && (Given(q.model) || q.minContextWindow.Some?) {
      var m :| m in n.models && Serves(m, q);
      assert m in n.models;
    }
    if Asked(req, n) && (Given(q.model) || q.minContextWindow.Some?) {
      var m :| m in n.models && (Given(q.model) ==> m.name == q.model.value)
               && (q.minContextWindow.Some? ==> Reaches(m, q.minContextWindow.value));
      assert Serves(m, q);
    }
  }

  /** Among the eligible nodes of a catalog dispatch the chosen one is least loaded. */
  lemma ChosenIsLeastLoaded(req: Request, mgr: Manager.State, answer: seq<NodeRecord>, counts: map<NodeId, nat>,
                            cursor: nat, n: NodeRecord)
    requires Answered(req, mgr, answer) && !Given(req.target) && Eligible(mgr, req, n)
    ensures var r := Choose(req, mgr, answer, counts, cursor);
            r.Ok? && LoadOf(counts, r.value.node.id) <= LoadOf(counts, n.id)
  {
    ChosenIsEligible(req, mgr, answer, counts, cursor);
    hide Pick, Suits, Able, Text.Less, Ordering.Sorted;
    SuitsIffAsked(req, n);
    var candidates := Unblocked(answer, Blocked(req));
    PickIsLeastLoaded(candidates, counts, cursor);
    assert n in answer && n in candidates;
  }
}
