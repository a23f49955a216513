/** A node's membership is explained by its history alone: the last approve or deny
    since it entered its group, or else the group's join mode at that moment. */
module MembershipHistory {
  import opened Models
  import opened Timestamps
  import opened Manager

  /** The state before step k. */
  function At(steps: seq<Step>, timeout: nat, k: nat): State
    requires StepsOk(steps, timeout) && k <= |steps|
  {
    assert StepsOk(steps[..k], timeout);
    Run(EMPTY, steps[..k], timeout)
  }

  predicate IsDecision(s: Step, group: string, id: NodeId) {
    s.MembershipStep? && s.group == group && s.id == id
  }

  /** Step k registers the node into the group, which it was not in before, and it
      has been in the group ever since. */
  ghost predicate Entered(steps: seq<Step>, timeout: nat, id: NodeId, group: string, k: nat)
    requires StepsOk(steps, timeout)
  {
    && k < |steps|
    && steps[k].RegisterStep? && steps[k].id == id && steps[k].req.group == group
    && group in At(steps, timeout, k).groups
    && !InGroup(At(steps, timeout, k), id, group)
    && forall m :: k < m <= |steps| ==> InGroup(At(steps, timeout, m), id, group)
  }

  ghost predicate Undecided(steps: seq<Step>, id: NodeId, group: string, k: nat) {
    forall q :: k < q < |steps| ==> !IsDecision(steps[q], group, id)
  }

  ghost predicate DecidedLast(steps: seq<Step>, id: NodeId, group: string, k: nat, m: nat) {
    && k < m < |steps|
    && IsDecision(steps[m], group, id)
    && Undecided(steps, id, group, m)
  }

  /** A manual group makes an entering node wait, an automatic one admits it. */
  predicate IsDefault(membership: Membership, mode: JoinMode) {
    && (mode == JoinMode.Manual ==> membership == Membership.Pending)
    && (mode == JoinMode.Auto ==> membership == Membership.Approved)
  }

  /** What the history from the entry at step k says the membership is. */
  ghost predicate Explains(steps: seq<Step>, timeout: nat, id: NodeId, group: string, k: nat, membership: Membership)
    requires StepsOk(steps, timeout)
  {
    && Entered(steps, timeout, id, group, k)
    && (Undecided(steps, id, group, k) ==>
          IsDefault(membership, At(steps, timeout, k).groups[group].joinMode))
    && (forall m: nat :: DecidedLast(steps, id, group, k, m) ==> membership == steps[m].verdict)
  }

  lemma AtPrefix(steps: seq<Step>, timeout: nat, n: nat, k: nat)
    requires StepsOk(steps, timeout) && k <= n <= |steps|
    ensures StepsOk(steps[..n], timeout)
    ensures At(steps[..n], timeout, k) == At(steps, timeout, k)
  {
    assert steps[..n][..k] == steps[..k];
  }

  lemma AtNext(steps: seq<Step>, timeout: nat)
    requires StepsOk(steps, timeout) && steps != []
    ensures StepsOk(steps[..|steps| - 1], timeout)
    ensures At(steps, timeout, |steps|)
         == Apply(At(steps[..|steps| - 1], timeout, |steps| - 1), steps[|steps| - 1], timeout)
  {
    assert steps[..|steps|] == steps;
    assert steps[..|steps| - 1][..|steps| - 1] == steps[..|steps| - 1];
  }

  /** Only a decision or a move between groups changes a node's membership. */
  lemma OneStep(st: State, s: Step, timeout: nat, id: NodeId)
    requires WellFormed(st) && StepOk(s, timeout) && id in Apply(st, s, timeout).nodes
    ensures var after := Apply(st, s, timeout);
            var group := after.nodes[id].group;
            if InGroup(st, id, group)
            then after.nodes[id].membership == (if IsDecision(s, group, id) then s.verdict else st.nodes[id].membership)
            else s.RegisterStep? && s.id == id && s.req.group == group && group in st.groups
                 && IsDefault(after.nodes[id].membership, st.groups[group].joinMode)
  {
    hide Iso, Cutoff;
  }

  lemma ExtendEntered(steps: seq<Step>, timeout: nat, id: NodeId, group: string, k: nat)
    requires StepsOk(steps, timeout) && steps != [] && StepsOk(steps[..|steps| - 1], timeout)
    requires Entered(steps[..|steps| - 1], timeout, id, group, k)
    requires InGroup(At(steps, timeout, |steps|), id, group)
    ensures Entered(steps, timeout, id, group, k)
  {
    hide InGroup, At;
    var front := steps[..|steps| - 1];
    AtPrefix(steps, timeout, |front|, k);
    forall m | k < m <= |steps| ensures InGroup(At(steps, timeout, m), id, group) {
      if m <= |front| { AtPrefix(steps, timeout, |front|, m); }
    }
  }

  lemma ExtendExplains(steps: seq<Step>, timeout: nat, id: NodeId, group: string, k: nat, before: Membership,
                       after: Membership)
    requires StepsOk(steps, timeout) && steps != [] && StepsOk(steps[..|steps| - 1], timeout)
    requires Explains(steps[..|steps| - 1], timeout, id, group, k, before)
    requires InGroup(At(steps, timeout, |steps|), id, group)
    requires var last := steps[|steps| - 1];
             after == if IsDecision(last, group, id) then last.verdict else before
    ensures Explains(steps, timeout, id, group, k, after)
  {
    hide InGroup, At;
    var front, last := steps[..|steps| - 1], steps[|steps| - 1];
    ExtendEntered(steps, timeout, id, group, k);
    AtPrefix(steps, timeout, |front|, k);
    if Undecided(steps, id, group, k) {
      assert forall q :: k < q < |front| ==> front[q] == steps[q];
      assert Undecided(front, id, group, k);
      assert !IsDecision(last, group, id);
    }
    forall m: nat | DecidedLast(steps, id, group, k, m) ensures after == steps[m].verdict {
      if m < |front| {
        assert front[m] == steps[m];
        assert forall q :: m < q < |front| ==> front[q] == steps[q];
        assert DecidedLast(front, id, group, k, m);
        assert !IsDecision(last, group, id);
      }
    }
  }

  /** Either nothing was decided since entry, or there is a last decision. */
  lemma {:induction false} LastDecision(steps: seq<Step>, id: NodeId, group: string, k: nat, q: nat) returns (m: nat)
    requires k < q < |steps| && IsDecision(steps[q], group, id)
    ensures DecidedLast(steps, id, group, k, m)
    decreases |steps| - q
  {
    m := q;
    if !Undecided(steps, id, group, q) {
      var r :| q < r < |steps| && IsDecision(steps[r], group, id);
      m := LastDecision(steps, id, group, k, r);
    }
  }

  /** In every reachable state every node's membership is the one its history
      since entering its current group explains. */
  lemma {:induction false} MembershipIsHistory(steps: seq<Step>, timeout: nat, id: NodeId) returns (k: nat)
    requires StepsOk(steps, timeout) && id in At(steps, timeout, |steps|).nodes
    ensures var row := At(steps, timeout, |steps|).nodes[id];
            Explains(steps, timeout, id, row.group, k, row.membership)
  {
    hide Apply, Iso, Cutoff, Explains;
    if steps == [] {
      assert false;
    } else {
      var front, last := steps[..|steps| - 1], steps[|steps| - 1];
      AtNext(steps, timeout);
      assert front[..|front|] == front;
      RowsAlwaysWellFormed(EMPTY, front, timeout);
      var st, after := At(front, timeout, |front|), At(steps, timeout, |steps|);
      var group := after.nodes[id].group;
      OneStep(st, last, timeout, id);
      if InGroup(st, id, group) {
        k := MembershipIsHistory(front, timeout, id);
        ExtendExplains(steps, timeout, id, group, k, st.nodes[id].membership, after.nodes[id].membership);
      } else {
        k := |front|;
        AtPrefix(steps, timeout, |front|, |front|);
        EntryExplains(steps, timeout, id, group, after.nodes[id].membership);
      }
    }
  }

  lemma EntryExplains(steps: seq<Step>, timeout: nat, id: NodeId, group: string, membership: Membership)
    requires StepsOk(steps, timeout) && steps != []
    requires Entered(steps, timeout, id, group, |steps| - 1)
    requires IsDefault(membership, At(steps, timeout, |steps| - 1).groups[group].joinMode)
    ensures Explains(steps, timeout, id, group, |steps| - 1, membership)
  {}

  /** Nobody enters a manual group unasked: a node that entered it while it was manual is
      approved only if an approval of the group came after. */
  lemma ManualNeedsApproval(steps: seq<Step>, timeout: nat, id: NodeId) returns (k: nat, m: nat)
    requires StepsOk(steps, timeout) && id in At(steps, timeout, |steps|).nodes
    ensures var row := At(steps, timeout, |steps|).nodes[id];
            && Entered(steps, timeout, id, row.group, k)
            && (At(steps, timeout, k).groups[row.group].joinMode == JoinMode.Manual
                && row.membership == Membership.Approved ==>
                  && k < m < |steps| && steps[m].MembershipStep? && steps[m].group == row.group && steps[m].id == id
                  && steps[m].verdict == Membership.Approved)
  {
    hide At, InGroup;
    k := MembershipIsHistory(steps, timeout, id);
    m := 0;
    var group := At(steps, timeout, |steps|).nodes[id].group;
    if q :| k < q < |steps| && IsDecision(steps[q], group, id) {
      m := LastDecision(steps, id, group, k, q);
    }
  }

  // ----- what the other calls write

  /** Registration is refused exactly for an unknown group, or a name that the group's
      list, if it has one, leaves out. Otherwise it writes one row, from the request:
      IDLE, seen now, and created when the node first registered. */
  lemma RegistrationWrites(st: State, req: RegisterRequest, id: NodeId, now: Instant)
    requires Valid(now)
    ensures var r := Register(st, req, id, now);
            && (r == Err(GroupNotFound) <==> req.group !in st.groups)
            && (r == Err(RegisterForbidden) <==>
                  req.group in st.groups && st.groups[req.group].allowRegister != []
                  && req.name !in st.groups[req.group].allowRegister)
            && (r.Ok? <==>
                  req.group in st.groups
                  && (st.groups[req.group].allowRegister == [] || req.name in st.groups[req.group].allowRegister))
            && (r.Ok? ==>
                  && r.value.groups == st.groups && r.value.nodes.Keys == st.nodes.Keys + {id}
                  && (forall n :: n in st.nodes && n != id ==> r.value.nodes[n] == st.nodes[n])
                  && var row := r.value.nodes[id];
                     && row.id == id && row.name == req.name && row.group == req.group && row.memoryMb == req.memoryMb
                     && row.models == req.models && row.skills == req.skills
                     && row.toolsDeclared == req.toolsDeclared && row.toolsAvailable == req.toolsAvailable
                     && row.status == NodeStatus.Idle && row.lastSeen == Iso(now)
                     && row.createdAt == (if id in st.nodes then st.nodes[id].createdAt else Iso(now)))
  {
    hide Iso;
  }

  /** A heartbeat or a decision is refused exactly for an unknown node, or one of another
      group, and touches one row. A heartbeat sets status and last seen, and replaces the
      tools and models that it carries; a decision sets the membership. */
  lemma OneRowChanges(st: State, id: NodeId, beat: HeartbeatRequest, now: Instant, group: string, verdict: Membership)
    requires Valid(now)
    ensures var b, v := Heartbeat(st, id, beat, now), SetMembership(st, group, id, verdict);
            && (b == Err(NodeNotFound) <==> id !in st.nodes) && (b.Ok? <==> id in st.nodes)
            && (v == Err(NodeNotFound) <==> id !in st.nodes)
            && (v == Err(NotInGroup) <==> id in st.nodes && st.nodes[id].group != group)
            && (v.Ok? <==> InGroup(st, id, group))
            && (forall r :: (r == b || r == v) && r.Ok? ==>
                  && r.value.groups == st.groups && r.value.nodes.Keys == st.nodes.Keys
                  && (forall n :: n in st.nodes && n != id ==> r.value.nodes[n] == st.nodes[n]))
            && (b.Ok? ==>
                  var old_, row := st.nodes[id], b.value.nodes[id];
                  && row.status == beat.status && row.lastSeen == Iso(now)
                  && (beat.toolsAvailable.Some? ==> row.toolsAvailable == beat.toolsAvailable.value)
                  && (beat.models.Some? ==> row.models == beat.models.value)
                  && (beat.toolsAvailable.None? ==> row.toolsAvailable == old_.toolsAvailable)
                  && (beat.models.None? ==> row.models == old_.models)
                  && row.id == old_.id && row.name == old_.name && row.group == old_.group && row.skills == old_.skills
                  && row.memoryMb == old_.memoryMb && row.toolsDeclared == old_.toolsDeclared
                  && row.createdAt == old_.createdAt && row.membership == old_.membership)
            && (v.Ok? ==> v.value.nodes[id] == st.nodes[id].(membership := verdict))
  {
    hide Iso;
  }

  /** Deleting a group removes exactly the nodes that were in it. */
  lemma DeletionRemovesItsNodes(st: State, name: string, id: NodeId)
    requires name in st.groups
    ensures id in DeleteGroup(st, name).value.nodes <==> id in st.nodes && !InGroup(st, id, name)
    ensures id in DeleteGroup(st, name).value.nodes ==> DeleteGroup(st, name).value.nodes[id] == st.nodes[id]
  {}
}
