/** How many subtasks each agent is working on, counted over a whole job store
    (src/mycoagent/node/jobs.py, inflight_counts). */
module Inflight {
  import opened Models
  import opened Jobs

  /** A subtask counts for its assignee while it is ASSIGNED or RUNNING; an empty
      assignee id counts for nobody. */
  predicate CountsFor(r: SubtaskRecord, a: NodeId) {
    a != "" && r.assignee == Some(a) && r.status.InFlight()
  }

  ghost function InflightIn(j: JobId, rs: seq<SubtaskRecord>, a: NodeId): set<(JobId, int)> {
    set i | 0 <= i < |rs| && CountsFor(rs[i], a) :: (j, i)
  }

  /** The positions, in the given jobs, of the subtasks that count for `a`. */
  ghost function InflightOf(st: Store, jobs: set<JobId>, a: NodeId): set<(JobId, int)> {
    set j, i | j in jobs && j in st && 0 <= i < |st[j].subtasks| && CountsFor(st[j].subtasks[i], a) :: (j, i)
  }

  ghost function InflightCount(st: Store, a: NodeId): nat {
    |InflightOf(st, st.Keys, a)|
  }

  function LoadOf(counts: map<NodeId, nat>, a: NodeId): nat {
    if a in counts then counts[a] else 0
  }

  lemma InflightPush(j: JobId, rs: seq<SubtaskRecord>, k: nat, a: NodeId)
    requires k < |rs|
    ensures |InflightIn(j, rs[..k + 1], a)|
         == |InflightIn(j, rs[..k], a)| + if CountsFor(rs[k], a) then 1 else 0
  {
    var before, after := InflightIn(j, rs[..k], a), InflightIn(j, rs[..k + 1], a);
    var extra := if CountsFor(rs[k], a) then {(j, k as int)} else {};
    forall p
      ensures p in after <==> p in before + extra
    {
      if p.0 == j && 0 <= p.1 <= k { assert rs[..k + 1][p.1] == rs[p.1]; }
      if p.0 == j && 0 <= p.1 < k { assert rs[..k][p.1] == rs[p.1]; }
    }
    assert after == before + extra;
    assert before !! extra;
  }

  lemma InflightJob(st: Store, jobs: set<JobId>, j: JobId, a: NodeId)
    requires j in st && j !in jobs
    ensures |InflightOf(st, jobs + {j}, a)| == |InflightOf(st, jobs, a)| + |InflightIn(j, st[j].subtasks, a)|
  {
    assert InflightOf(st, jobs + {j}, a) == InflightOf(st, jobs, a) + InflightIn(j, st[j].subtasks, a);
    assert InflightOf(st, jobs, a) !! InflightIn(j, st[j].subtasks, a);
  }

  predicate CountsAt(st: Store, p: (JobId, int), a: NodeId) {
    p.0 in st && 0 <= p.1 < |st[p.0].subtasks| && CountsFor(st[p.0].subtasks[p.1], a)
  }

  lemma InflightIffCountsAt(st: Store, a: NodeId, p: (JobId, int))
    ensures p in InflightOf(st, st.Keys, a) <==> CountsAt(st, p, a)
  {}

  /** Two stores whose countable positions differ by `extra` have counts that do. */
  lemma CountDiffers(before: Store, after: Store, a: NodeId, extra: set<(JobId, int)>)
    requires forall p :: CountsAt(after, p, a) <==> CountsAt(before, p, a) || p in extra
    requires forall p :: p in extra ==> !CountsAt(before, p, a)
    ensures InflightCount(after, a) == InflightCount(before, a) + |extra|
  {
    var x, y := InflightOf(before, before.Keys, a), InflightOf(after, after.Keys, a);
    forall p ensures p in y <==> p in x + extra {
      InflightIffCountsAt(before, a, p);
      InflightIffCountsAt(after, a, p);
    }
    assert y == x + extra;
    forall p | p in extra ensures p !in x { InflightIffCountsAt(before, a, p); }
    assert x !! extra;
  }

  /** One write moves each agent's count by what the written record counted for before
      and counts for after. */
  lemma AmendCounts(st: Store, j: JobId, i: nat, c: Change, a: NodeId)
    requires j in st && i < |st[j].subtasks| && DistinctIds(st[j].subtasks)
    ensures HasId(st[j].subtasks, st[j].subtasks[i].id)
    ensures var r := st[j].subtasks[i];
            InflightCount(UpdateSubtask(st, j, r.id, c).value, a) + (if CountsFor(r, a) then 1 else 0)
            == InflightCount(st, a) + (if CountsFor(Amend(r, c), a) then 1 else 0)
  {
    var rs := st[j].subtasks;
    assert HasId(rs, rs[i].id);
    var next := UpdateSubtask(st, j, rs[i].id, c).value;
    assert next[j].subtasks == AmendAll(rs, rs[i].id, c);
    forall k | 0 <= k < |rs| && k != i ensures next[j].subtasks[k] == rs[k] {
      assert rs[k].id != rs[i].id;
    }
    var before, after := CountsFor(rs[i], a), CountsFor(Amend(rs[i], c), a);
    if before && !after {
      CountDiffers(next, st, a, {(j, i as int)});
    } else {
      CountDiffers(st, next, a, if after && !before then {(j, i as int)} else {});
    }
  }

  /** The ASSIGNED write of one dispatch raises the target's count by one and
      changes no other count. */
  lemma AssignRaisesOne(st: Store, j: JobId, i: nat, to: NodeId, a: NodeId)
    requires j in st && i < |st[j].subtasks| && DistinctIds(st[j].subtasks)
    requires !st[j].subtasks[i].status.InFlight() && to != ""
    requires UpdateSubtask(st, j, st[j].subtasks[i].id, Assign(to)).Ok?
    ensures InflightCount(UpdateSubtask(st, j, st[j].subtasks[i].id, Assign(to)).value, a)
         == InflightCount(st, a) + if a == to then 1 else 0
  {
    hide InflightCount;
    AmendCounts(st, j, i, Assign(to), a);
  }

  /** The RUNNING write after an accepted assignment changes no count. */
  lemma RunningKeepsCounts(st: Store, j: JobId, i: nat, a: NodeId)
    requires j in st && i < |st[j].subtasks| && DistinctIds(st[j].subtasks)
    requires st[j].subtasks[i].status.Assigned?
    requires UpdateSubtask(st, j, st[j].subtasks[i].id, StartRunning).Ok?
    ensures InflightCount(UpdateSubtask(st, j, st[j].subtasks[i].id, StartRunning).value, a) == InflightCount(st, a)
  {
    hide InflightCount;
    AmendCounts(st, j, i, StartRunning, a);
  }

  /** Handling the result that a subtask's assignee reports gives its place back, and takes
      no other. */
  lemma ResultGivesBack(st: Store, j: JobId, i: nat, m: ResultMessage, a: NodeId)
    requires j in st && i < |st[j].subtasks| && DistinctIds(st[j].subtasks)
    requires st[j].subtasks[i].status.InFlight() && st[j].subtasks[i].assignee == Some(m.child) && m.child != ""
    requires m.status == Completed || m.status == Failed
    ensures var r := UpdateSubtask(st, j, st[j].subtasks[i].id, Accept(m));
            r.Ok? && InflightCount(r.value, a) == InflightCount(st, a) - if a == m.child then 1 else 0
  {
    hide InflightCount;
    AmendCounts(st, j, i, Accept(m), a);
  }

  /** The writes of one dispatch that fails, ASSIGNED and FAILED, leave every count as it
      was, and so does the FAILED write of the caller's handler after them. */
  lemma FailureGivesBack(st: Store, j: JobId, i: nat, to: NodeId, reason: string, a: NodeId)
    requires j in st && i < |st[j].subtasks| && DistinctIds(st[j].subtasks)
    requires !st[j].subtasks[i].status.InFlight()
    ensures var id := st[j].subtasks[i].id;
            var marked := UpdateSubtask(st, j, id, Assign(to));
            && marked.Ok?
            && var failed := UpdateSubtask(marked.value, j, id, FailWith(reason));
            && failed.Ok?
            && var again := UpdateSubtask(failed.value, j, id, FailWith(reason));
            && again.Ok?
            && InflightCount(failed.value, a) == InflightCount(again.value, a) == InflightCount(st, a)
  {
    hide InflightCount;
    var id := st[j].subtasks[i].id;
    AmendCounts(st, j, i, Assign(to), a);
    var marked := UpdateSubtask(st, j, id, Assign(to)).value;
    UpdateKeepsIds(st, j, i, Assign(to));
    AmendCounts(marked, j, i, FailWith(reason), a);
    var failed := UpdateSubtask(marked, j, id, FailWith(reason)).value;
    UpdateKeepsIds(marked, j, i, FailWith(reason));
    AmendCounts(failed, j, i, FailWith(reason), a);
  }

  /** A write keeps the ids of a job's records, and changes the one that has the id. */
  lemma UpdateKeepsIds(st: Store, j: JobId, i: nat, c: Change)
    requires j in st && i < |st[j].subtasks| && DistinctIds(st[j].subtasks)
    ensures HasId(st[j].subtasks, st[j].subtasks[i].id)
    ensures var rs := st[j].subtasks;
            var next := UpdateSubtask(st, j, rs[i].id, c).value;
            && next.Keys == st.Keys && |next[j].subtasks| == |rs| && DistinctIds(next[j].subtasks)
            && (forall k :: 0 <= k < |rs| ==> next[j].subtasks[k] == if k == i then Amend(rs[i], c) else rs[k])
            && (forall k :: k in st && k != j ==> next[k] == st[k])
  {
    var rs := st[j].subtasks;
    assert HasId(rs, rs[i].id);
    var next := UpdateSubtask(st, j, rs[i].id, c).value;
    assert next[j].subtasks == AmendAll(rs, rs[i].id, c);
    forall k | 0 <= k < |rs| && k != i ensures next[j].subtasks[k] == rs[k] {
      assert rs[k].id != rs[i].id;
    }
  }
}
