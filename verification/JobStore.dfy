/** The class that holds a parent's jobs and keeps the SQLite copy
    (src/mycoagent/node/jobs.py, JobStore). */
module JobStores {
  import opened Models
  import opened Jobs
  import opened Inflight

  /** The `jobs` table: one row per job id, holding the serialised job. */
  class JobTable {
    var rows: Store

    constructor ()
      ensures rows == map[]
    {
      rows := map[];
    }
  }

  /** A record as it is created: what was asked for, not yet dispatched. */
  predicate New(r: SubtaskRecord, id: SubtaskId, spec: SubtaskSpec) {
    && r.id == id && r.spec == spec && r.status == PendingTask
    && r.assignee == None && r.result == None && r.error == None && r.artifactIds == []
  }

  class JobStore {
    var jobs: Store
    const table: JobTable?  // null when no path is configured

    /** The rows are the in-memory map, and each job is filed under its own id. */
    ghost predicate Valid()
      reads this, table
    {
      && (table != null ==> table.rows == jobs)
      && forall j :: j in jobs ==> jobs[j].jobId == j
    }

    /** Opens a store and loads every row of its table. */
    constructor (path: JobTable?)
      requires path != null ==> forall j :: j in path.rows ==> path.rows[j].jobId == j
      ensures table == path && Valid()
      ensures jobs == if path == null then map[] else path.rows
    {
      table := path;
      jobs := map[];
      new;
      if path != null {
        var left := path.rows.Keys;
        while left != {}
          invariant left <= path.rows.Keys
          invariant jobs == map j | j in path.rows && j !in left :: path.rows[j]
          decreases left
        {
          var j :| j in left;
          jobs := jobs[path.rows[j].jobId := path.rows[j]];
          left := left - {j};
        }
      }
    }

    method Persist(job: JobMemory)
      requires table != null ==> jobs == table.rows[job.jobId := job]
      modifies table
      ensures table != null ==> table.rows == jobs
    {
      if table != null {
        table.rows := table.rows[job.jobId := job];
      }
    }

    method Create(j: JobId, parent: NodeId, description: string, specs: seq<SubtaskSpec>, ids: seq<SubtaskId>)
      returns (job: JobMemory)
      requires Valid() && |specs| == |ids|
      modifies this, table
      ensures Valid() && jobs == Jobs.Create(old(jobs), j, parent, description, specs, ids)
      ensures job == jobs[j] && job.jobId == j && job.parent == parent && job.description == description
      ensures job.status == JobRunning && job.localResult == None && job.error == None && |job.subtasks| == |ids|
      ensures forall i :: 0 <= i < |ids| ==> New(job.subtasks[i], ids[i], specs[i])
    {
      job := NewJob(j, parent, description, specs, ids);
      jobs := jobs[j := job];
      Persist(job);
    }

    method Get(j: JobId) returns (job: Option<JobMemory>)
      requires Valid()
      ensures job == if j in jobs then Some(jobs[j]) else None
    {
      if j in jobs { job := Some(jobs[j]); } else { job := None; }
    }

    /** Counts per assignee; an agent is listed exactly when it has work in flight. */
    method InflightCounts() returns (counts: map<NodeId, nat>)
      requires Valid()
      ensures forall a :: LoadOf(counts, a) == InflightCount(jobs, a)
      ensures forall a :: a in counts ==> a != "" && counts[a] > 0
    {
      counts := map[];
      var left := jobs.Keys;
      while left != {}
        invariant left <= jobs.Keys
        invariant forall a :: LoadOf(counts, a) == |InflightOf(jobs, jobs.Keys - left, a)|
        invariant forall a :: a in counts ==> a != "" && counts[a] > 0
        decreases left
      {
        var j :| j in left;
        var rs := jobs[j].subtasks;
        ghost var done := jobs.Keys - left;
        ghost var earlier := counts;
        for k := 0 to |rs|
          invariant forall a :: LoadOf(counts, a) == LoadOf(earlier, a) + |InflightIn(j, rs[..k], a)|
          invariant forall a :: a in counts ==> a != "" && counts[a] > 0
        {
          forall a ensures |InflightIn(j, rs[..k + 1], a)|
                        == |InflightIn(j, rs[..k], a)| + if CountsFor(rs[k], a) then 1 else 0
          {
            InflightPush(j, rs, k, a);
          }
          if rs[k].assignee.Some? && rs[k].assignee.value != "" && rs[k].status.InFlight() {
            var a := rs[k].assignee.value;
            counts := counts[a := LoadOf(counts, a) + 1];
          }
        }
        assert rs[..|rs|] == rs;
        forall a ensures |InflightOf(jobs, done + {j}, a)| == |InflightOf(jobs, done, a)| + |InflightIn(j, rs, a)| {
          InflightJob(jobs, done, j, a);
        }
        left := left - {j};
        assert jobs.Keys - left == done + {j};
      }
      assert jobs.Keys - left == jobs.Keys;
    }

    /** Rewrites every record with the given id and re-derives the job's status. */
    method UpdateSubtask(j: JobId, s: SubtaskId, c: Change) returns (r: Result<JobMemory, StoreError>)
      requires Valid()
      modifies this, table
      ensures Valid()
      ensures match Jobs.UpdateSubtask(old(jobs), j, s, c)
              case Ok(next) => jobs == next && r == Ok(next[j])
              case Err(e) => jobs == old(jobs) && r == Err(e)
      ensures r == Err(UnknownJob(j)) <==> j !in old(jobs)
      ensures r == Err(UnknownSubtask(s))
         <==> j in old(jobs) && forall i :: 0 <= i < |old(jobs)[j].subtasks| ==> old(jobs)[j].subtasks[i].id != s
    {
      if j !in jobs { return Err(UnknownJob(j)); }
      var job := jobs[j];
      var updated: seq<SubtaskRecord> := [];
      var found := false;
      for k := 0 to |job.subtasks|
        invariant updated == AmendAll(job.subtasks[..k], s, c)
        invariant found <==> HasId(job.subtasks[..k], s)
      {
        var item := job.subtasks[k];
        assert job.subtasks[..k + 1] == job.subtasks[..k] + [item];
        if item.id == s {
          found := true;
          assert job.subtasks[..k + 1][k].id == s;
          updated := updated + [Amend(item, c)];
        } else {
          assert HasId(job.subtasks[..k], s) ==> HasId(job.subtasks[..k + 1], s) by {
            if i :| 0 <= i < k && job.subtasks[..k][i].id == s { assert job.subtasks[..k + 1][i].id == s; }
          }
          updated := updated + [item];
        }
      }
      assert job.subtasks[..|job.subtasks|] == job.subtasks;
      if !found { return Err(UnknownSubtask(s)); }
      job := Rolled(job.(subtasks := updated));
      jobs := jobs[j := job];
      Persist(job);
      r := Ok(job);
    }

    method AddSubtask(j: JobId, spec: SubtaskSpec, id: SubtaskId) returns (r: Result<JobMemory, StoreError>)
      requires Valid()
      modifies this, table
      ensures Valid()
      ensures match Jobs.AddSubtask(old(jobs), j, spec, id)
              case Ok(next) => jobs == next && r == Ok(next[j])
              case Err(e) => jobs == old(jobs) && r == Err(e)
      ensures r.Ok? ==>
                var rs := r.value.subtasks;
                && j in old(jobs) && |rs| == |old(jobs)[j].subtasks| + 1 && New(rs[|rs| - 1], id, spec)
                && rs[..|rs| - 1] == old(jobs)[j].subtasks
      ensures r == Err(UnknownJob(j)) <==> j !in old(jobs)
    {
      if j !in jobs { return Err(UnknownJob(j)); }
      var job := jobs[j];
      job := Rolled(job.(subtasks := job.subtasks + [RecordFromSpec(spec, id)]));
      jobs := jobs[j := job];
      Persist(job);
      r := Ok(job);
    }

    method CompleteLocal(j: JobId, text: string) returns (r: Result<JobMemory, StoreError>)
      requires Valid()
      modifies this, table
      ensures Valid()
      ensures match Jobs.CompleteLocal(old(jobs), j, text)
              case Ok(next) => jobs == next && r == Ok(next[j])
              case Err(e) => jobs == old(jobs) && r == Err(e)
      ensures r.Ok? ==> r.value.localResult == Some(text) && r.value.subtasks == old(jobs)[j].subtasks
    {
      if j !in jobs { return Err(UnknownJob(j)); }
      var job := Rolled(jobs[j].(localResult := Some(text)));
      jobs := jobs[j := job];
      Persist(job);
      r := Ok(job);
    }

    method Fail(j: JobId, error: string) returns (r: Result<JobMemory, StoreError>)
      requires Valid()
      modifies this, table
      ensures Valid()
      ensures match Jobs.Fail(old(jobs), j, error)
              case Ok(next) => jobs == next && r == Ok(next[j])
              case Err(e) => jobs == old(jobs) && r == Err(e)
      ensures r.Ok? ==> r.value.error == Some(error) && r.value.status == JobFailed
    {
      if j !in jobs { return Err(UnknownJob(j)); }
      var job := jobs[j].(error := Some(error), status := JobFailed);
      jobs := jobs[j := job];
      Persist(job);
      r := Ok(job);
    }
  }

  /** Closing a persistent store after any operation and opening its table again
      gives a store with the same jobs. */
  method Restart(before: JobStore) returns (after: JobStore)
    requires before.Valid() && before.table != null
    ensures after.Valid() && after.table == before.table && after.jobs == before.jobs
  {
    after := new JobStore(before.table);
  }
}
