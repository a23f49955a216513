/** The parent's job memory (src/mycoagent/node/jobs.py): what each write does to
    the map of jobs. */
module Jobs {
  import opened Models

  type Store = map<JobId, JobMemory>

  datatype StoreError = UnknownJob(job: JobId) | UnknownSubtask(sub: SubtaskId)

  /** The writes that the runtime makes to a subtask record. */
  datatype Change =
    | Assign(to: NodeId)
    | StartRunning
    | FailWith(reason: string)
    | Accept(message: ResultMessage)

  // ----- records and roll-up

  function Amend(r: SubtaskRecord, c: Change): SubtaskRecord {
    match c
    case Assign(to) => r.(status := Assigned, assignee := Some(to))
    case StartRunning => r.(status := Running)
    case FailWith(reason) => r.(status := Failed, error := Some(reason))
    case Accept(m) =>
      r.(status := m.status, result := m.result, error := m.error, assignee := Some(m.child),
         artifactIds := m.artifactIds)
  }

  function AmendAll(rs: seq<SubtaskRecord>, s: SubtaskId, c: Change): (out: seq<SubtaskRecord>)
    ensures |out| == |rs|
    ensures forall i :: 0 <= i < |rs| ==> out[i] == if rs[i].id == s then Amend(rs[i], c) else rs[i]
  {
    seq(|rs|, i requires 0 <= i < |rs| => if rs[i].id == s then Amend(rs[i], c) else rs[i])
  }

  predicate HasId(rs: seq<SubtaskRecord>, s: SubtaskId) {
    exists i :: 0 <= i < |rs| && rs[i].id == s
  }

  predicate DistinctIds(rs: seq<SubtaskRecord>) {
    forall i, j :: 0 <= i < j < |rs| ==> rs[i].id != rs[j].id
  }

  function Truthy(text: Option<string>): bool {
    text.Some? && text.value != ""
  }

  function RollUp(job: JobMemory): JobStatus {
    if Truthy(job.error) then JobFailed
    else if job.subtasks == [] then (if job.localResult.Some? then JobCompleted else JobRunning)
    else if exists i :: 0 <= i < |job.subtasks| && job.subtasks[i].status.Failed? then JobFailed
    else if forall i :: 0 <= i < |job.subtasks| ==> job.subtasks[i].status.Completed? then JobCompleted
    else JobRunning
  }

  function Rolled(job: JobMemory): (r: JobMemory)
    ensures r == job.(status := r.status) && r.status == RollUp(r)
  {
    job.(status := RollUp(job))
  }

  function RecordFromSpec(spec: SubtaskSpec, id: SubtaskId): SubtaskRecord {
    SubtaskRecord(id, spec, None, PendingTask, None, None, [])
  }

  function RecordsFromSpecs(specs: seq<SubtaskSpec>, ids: seq<SubtaskId>): (rs: seq<SubtaskRecord>)
    requires |specs| == |ids|
    ensures |rs| == |ids| && forall i :: 0 <= i < |ids| ==> rs[i] == RecordFromSpec(specs[i], ids[i])
  {
    seq(|ids|, i requires 0 <= i < |ids| => RecordFromSpec(specs[i], ids[i]))
  }

  // ----- the operations on the whole map

  function NewJob(j: JobId, parent: NodeId, description: string, specs: seq<SubtaskSpec>,
                  ids: seq<SubtaskId>): JobMemory
    requires |specs| == |ids|
  {
    JobMemory(j, description, parent, JobRunning, RecordsFromSpecs(specs, ids), None, None)
  }

  function Create(st: Store, j: JobId, parent: NodeId, description: string,
                  specs: seq<SubtaskSpec>, ids: seq<SubtaskId>): Store
    requires |specs| == |ids|
  {
    st[j := NewJob(j, parent, description, specs, ids)]
  }

  function UpdatedJob(job: JobMemory, s: SubtaskId, c: Change): JobMemory {
    Rolled(job.(subtasks := AmendAll(job.subtasks, s, c)))
  }

  function UpdateSubtask(st: Store, j: JobId, s: SubtaskId, c: Change): Result<Store, StoreError> {
    if j !in st then Err(UnknownJob(j))
    else if !HasId(st[j].subtasks, s) then Err(UnknownSubtask(s))
    else Ok(st[j := UpdatedJob(st[j], s, c)])
  }

  function AddSubtask(st: Store, j: JobId, spec: SubtaskSpec, id: SubtaskId): Result<Store, StoreError> {
    if j !in st then Err(UnknownJob(j))
    else Ok(st[j := Rolled(st[j].(subtasks := st[j].subtasks + [RecordFromSpec(spec, id)]))])
  }

  function CompleteLocal(st: Store, j: JobId, result: string): Result<Store, StoreError> {
    if j !in st then Err(UnknownJob(j))
    else Ok(st[j := Rolled(st[j].(localResult := Some(result)))])
  }

  function Fail(st: Store, j: JobId, error: string): Result<Store, StoreError> {
    if j !in st then Err(UnknownJob(j))
    else Ok(st[j := st[j].(error := Some(error), status := JobFailed)])
  }

  // ----- looking a record up

  /** The first record with the given id (src/mycoagent/node/runtime.py, _find_subtask). */
  function Find(rs: seq<SubtaskRecord>, s: SubtaskId): (r: Option<SubtaskRecord>)
    ensures r.Some? <==> HasId(rs, s)
    ensures r.Some? ==> r.value in rs && r.value.id == s
  {
    if rs == [] then None
    else if rs[0].id == s then Some(rs[0])
    else
      assert HasId(rs, s) ==> HasId(rs[1..], s) by {
        if i :| 0 <= i < |rs| && rs[i].id == s { assert rs[1..][i - 1].id == s; }
      }
      assert HasId(rs[1..], s) ==> HasId(rs, s) by {
        if i :| 0 <= i < |rs[1..]| && rs[1..][i].id == s { assert rs[i + 1].id == s; }
      }
      Find(rs[1..], s)
  }

  function Lookup(st: Store, j: JobId, s: SubtaskId): Option<SubtaskRecord> {
    if j in st then Find(st[j].subtasks, s) else None
  }

  lemma {:induction false} FindAmended(rs: seq<SubtaskRecord>, s: SubtaskId, c: Change, t: SubtaskId)
    ensures Find(AmendAll(rs, s, c), t)
         == match Find(rs, t) case None => None case Some(r) => Some(if t == s then Amend(r, c) else r)
  {
    if rs != [] {
      assert AmendAll(rs, s, c)[1..] == AmendAll(rs[1..], s, c);
      FindAmended(rs[1..], s, c, t);
    }
  }

  lemma {:induction false} FindAppended(rs: seq<SubtaskRecord>, r: SubtaskRecord, t: SubtaskId)
    ensures Find(rs + [r], t)
         == if Find(rs, t).Some? then Find(rs, t) else if r.id == t then Some(r) else None
  {
    if rs == [] {
      assert rs + [r] == [r];
    } else {
      assert (rs + [r])[1..] == rs[1..] + [r];
      FindAppended(rs[1..], r, t);
    }
  }

  lemma {:induction false} FindAt(rs: seq<SubtaskRecord>, i: nat)
    requires i < |rs| && DistinctIds(rs)
    ensures Find(rs, rs[i].id) == Some(rs[i])
  {
    if i > 0 {
      assert rs[0].id != rs[i].id;
      assert rs[1..][i - 1] == rs[i];
      FindAt(rs[1..], i - 1);
    }
  }

  /** An update touches the one record it names; every other lookup is unchanged. */
  lemma LookupUpdated(st: Store, j: JobId, s: SubtaskId, c: Change)
    requires UpdateSubtask(st, j, s, c).Ok?
    ensures forall k, t ::
              Lookup(UpdateSubtask(st, j, s, c).value, k, t)
              == (if k == j && t == s then Some(Amend(Lookup(st, j, s).value, c)) else Lookup(st, k, t))
  {
    forall k, t ensures Lookup(UpdateSubtask(st, j, s, c).value, k, t)
         == if k == j && t == s then Some(Amend(Lookup(st, j, s).value, c)) else Lookup(st, k, t)
    {
      if k == j { FindAmended(st[j].subtasks, s, c, t); }
    }
  }

  lemma LookupAdded(st: Store, j: JobId, spec: SubtaskSpec, id: SubtaskId)
    requires j in st
    ensures forall k, t ::
              Lookup(AddSubtask(st, j, spec, id).value, k, t)
              == (if k == j && t == id && Lookup(st, j, id).None? then Some(RecordFromSpec(spec, id))
                  else Lookup(st, k, t))
  {
    forall k, t ensures Lookup(AddSubtask(st, j, spec, id).value, k, t)
         == if k == j && t == id && Lookup(st, j, id).None? then Some(RecordFromSpec(spec, id)) else Lookup(st, k, t)
    {
      if k == j { FindAppended(st[j].subtasks, RecordFromSpec(spec, id), t); }
    }
  }
}
