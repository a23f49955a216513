/** What holds of a job store over whole runs of operations. */
module JobHistory {
  import opened Models
  import opened Jobs

  datatype Op =
    | CreateOp(job: JobId, parent: NodeId, description: string, specs: seq<SubtaskSpec>, ids: seq<SubtaskId>)
    | UpdateOp(job: JobId, sub: SubtaskId, change: Change)
    | AddOp(job: JobId, spec: SubtaskSpec, id: SubtaskId)
    | CompleteOp(job: JobId, result: string)
    | FailOp(job: JobId, error: string)

  /** What the runtime guarantees of its calls: new job ids are fresh, one id per
      spec, and a recorded failure carries a non-empty text. */
  predicate Proper(st: Store, op: Op) {
    match op
    case CreateOp(j, _, _, specs, ids) => j !in st && |specs| == |ids|
    case FailOp(_, error) => error != ""
    case _ => true
  }

  function OrSame(r: Result<Store, StoreError>, st: Store): Store {
    match r case Ok(next) => next case Err(_) => st
  }

  /** One operation; one that raises leaves the store as it was. */
  function Apply(st: Store, op: Op): Store
    requires Proper(st, op)
  {
    match op
    case CreateOp(j, parent, description, specs, ids) => Create(st, j, parent, description, specs, ids)
    case UpdateOp(j, s, c) => OrSame(UpdateSubtask(st, j, s, c), st)
    case AddOp(j, spec, id) => OrSame(AddSubtask(st, j, spec, id), st)
    case CompleteOp(j, result) => OrSame(CompleteLocal(st, j, result), st)
    case FailOp(j, error) => OrSame(Fail(st, j, error), st)
  }

  predicate ProperRun(st: Store, ops: seq<Op>)
    decreases |ops|
  {
    ops == [] || (Proper(st, ops[0]) && ProperRun(Apply(st, ops[0]), ops[1..]))
  }

  function Run(st: Store, ops: seq<Op>): Store
    requires ProperRun(st, ops)
    decreases |ops|
  {
    if ops == [] then st else Run(Apply(st, ops[0]), ops[1..])
  }

  // ----- status is always the roll-up

  predicate RolledUp(st: Store) {
    forall j :: j in st ==> st[j].jobId == j && st[j].status == RollUp(st[j])
  }

  /** What a rolled-up status says: FAILED for an error or a failed subtask, COMPLETED
      when there is neither, nothing is unfinished and something was done. */
  lemma StatusMeaning(st: Store, j: JobId)
    requires RolledUp(st) && j in st
    ensures var job := st[j];
            var failed := Truthy(job.error) || exists r :: r in job.subtasks && r.status.Failed?;
            var finished := (forall r :: r in job.subtasks ==> r.status.Completed?)
                            && (job.subtasks == [] ==> job.localResult.Some?);
            && (job.status.JobFailed? <==> failed)
            && (job.status.JobCompleted? <==> !failed && finished)
  {
    var rs := st[j].subtasks;
    if i :| 0 <= i < |rs| && rs[i].status.Failed? { assert rs[i] in rs; }
    if i :| 0 <= i < |rs| && !rs[i].status.Completed? { assert rs[i] in rs; }
  }

  /** After every run from the empty store each job is filed under its own id and
      its status is the roll-up of what it holds. */
  lemma {:induction false} StatusIsRollUp(st: Store, ops: seq<Op>)
    requires RolledUp(st) && ProperRun(st, ops)
    ensures RolledUp(Run(st, ops))
    decreases |ops|
  {
    if ops != [] {
      ApplyKeepsRollUp(st, ops[0]);
      StatusIsRollUp(Apply(st, ops[0]), ops[1..]);
    }
  }

  lemma ApplyKeepsRollUp(st: Store, op: Op)
    requires RolledUp(st) && Proper(st, op)
    ensures RolledUp(Apply(st, op))
  {
    match op
    case CreateOp(j, parent, description, specs, ids) =>
      var job := NewJob(j, parent, description, specs, ids);
      if job.subtasks != [] { assert job.subtasks[0].status.PendingTask?; }
    case UpdateOp(j, s, c) =>
    case AddOp(j, spec, id) =>
    case CompleteOp(j, result) =>
    case FailOp(j, error) =>
  }

  /** `fail` itself does not test its text. It keeps status and contents in step
      exactly when the text is non-empty or some subtask has failed anyway. */
  lemma FailKeepsRollUpIff(st: Store, j: JobId, error: string)
    requires RolledUp(st) && j in st
    ensures RolledUp(Fail(st, j, error).value)
       <==> error != "" || exists i :: 0 <= i < |st[j].subtasks| && st[j].subtasks[i].status.Failed?
  {
    var after := Fail(st, j, error).value;
    assert RolledUp(after) <==> RollUp(after[j]) == JobFailed;
  }

  /** The smallest case: an empty text on a job with nothing failed. */
  lemma EmptyErrorBreaksRollUp()
    ensures var st := Create(map[], "j", "p", "d", [], []);
            RolledUp(st) && !RolledUp(Fail(st, "j", "").value)
  {
    var st := Create(map[], "j", "p", "d", [], []);
    FailKeepsRollUpIff(st, "j", "");
  }

  // ----- failures are remembered

  /** A recorded error keeps the job FAILED through every later run. */
  lemma {:induction false} ErrorIsForever(st: Store, ops: seq<Op>, j: JobId)
    requires RolledUp(st) && ProperRun(st, ops)
    requires j in st && Truthy(st[j].error)
    ensures j in Run(st, ops) && Truthy(Run(st, ops)[j].error) && Run(st, ops)[j].status == JobFailed
    decreases |ops|
  {
    if ops != [] {
      ApplyKeepsRollUp(st, ops[0]);
      ErrorIsForever(Apply(st, ops[0]), ops[1..], j);
    }
  }

  /** A new subtask leaves a FAILED job FAILED and reopens every other job. */
  lemma AddingReopensUnlessFailed(st: Store, j: JobId, spec: SubtaskSpec, id: SubtaskId)
    requires RolledUp(st) && j in st
    ensures AddSubtask(st, j, spec, id).value[j].status
         == if st[j].status.JobFailed? then JobFailed else JobRunning
  {
    var before, after := st[j].subtasks, AddSubtask(st, j, spec, id).value[j].subtasks;
    assert after[|before|].status.PendingTask?;
    assert forall i :: 0 <= i < |before| ==> after[i] == before[i];
    if i :| 0 <= i < |before| && before[i].status.Failed? {
      assert after[i].status.Failed?;
    }
  }

  // ----- results commute

  function Deliver(job: JobMemory, m: ResultMessage): JobMemory {
    if HasId(job.subtasks, m.sub) then UpdatedJob(job, m.sub, Accept(m)) else job
  }

  function DeliverAll(job: JobMemory, results: map<SubtaskId, ResultMessage>, order: seq<SubtaskId>): JobMemory
    requires Covers(results, order)
  {
    if order == [] then job
    else
      assert Covers(results, order[..|order| - 1]);
      Deliver(DeliverAll(job, results, order[..|order| - 1]), results[order[|order| - 1]])
  }

  predicate Covers(results: map<SubtaskId, ResultMessage>, order: seq<SubtaskId>) {
    forall i :: 0 <= i < |order| ==> order[i] in results && results[order[i]].sub == order[i]
  }

  /** The job with every result of `done` written over its record, once. */
  function Overlay(job: JobMemory, results: map<SubtaskId, ResultMessage>, done: set<SubtaskId>): JobMemory
    requires done <= results.Keys
  {
    Rolled(job.(subtasks := seq(|job.subtasks|, i requires 0 <= i < |job.subtasks| =>
      var r := job.subtasks[i];
      if r.id in done then Amend(r, Accept(results[r.id])) else r)))
  }

  lemma {:induction false} DeliverAllIsOverlay(job: JobMemory, results: map<SubtaskId, ResultMessage>,
                                               order: seq<SubtaskId>)
    requires Covers(results, order) && job.status == RollUp(job)
    ensures (set s | s in order) <= results.Keys
    ensures DeliverAll(job, results, order) == Overlay(job, results, (set s | s in order))
  {
    if order == [] {
      assert Overlay(job, results, (set s | s in order)).subtasks == job.subtasks;
    } else {
      var front, s := order[..|order| - 1], order[|order| - 1];
      assert Covers(results, front);
      DeliverAllIsOverlay(job, results, front);
      DeliverOnOverlay(job, results, (set t | t in front), s);
      assert (set t | t in order) == (set t | t in front) + {s} by {
        assert order == front + [s];
      }
    }
  }

  lemma DeliverOnOverlay(job: JobMemory, results: map<SubtaskId, ResultMessage>, done: set<SubtaskId>, s: SubtaskId)
    requires done <= results.Keys && s in results && results[s].sub == s
    ensures Deliver(Overlay(job, results, done), results[s]) == Overlay(job, results, done + {s})
  {
    var a, b := Overlay(job, results, done), Overlay(job, results, done + {s});
    var d := Deliver(a, results[s]);
    forall i | 0 <= i < |job.subtasks|
      ensures d.subtasks[i] == b.subtasks[i]
    {
      assert a.subtasks[i].id == job.subtasks[i].id;
      if job.subtasks[i].id == s { assert HasId(a.subtasks, s); }
    }
    assert d.subtasks == b.subtasks;
  }

  /** Results commute: two delivery sequences with the same set of results leave the
      same job memory, whatever their order and however often a retry repeats one. */
  lemma DeliveryOrderIsIrrelevant(job: JobMemory, results: map<SubtaskId, ResultMessage>,
                                  first: seq<SubtaskId>, second: seq<SubtaskId>)
    requires job.status == RollUp(job)
    requires Covers(results, first) && Covers(results, second)
    requires forall s :: s in first <==> s in second
    ensures DeliverAll(job, results, first) == DeliverAll(job, results, second)
  {
    DeliverAllIsOverlay(job, results, first);
    DeliverAllIsOverlay(job, results, second);
    assert (set s | s in first) == (set s | s in second);
  }
}
