/** The agent object (src/mycoagent/node/runtime.py, AgentRuntime). Each method is one
    stretch of code between two suspension points and does what the function of the
    same step does in Mailbox, Dispatch or Jobs. */
module Runtime {
  import opened Models
  import opened Jobs
  import opened Inflight
  import opened JobStores
  import Scheduler
  import Mailbox
  import Dispatch

  class AgentRuntime {
    const nodeId: NodeId
    const group: string
    const capacity: nat
    const jobs: JobStore
    var currentChild: Option<ChildWork>
    var queue: seq<AssignMessage>
    var runners: seq<Mailbox.Runner>
    var rrIndex: nat

    ghost function Box(): Mailbox.State
      reads this
    {
      Mailbox.State(currentChild, queue, runners)
    }

    /** Between two stretches the mailbox keeps its invariant and the store its own. */
    ghost predicate Valid()
      reads this, jobs, jobs.table
    {
      Mailbox.Inv(Box(), nodeId, capacity) && jobs.Valid()
    }

    constructor (nodeId: NodeId, group: string, mailboxQueueSize: int, jobs: JobStore)
      requires jobs.Valid()
      ensures this.nodeId == nodeId && this.group == group && this.jobs == jobs && rrIndex == 0
      ensures capacity == if mailboxQueueSize > 0 then mailboxQueueSize else 0
      ensures Box() == Mailbox.EMPTY && Valid()
    {
      this.nodeId, this.group, this.jobs := nodeId, group, jobs;
      capacity := if mailboxQueueSize > 0 then mailboxQueueSize else 0;
      currentChild, queue, runners, rrIndex := None, [], [], 0;
    }

    /** BUSY exactly while a runner is at work, and IDLE exactly while the mailbox is empty. */
    method Status() returns (s: NodeStatus)
      requires Valid()
      ensures s == Busy <==> runners != []
      ensures s == Idle <==> Box() == Mailbox.EMPTY
    {
      s := if currentChild.Some? || |queue| > 0 then Busy else Idle;
    }

    /** `_accept_child`: a refusal leaves the mailbox as it was. */
    method AcceptChild(m: AssignMessage) returns (refusal: Option<Mailbox.Refusal>)
      requires Valid()
      modifies this`currentChild, this`queue, this`runners
      ensures Valid()
      ensures match Mailbox.Accept(old(Box()), nodeId, capacity, m)
              case Ok(next) => Box() == next && refusal == None
              case Err(e) => Box() == old(Box()) && refusal == Some(e)
    {
      if m.parent == nodeId { return Some(Mailbox.FromSelf); }
      var startNow := false;
      if currentChild.None? {
        currentChild := Some(Mailbox.ChildFromAssign(m));
        startNow := true;
      } else {
        if capacity <= 0 { return Some(Mailbox.AgentBusy); }
        if |queue| >= capacity { return Some(Mailbox.QueueFull); }
        queue := queue + [m];
      }
      if startNow { runners := runners + [Mailbox.Spawned]; }
      refusal := None;
    }

    /** The start of `_run_child`. */
    method BeginRun(i: nat)
      requires i < |runners| && runners[i].Spawned?
      modifies this`runners
      ensures old(Valid()) ==> Valid()
      ensures Box() == Mailbox.Begin(old(Box()), i)
    {
      if currentChild.None? {
        runners := runners[..i] + runners[i + 1..];
      } else {
        runners := runners[i := Mailbox.Executing(currentChild.value)];
      }
    }

    /** The executor has returned or raised; either way there is a result to report. */
    method FinishRun(i: nat, o: Mailbox.Outcome) returns (m: ResultMessage)
      requires Valid() && i < |runners| && runners[i].Executing?
      modifies this`runners
      ensures Valid()
      ensures Box() == Mailbox.Execute(old(Box()), i, nodeId, o)
      ensures m.child == nodeId && m.job == old(runners[i].work.job) && m.sub == old(runners[i].work.sub)
      ensures match o
              case Finished(summary, ids) =>
                m.status == Completed && m.result == Some(summary) && m.error == None && m.artifactIds == ids
              case Raised(error) =>
                m.status == Failed && m.result == None && m.error == Some(error) && m.artifactIds == []
    {
      var work := runners[i].work;
      match o {
        case Finished(summary, ids) =>
          m := ResultMessage(work.job, work.sub, nodeId, Completed, Some(summary), None, ids);
        case Raised(error) => m := ResultMessage(work.job, work.sub, nodeId, Failed, None, Some(error), []);
      }
      runners := runners[i := Mailbox.Reporting(work, m, 0, false)];
    }

    /** `_report_result`: at most REPORT_ATTEMPTS exchanges, stopping at the first that
        succeeds; `succeeds` says how the exchanges go. */
    method ReportResult(i: nat, succeeds: seq<bool>) returns (reported: bool, attempts: nat)
      requires Valid() && i < |runners| && runners[i].Reporting? && runners[i].attempt == 0
      requires |succeeds| == 2
      modifies this`runners
      ensures reported <==> true in succeeds
      ensures 1 <= attempts <= 2
      ensures Valid()
      ensures Box() == Mailbox.WithRunner(old(Box()), i, old(runners[i]).(attempt := attempts - 1, posted := true))
      ensures forall k :: 0 <= k < attempts - 1 ==> !succeeds[k]
      ensures reported ==> succeeds[attempts - 1]
      ensures !reported ==> attempts == 2
    {
      attempts := 0;
      while attempts < Mailbox.REPORT_ATTEMPTS
        invariant attempts <= Mailbox.REPORT_ATTEMPTS
        invariant attempts == 0 ==> runners == old(runners)
        invariant attempts > 0 ==>
                  runners == old(runners)[i := old(runners[i]).(attempt := attempts - 1, posted := true)]
        invariant forall k :: 0 <= k < attempts ==> !succeeds[k]
      {
        runners := runners[i := runners[i].(attempt := attempts, posted := true)];
        attempts := attempts + 1;
        if succeeds[attempts - 1] { return true, attempts; }
      }
      reported := false;
    }

    /** The `finally` of `_run_child`. */
    method HandOver(i: nat)
      requires Valid() && i < |runners| && runners[i].Reporting?
      modifies this`currentChild, this`queue, this`runners
      ensures Valid() && Box() == Mailbox.HandOver(old(Box()), i)
    {
      runners := runners[..i] + runners[i + 1..];
      currentChild := None;
      if queue != [] {
        var next := queue[0];
        queue := queue[1..];
        currentChild := Some(Mailbox.ChildFromAssign(next));
        runners := runners + [Mailbox.Spawned];
      }
    }

    /** All of `_run_child`, when nothing else runs meanwhile: the work in the slot gives
        its result, and the head of the queue follows it into the slot. */
    method RunChild(o: Mailbox.Outcome, succeeds: seq<bool>) returns (m: ResultMessage)
      requires Valid() && currentChild.Some? && runners == [Mailbox.Spawned]
      requires |succeeds| == 2
      modifies this`currentChild, this`queue, this`runners
      ensures Valid() && Mailbox.Reports(m, old(currentChild.value), nodeId, o)
      ensures if old(queue) == [] then Box() == Mailbox.EMPTY
              else Box() == Mailbox.State(Some(Mailbox.ChildFromAssign(old(queue[0]))), old(queue[1..]),
                   [Mailbox.Spawned])
    {
      BeginRun(0);
      m := FinishRun(0, o);
      var reported, attempts := ReportResult(0, succeeds);
      HandOver(0);
    }

    /** Left alone, an agent works off everything it accepted, in the order it accepted it,
        one result for each. */
    method WorkOff(outcome: ChildWork -> Mailbox.Outcome) returns (results: seq<ResultMessage>)
      requires Valid() && (currentChild.Some? ==> runners == [Mailbox.Spawned])
      modifies this`currentChild, this`queue, this`runners
      ensures Valid() && Box() == Mailbox.EMPTY
      ensures var works := old(Mailbox.InHand(Box()) + Mailbox.Works(queue));
              && |results| == |works|
              && forall k :: 0 <= k < |works| ==> Mailbox.Reports(results[k], works[k], nodeId, outcome(works[k]))
    {
      hide Mailbox.Reports, Mailbox.Works, Mailbox.ChildFromAssign;
      Mailbox.WorksFirst([]);
      results := [];
      ghost var works := Mailbox.InHand(Box()) + Mailbox.Works(queue);
      while currentChild.Some?
        invariant Valid() && (currentChild.Some? ==> runners == [Mailbox.Spawned])
        invariant |results| <= |works| && Mailbox.InHand(Box()) + Mailbox.Works(queue) == works[|results|..]
        invariant forall k :: 0 <= k < |results| ==> Mailbox.Reports(results[k], works[k], nodeId, outcome(works[k]))
        decreases |works| - |results|
      {
        ghost var left := works[|results|..];
        assert left[0] == currentChild.value && left[0] == works[|results|];
        assert left[1..] == Mailbox.Works(queue) == works[|results| + 1..];
        Mailbox.WorksFirst(queue);
        var m := RunChild(outcome(currentChild.value), [true, true]);
        results := results + [m];
      }
    }

    /** `_accept_result`: raises for a job or subtask that is not in the store. */
    method AcceptResult(m: ResultMessage) returns (r: Result<JobMemory, StoreError>)
      requires Valid()
      modifies jobs, jobs.table
      ensures Valid()
      ensures match Jobs.UpdateSubtask(old(jobs.jobs), m.job, m.sub, Accept(m))
              case Ok(next) => jobs.jobs == next && r == Ok(next[m.job])
              case Err(e) => jobs.jobs == old(jobs.jobs) && r == Err(e)
    {
      var job := jobs.Get(m.job);
      if job.None? { return Err(UnknownJob(m.job)); }
      r := jobs.UpdateSubtask(m.job, m.sub, Accept(m));
    }

    /** The choice made by `_dispatch` on a catalog answer, with the counts of this
        agent's own jobs; a pick moves the round-robin cursor by one. */
    method ChooseListed(req: Dispatch.Request, answer: seq<NodeRecord>) returns (r: Result<NodeRecord, Dispatch.Error>)
      requires Valid() && req.self == nodeId && req.group == group
      modifies this`rrIndex
      ensures Valid()
      ensures exists counts: map<NodeId, nat> ::
                (forall a :: LoadOf(counts, a) == InflightCount(jobs.jobs, a))
                && match Dispatch.ChooseListed(req, answer, counts, old(rrIndex))
                   case Ok(c) => r == Ok(c.node) && rrIndex == c.cursor
                   case Err(e) => r == Err(e)
      ensures rrIndex == old(rrIndex)
                         + if exists n :: n in answer && n.id !in req.exclude && n.id != nodeId then 1 else 0
    {
      var candidates := Dispatch.Unblocked(answer, Dispatch.Blocked(req));
      if candidates == [] {
        var counts := jobs.InflightCounts();
        assert Dispatch.ChooseListed(req, answer, counts, rrIndex) == Err(Dispatch.NoCandidate);
        return Err(Dispatch.NoCandidate);
      }
      var counts := jobs.InflightCounts();
      var choice := Scheduler.Pick(candidates, counts, rrIndex);
      Scheduler.PickIsLeastLoaded(candidates, counts, rrIndex);
      rrIndex := choice.value.cursor;
      var target := choice.value.node;
      if target.id == nodeId { return Err(Dispatch.SelfOrSibling); }
      if target.group != group {
        assert Dispatch.ChooseListed(req, answer, counts, old(rrIndex)) == Err(Dispatch.AcrossGroups);
        return Err(Dispatch.AcrossGroups);
      }
      assert Dispatch.ChooseListed(req, answer, counts, old(rrIndex)) == Ok(choice.value);
      r := Ok(target);
    }

    /** The tests of `_dispatch` on a node that the caller named. */
    method ChooseNamed(req: Dispatch.Request, n: NodeRecord) returns (r: Result<NodeRecord, Dispatch.Error>)
      requires Valid() && req.self == nodeId && req.group == group
      ensures match Dispatch.ChooseNamed(req, n, rrIndex)
              case Ok(c) => r == Ok(c.node) && rrIndex == c.cursor
              case Err(e) => r == Err(e)
      ensures r.Err? ==>
                && (r.error.SelfOrSibling? <==> n.id in req.exclude || n.id == nodeId)
                && (r.error.AcrossGroups? ==> n.group != group)
                && (r.error.NotApproved? ==> n.group == group && n.membership != Approved)
                && (r.error.NotIdle? ==> n.group == group && n.membership == Approved && n.status != Idle)
                && !r.error.NoCandidate? && !r.error.SameJob?
    {
      if n.id in Dispatch.Blocked(req) || n.id == nodeId { return Err(Dispatch.SelfOrSibling); }
      if n.group != group { return Err(Dispatch.AcrossGroups); }
      if n.membership != Approved { return Err(Dispatch.NotApproved); }
      if n.status != Idle { return Err(Dispatch.NotIdle); }
      r := Ok(n);
    }

    /** The ASSIGNED write and the message that goes out with it. */
    method WriteAssigned(j: JobId, s: SubtaskId, spec: SubtaskSpec, target: NodeRecord)
      returns (r: Result<AssignMessage, StoreError>)
      requires Valid()
      modifies jobs, jobs.table
      ensures Valid()
      ensures match Jobs.UpdateSubtask(old(jobs.jobs), j, s, Assign(target.id))
              case Ok(next) => jobs.jobs == next && r == Ok(AssignMessage(j, s, nodeId, spec))
              case Err(e) => jobs.jobs == old(jobs.jobs) && r == Err(e)
    {
      var w := jobs.UpdateSubtask(j, s, Assign(target.id));
      if w.Err? { return Err(w.error); }
      r := Ok(AssignMessage(j, s, nodeId, spec));
    }

    /** How `_dispatch` ends: RUNNING when the exchange succeeded, and otherwise FAILED
        with the reason, once here and once in the caller's handler. */
    method EndDispatch(j: JobId, s: SubtaskId, failure: Option<string>) returns (r: Result<JobMemory, StoreError>)
      requires Valid() && Lookup(jobs.jobs, j, s).Some?
      modifies jobs, jobs.table
      ensures Valid() && r.Ok?
      ensures var end := if failure.None? then StartRunning else FailWith(failure.value);
              Lookup(jobs.jobs, j, s) == Some(Amend(old(Lookup(jobs.jobs, j, s).value), end))
      ensures forall k, t :: !(k == j && t == s) ==> Lookup(jobs.jobs, k, t) == old(Lookup(jobs.jobs, k, t))
    {
      hide Find, RollUp;
      if failure.None? {
        LookupUpdated(jobs.jobs, j, s, StartRunning);
        r := jobs.UpdateSubtask(j, s, StartRunning);
      } else {
        LookupUpdated(jobs.jobs, j, s, FailWith(failure.value));
        r := jobs.UpdateSubtask(j, s, FailWith(failure.value));
        LookupUpdated(jobs.jobs, j, s, FailWith(failure.value));
        r := jobs.UpdateSubtask(j, s, FailWith(failure.value));
      }
    }
  }
}
