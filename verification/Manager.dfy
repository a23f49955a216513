/** The manager's two tables (src/mycoagent/manager/store.py) and what each lock
    hold does to them. A public call is a sequence of such steps; between two of
    them any step of another call can run. */
module Manager {
  import opened Models
  import opened Timestamps
  import Text

  datatype GroupRow = GroupRow(
    createdAt: string,
    description: string,
    joinMode: JoinMode,
    allowRegister: seq<string>,
    allowParent: seq<string>)

  datatype State = State(groups: map<string, GroupRow>, nodes: map<NodeId, NodeRecord>)

  datatype Error = GroupNotFound | GroupExists | NodeNotFound | RegisterForbidden | NotInGroup

  datatype RegisterRequest = RegisterRequest(
    name: string,
    group: string,
    memoryMb: int,
    models: seq<ModelInfo>,
    skills: seq<string>,
    toolsDeclared: seq<string>,
    toolsAvailable: seq<string>)

  datatype HeartbeatRequest = HeartbeatRequest(
    status: NodeStatus,
    toolsAvailable: Option<seq<string>>,
    models: Option<seq<ModelInfo>>)

  const EMPTY := State(map[], map[])

  // ----- one lock hold each

  /** The clock is past the first day of the calendar by more than the timeout. */
  predicate ClockOk(now: Instant, timeout: nat) {
    Valid(now) && OnCalendar(Micros(now) - timeout)
  }

  function Cutoff(now: Instant, timeout: nat): string
    requires ClockOk(now, timeout)
  {
    Iso(FromMicros(Micros(now) - timeout))
  }

  /** `_expire_offline`: the comparison is between texts. */
  function Expire(st: State, now: Instant, timeout: nat): State
    requires ClockOk(now, timeout)
  {
    var cutoff := Cutoff(now, timeout);
    st.(nodes := map id | id in st.nodes ::
      if Text.Less(st.nodes[id].lastSeen, cutoff) && !st.nodes[id].status.Offline?
      then st.nodes[id].(status := Offline) else st.nodes[id])
  }

  function CreateGroup(st: State, name: string, row: GroupRow): Result<State, Error> {
    if name in st.groups then Err(GroupExists) else Ok(st.(groups := st.groups[name := row]))
  }

  /** The UPDATE of `update_group`; it writes nothing when the group has gone. */
  function WritePolicy(st: State, name: string, row: GroupRow): State {
    if name in st.groups
    then st.(groups := st.groups[name := row.(createdAt := st.groups[name].createdAt)])
    else st
  }

  /** Deleting a group deletes its nodes. */
  function DeleteGroup(st: State, name: string): Result<State, Error> {
    if name !in st.groups then Err(GroupNotFound)
    else Ok(State(st.groups - {name}, map id | id in st.nodes && st.nodes[id].group != name :: st.nodes[id]))
  }

  function DefaultMembership(mode: JoinMode): Membership {
    if mode.Manual? then Pending else Approved
  }

  predicate InGroup(st: State, id: NodeId, group: string) {
    id in st.nodes && st.nodes[id].group == group
  }

  predicate MayRegister(st: State, req: RegisterRequest) {
    && req.group in st.groups
    && (st.groups[req.group].allowRegister == [] || req.name in st.groups[req.group].allowRegister)
  }

  function Register(st: State, req: RegisterRequest, id: NodeId, now: Instant): Result<State, Error> {
    if req.group !in st.groups then Err(GroupNotFound)
    else if !MayRegister(st, req) then Err(RegisterForbidden)
    else
      var stamp := Iso(now);
      var membership :=
        if InGroup(st, id, req.group) then st.nodes[id].membership
        else DefaultMembership(st.groups[req.group].joinMode);
      var created := if id in st.nodes then st.nodes[id].createdAt else stamp;
      Ok(st.(nodes := st.nodes[id :=
        NodeRecord(id, req.name, req.group, req.memoryMb, req.models, req.skills, req.toolsDeclared,
                   req.toolsAvailable, Idle, stamp, created, membership)]))
  }

  function SetMembership(st: State, group: string, id: NodeId, verdict: Membership): Result<State, Error> {
    if id !in st.nodes then Err(NodeNotFound)
    else if st.nodes[id].group != group then Err(NotInGroup)
    else Ok(st.(nodes := st.nodes[id := st.nodes[id].(membership := verdict)]))
  }

  function Heartbeat(st: State, id: NodeId, req: HeartbeatRequest, now: Instant): Result<State, Error> {
    if id !in st.nodes then Err(NodeNotFound)
    else
      var row := st.nodes[id];
      Ok(st.(nodes := st.nodes[id := row.(
        status := req.status,
        lastSeen := Iso(now),
        toolsAvailable := (if req.toolsAvailable.Some? then req.toolsAvailable.value else row.toolsAvailable),
        models := (if req.models.Some? then req.models.value else row.models))]))
  }

  // ----- runs of steps

  datatype Step =
    | ExpireStep(now: Instant)
    | CreateStep(name: string, row: GroupRow)
    | PolicyStep(name: string, row: GroupRow)
    | DeleteStep(name: string)
    | RegisterStep(req: RegisterRequest, id: NodeId, now: Instant)
    | MembershipStep(group: string, id: NodeId, verdict: Membership)
    | HeartbeatStep(id: NodeId, beat: HeartbeatRequest, now: Instant)

  predicate StepOk(s: Step, timeout: nat) {
    match s
    case ExpireStep(now) => ClockOk(now, timeout)
    case RegisterStep(_, _, now) => Valid(now)
    case HeartbeatStep(_, _, now) => Valid(now)
    case _ => true
  }

  function OrSame(r: Result<State, Error>, st: State): State {
    match r case Ok(next) => next case Err(_) => st
  }

  function Apply(st: State, s: Step, timeout: nat): State
    requires StepOk(s, timeout)
  {
    match s
    case ExpireStep(now) => Expire(st, now, timeout)
    case CreateStep(name, row) => OrSame(CreateGroup(st, name, row), st)
    case PolicyStep(name, row) => WritePolicy(st, name, row)
    case DeleteStep(name) => OrSame(DeleteGroup(st, name), st)
    case RegisterStep(req, id, now) => OrSame(Register(st, req, id, now), st)
    case MembershipStep(group, id, verdict) => OrSame(SetMembership(st, group, id, verdict), st)
    case HeartbeatStep(id, beat, now) => OrSame(Heartbeat(st, id, beat, now), st)
  }

  predicate StepsOk(steps: seq<Step>, timeout: nat) {
    forall i :: 0 <= i < |steps| ==> StepOk(steps[i], timeout)
  }

  function Run(st: State, steps: seq<Step>, timeout: nat): State
    requires StepsOk(steps, timeout)
  {
    if steps == [] then st
    else
      assert StepsOk(steps[..|steps| - 1], timeout);
      Apply(Run(st, steps[..|steps| - 1], timeout), steps[|steps| - 1], timeout)
  }

  // ----- rows stay well formed

  /** Each row is filed under its id, belongs to an existing group, and carries the
      text of a valid instant. */
  ghost predicate WellFormed(st: State) {
    forall id :: id in st.nodes ==>
      && st.nodes[id].id == id
      && st.nodes[id].group in st.groups
      && exists t :: Valid(t) && st.nodes[id].lastSeen == Iso(t)
  }

  lemma ApplyKeepsRows(st: State, s: Step, timeout: nat)
    requires WellFormed(st) && StepOk(s, timeout)
    ensures WellFormed(Apply(st, s, timeout))
  {
    hide Iso, Cutoff, Text.Less, ClockOk;
    match s
    case ExpireStep(now) =>
    case CreateStep(name, row) =>
    case PolicyStep(name, row) =>
    case DeleteStep(name) =>
    case RegisterStep(req, id, now) =>
    case MembershipStep(group, id, verdict) =>
    case HeartbeatStep(id, beat, now) =>
  }

  lemma {:induction false} RowsAlwaysWellFormed(st: State, steps: seq<Step>, timeout: nat)
    requires WellFormed(st) && StepsOk(steps, timeout)
    ensures WellFormed(Run(st, steps, timeout))
  {
    if steps != [] {
      assert StepsOk(steps[..|steps| - 1], timeout);
      RowsAlwaysWellFormed(st, steps[..|steps| - 1], timeout);
      ApplyKeepsRows(Run(st, steps[..|steps| - 1], timeout), steps[|steps| - 1], timeout);
    }
  }
}
