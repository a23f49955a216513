/** The wire and memory records shared by the parent side, the child side and
    the manager (src/mycoagent/models.py). Identifiers are strings; an agent is
    addressed by its node id, which stands for its mailbox URL. */
module Models {

  datatype Option<+T> = None | Some(value: T)

  datatype Result<+T, +E> = Ok(value: T) | Err(error: E)

  type NodeId = string
  type JobId = string
  type SubtaskId = string

  datatype NodeStatus = Idle | Busy | Offline

  datatype Membership = Approved | Pending | Denied

  datatype JoinMode = Auto | Manual

  datatype SubtaskStatus = PendingTask | Assigned | Running | Completed | Failed {
    predicate Terminal() { Completed? || Failed? }
    predicate InFlight() { Assigned? || Running? }
  }

  datatype JobStatus = JobRunning | JobCompleted | JobFailed

  /** One value of a free-form payload. */
  datatype PayloadValue = NullValue | TextValue(text: string) | ListValue(items: seq<string>)

  type Payload = map<string, PayloadValue>

  datatype SubtaskSpec = SubtaskSpec(
    description: string,
    skills: seq<string>,
    tools: seq<string>,
    payload: Payload,
    model: Option<string>,
    minContextWindow: Option<int>,
    minMemoryMb: Option<int>)

  datatype SubtaskRecord = SubtaskRecord(
    id: SubtaskId,
    spec: SubtaskSpec,
    assignee: Option<NodeId>,
    status: SubtaskStatus,
    result: Option<string>,
    error: Option<string>,
    artifactIds: seq<string>)

  datatype JobMemory = JobMemory(
    jobId: JobId,
    description: string,
    parent: NodeId,
    status: JobStatus,
    subtasks: seq<SubtaskRecord>,
    localResult: Option<string>,
    error: Option<string>)

  datatype AssignMessage = AssignMessage(
    job: JobId,
    sub: SubtaskId,
    parent: NodeId,
    spec: SubtaskSpec)

  datatype ResultMessage = ResultMessage(
    job: JobId,
    sub: SubtaskId,
    child: NodeId,
    status: SubtaskStatus,
    result: Option<string>,
    error: Option<string>,
    artifactIds: seq<string>)

  datatype ChildWork = ChildWork(
    job: JobId,
    sub: SubtaskId,
    parent: NodeId,
    description: string,
    payload: Payload)

  datatype ModelInfo = ModelInfo(name: string, contextWindow: Option<int>)

  /** A node row. `lastSeen` and `createdAt` are the stored timestamp texts. */
  datatype NodeRecord = NodeRecord(
    id: NodeId,
    name: string,
    group: string,
    memoryMb: int,
    models: seq<ModelInfo>,
    skills: seq<string>,
    toolsDeclared: seq<string>,
    toolsAvailable: seq<string>,
    status: NodeStatus,
    lastSeen: string,
    createdAt: string,
    membership: Membership)
}
