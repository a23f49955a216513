# mycoagent, verified

A Dafny model of the agent network in `src/mycoagent`, with proofs about its runs.

An **agent** is a parent and a child at once. As a parent it keeps jobs and their
subtasks, asks the manager for idle agents, writes ASSIGNED, sends an assign message
and, when the exchange ends, writes RUNNING or FAILED. As a child it has one slot for
the work in hand and a bounded queue behind it; a runner executes the work, reports
the result to the parent in at most two attempts, and hands the slot over. The
**manager** keeps groups and node rows and answers catalog queries. Around these
stand the removal of local paths from texts, the keys of stored artifacts, and the
tool-calling loop of a child.

## How the model is built

| part | files |
|---|---|
| records | `Models` |
| the parent's jobs: one write each, whole histories, the class with its SQLite copy | `Jobs`, `JobHistory`, `JobStore` |
| in-flight counts, the choice of a target, load over many dispatches | `Inflight`, `Scheduler`, `Balance`, `Dispatch` |
| the child's mailbox | `Mailbox` |
| the agent object, whose methods do what the functions above say | `Runtime` |
| N agents and a network as one transition system, and its invariant | `Cluster`, `ClusterFrames`, `ClusterInvariant`, `ClusterParent`, `ClusterNetwork`, `ClusterRunner` |
| what follows for every run: at most once, results, who was chosen | `ClusterSafety`, `ClusterResults`, `ClusterTrace`, `EarlyResult` |
| what becomes of each request: creation, messages, order, ends | `ClusterRequests`, `ClusterMessages`, `ClusterOrder`, `ClusterEnds` |
| termination and progress | `ClusterQuiescence`, `ClusterProgress` |
| the manager: steps, membership, liveness, policy updates, catalog, the class | `Manager`, `Membership`, `Liveness`, `PolicyUpdates`, `Catalog`, `ManagerStore` |
| timestamps and their text | `Timestamps`, `Text`, `Arithmetic` |
| path stripping, artifacts, tool loop | `Workspace`, `Artifacts`, `ToolLoop` |
| sorting | `Ordering` |

In the cluster a step is a stretch of code between two points where the code can be
suspended, so every interleaving of calls, deliveries and runners is a run. A message
in flight may be delivered at any later time or lost. An exchange may fail for its
caller even though the other side acted on it: a dispatch that timed out may still be
accepted, run and reported, and its FAILED record then becomes what the report says.
Planner, executors, language model, tools and clock are arbitrary. `History` records
what has happened so that theorems can speak about it; no step reads it, but that a new
subtask id must not be in it. `submit_job`,
`forward_subtask` and `_dispatch` are suspended at many points, so each is a chain of
cluster steps; the methods of `Runtime.AgentRuntime` are the stretches in between, and
their contracts name the same functions of `Mailbox`, `Dispatch` and `Jobs` that the
cluster steps use.

A state is reachable when it is one of the states of an `IsRun`;
`ClusterSafety.RunKeepsInv` gives `Inv` for all of these. The main results are stated
of runs directly; a lemma that requires `Inv(st)` holds in every reachable state.

## What was found

* **An early result is lost.** A child may report before the parent has seen the
  response to its assign message. The write that ends the dispatch then covers the
  result: RUNNING (runtime.py:602), or FAILED when the response is lost or late
  (runtime.py:595-600). `EarlyResult.ResultIsLost` and `EarlyResult.ResultIsFailed` are
  runs that end at rest so. `ClusterSafety.EndOfDispatchOverwritesIffEarly` says that the
  write undoes a finished record exactly when a result was handled during the exchange,
  and `ClusterResults.HandledIsRecorded` that as long as this is not the last write a
  handled result stands in the record field by field. So at rest a handled subtask is
  RUNNING if and only if that write was RUNNING (`ClusterQuiescence.QuietMeansFinished`).
* **`fail("")` puts status and contents out of step.** `JobHistory.FailKeepsRollUpIff`
  gives the exact condition. The runtime always passes a non-empty text.
* **The test at the head of `_dispatch` never fires.** `ClusterParent.GuardNeverFires`:
  no agent ever works on a job that its own store holds.
* **A completed job reopens** when a subtask is added, a failed one does not
  (`JobHistory.AddingReopensUnlessFailed`).
* **A path can come back by its own replacement** if it can begin inside the tag or run
  into it, as `/[` does; `Workspace.ReappearsIff` is the exact condition for every path.
  Absolute paths without a bracket never do, nor does `/a[b`.
* **Artifact names `a\b` and `a/b` share a key**, and ids that contain a slash can shift
  between group, job and subtask (`Artifacts.OtherKeysCollide`);
  `Artifacts.KeysEqualIffPartsAre` is the exact condition for all ids and names.
* **A concurrent policy update can be lost.** `update_group` reads and writes under two
  lock holds. `PolicyUpdates.CloseIsLost` is a run in which closing a group has no
  effect, `PolicyUpdates.UpdateIsAtomicIff` says of every run whether the update is as if
  done at once, and `PolicyUpdates.UndisturbedUpdateIsAtomic` which steps in between are
  harmless.
* **Text order is time order** even though Python leaves a zero fraction out of the
  text, which section 5.1 of RFC 3339 does not cover (`Timestamps.TextOrderIsTimeOrder`).
* The documentation (docs/concepts/architecture.md:75-86) has the assign message carry
  artifact ids and the child download them first. In the code only the payload of a
  forward holds artifact ids, and nothing is downloaded; the model follows the code.

## Model

| member | source | states |
|---|---|---|
| JobHistory.StatusIsRollUp | src/mycoagent/node/jobs.py:96-166 | After every sequence of operations each job is filed under its id and its status is the roll-up of what it holds |
| JobHistory.ApplyKeepsRollUp | src/mycoagent/node/jobs.py:62-141 | The same for one operation, including those that raise and change nothing |
| JobHistory.StatusMeaning | src/mycoagent/node/jobs.py:157-166 | A job is FAILED if and only if it has an error or a failed subtask, and COMPLETED if and only if it has neither, every subtask is COMPLETED and there is a subtask or a local result |
| JobHistory.FailKeepsRollUpIff | src/mycoagent/node/jobs.py:135-141 | `fail` keeps status and contents in step if and only if its text is non-empty or a subtask has failed |
| JobHistory.EmptyErrorBreaksRollUp | src/mycoagent/node/jobs.py:135-158 | The smallest job on which `fail("")` does not |
| JobHistory.ErrorIsForever | src/mycoagent/node/jobs.py:157-159 | A recorded non-empty error keeps the job FAILED through every later run of operations |
| JobHistory.AddingReopensUnlessFailed | src/mycoagent/node/jobs.py:116-125 | A new subtask leaves a FAILED job FAILED and makes every other job RUNNING |
| JobHistory.DeliverAllIsOverlay | src/mycoagent/node/runtime.py:494-506 | Delivering results one by one gives the job with each result written over its record once, as defined independently of the order |
| JobHistory.DeliveryOrderIsIrrelevant | src/mycoagent/node/runtime.py:476-506 | Any two delivery sequences of the same results, in any order and with repeats, leave the same job memory |
| Jobs.LookupUpdated | src/mycoagent/node/jobs.py:96-114 | An update changes the one record it names; every other lookup in every job is unchanged |
| Jobs.LookupAdded | src/mycoagent/node/jobs.py:116-125 | A new subtask is found under its id and hides or changes no other record |
| Jobs.Find | src/mycoagent/node/runtime.py:728-732 | A record is found exactly when the job has one with that id |
| JobStores.JobStore.constructor | src/mycoagent/node/jobs.py:24-48 | Opening a store loads exactly the rows of its table |
| JobStores.JobStore.Create | src/mycoagent/node/jobs.py:62-73 | The new job is RUNNING with the given description and parent and one PENDING record for each spec, in order, with its id and the whole spec; map and table agree and all other jobs stay |
| JobStores.JobStore.InflightCounts | src/mycoagent/node/jobs.py:84-94 | For every agent the number of ASSIGNED or RUNNING subtasks over all jobs; agents without any are not listed, nor is the empty id |
| JobStores.JobStore.UpdateSubtask | src/mycoagent/node/jobs.py:96-114 | The loop rewrites exactly the records with the id, rolls up and persists; it raises exactly for an unknown job and for an id that no record has, and then changes nothing |
| JobStores.JobStore.AddSubtask | src/mycoagent/node/jobs.py:116-125 | A PENDING record with the id and the whole spec is appended, status rolled up, table equal to the map; it raises exactly for an unknown job |
| JobStores.JobStore.CompleteLocal | src/mycoagent/node/jobs.py:127-133 | The local result is recorded and no subtask touched, status rolled up, table equal to the map |
| JobStores.JobStore.Fail | src/mycoagent/node/jobs.py:135-141 | Error and FAILED are recorded, table equal to the map |
| JobStores.Restart | src/mycoagent/node/jobs.py:42-60 | Reopening the table after any operation gives a store with the same jobs |
| Inflight.AssignRaisesOne | src/mycoagent/node/runtime.py:566-572 | The ASSIGNED write raises the target's count by one and no other count |
| Inflight.RunningKeepsCounts | src/mycoagent/node/runtime.py:602 | The RUNNING write changes no count |
| Inflight.FailureGivesBack | src/mycoagent/node/runtime.py:566-601 | The ASSIGNED and FAILED writes of a dispatch that fails leave every count as it was, and so does the handler's second FAILED write |
| Inflight.ResultGivesBack | src/mycoagent/node/runtime.py:494-506 | Handling the COMPLETED or FAILED result of the assignee lowers its count by one and no other |
| Inflight.AmendCounts | src/mycoagent/node/jobs.py:84-114 | Any write moves each agent's count by what the written record counted for before and counts for after |
| Scheduler.PoolMembers | src/mycoagent/node/runtime.py:67-69 | The tie pool is non-empty, in id order, and holds exactly the least loaded candidates |
| Scheduler.PickIsLeastLoaded | src/mycoagent/node/runtime.py:59-71 | A node is chosen exactly when there is a candidate, and no candidate has less load |
| Scheduler.PickIgnoresOrder | src/mycoagent/node/runtime.py:59-71 | With distinct ids the chosen node is the same for every permutation of the candidates |
| Scheduler.PickIsNextInIdOrder | src/mycoagent/node/runtime.py:67-71 | With distinct ids the chosen node is the one that has, among the least loaded, cursor modulo their number before it in id order, and the cursor moves by one |
| Scheduler.PicksGoRound | src/mycoagent/node/runtime.py:67-71 | Picks in a row, each with the cursor that the one before left, go round the tie pool in id order from where the cursor points |
| Scheduler.RoundRobinVisitsEachOnce | src/mycoagent/node/runtime.py:67-71 | On an unchanged tie pool of n nodes, n picks in a row, each with the cursor that the one before left, choose each node exactly once |
| Balance.SpreadNeverGrows | src/mycoagent/node/runtime.py:560-602 | Dispatches in a row, whichever of them fail after the pick, never raise the spread of loads above the larger of one and the initial spread |
| Balance.TotalAfterPicks | src/mycoagent/node/runtime.py:560-602 | The total load grows by the number of accepted dispatches |
| Balance.EvenShares | src/mycoagent/node/runtime.py:59-71 | From zero load, after k accepted dispatches, with failed ones anywhere between, each of n candidates holds k/n rounded down or up |
| Balance.StoreFollowsPicks | src/mycoagent/node/jobs.py:84-94 | The store's own in-flight counts follow those abstract loads through the ASSIGNED, RUNNING and FAILED writes |
| Balance.StoreSharesEvenly | src/mycoagent/node/runtime.py:560-602 | So the even shares hold of what `inflight_counts` reports |
| Balance.StoreSpreadNeverGrows | src/mycoagent/node/runtime.py:560-602 | And so does the bound on the spread, from any counts |
| Dispatch.SuitsIffAsked | src/mycoagent/node/runtime.py:545-556 | The catalog query of a dispatch asks for exactly the idle nodes other than the caller that can do what the spec demands |
| Dispatch.EmptyAsksForNone | src/mycoagent/node/runtime.py:530-533 | An empty text for a target or a model asks for none; any other target is the only node allowed |
| Dispatch.ChosenIsEligible | src/mycoagent/node/runtime.py:528-565 | The chosen node is approved, idle, in the group, neither self nor excluded, and able to do what the spec demands or the named target; a dispatch is refused if and only if no node is so |
| Dispatch.ChosenIsLeastLoaded | src/mycoagent/node/runtime.py:560-561 | Of all eligible nodes the chosen one has the least in flight |
| Mailbox.StepKeepsInv | src/mycoagent/node/runtime.py:400-474 | Exactly one runner while the slot is full, on the slot's work; none and no queue while it is empty; the queue within its size |
| Mailbox.StepKeepsFifo | src/mycoagent/node/runtime.py:400-474 | What was accepted is what is finished, then the slot, then the queue, in order |
| Mailbox.EveryRun | src/mycoagent/node/runtime.py:170-196 | Both hold over every interleaving; outstanding work is at most one plus the queue size; BUSY exactly while work is outstanding |
| Mailbox.RefusalIsHarmless | src/mycoagent/node/runtime.py:400-414 | An assignment is refused exactly when it comes from the agent itself or there is no room, as busy without a queue and as full with one; a refusal changes nothing |
| Mailbox.TwoReportsThenHandOver | src/mycoagent/node/runtime.py:461-492 | After one failed report the same result is posted again with the slot still held; after the second the work is done with and the slot handed over |
| Runtime.AgentRuntime.constructor | src/mycoagent/node/runtime.py:167-180 | An agent starts with an empty mailbox; a negative queue size counts as zero |
| Runtime.AgentRuntime.Status | src/mycoagent/node/runtime.py:192-196 | BUSY exactly while a runner is at work and IDLE exactly while slot and queue are empty |
| Runtime.AgentRuntime.AcceptChild | src/mycoagent/node/runtime.py:400-416 | Takes the slot, queues or refuses as the mailbox function says; a refusal leaves all fields |
| Runtime.AgentRuntime.BeginRun | src/mycoagent/node/runtime.py:418-421 | The runner takes the slot's work, or ends when there is none |
| Runtime.AgentRuntime.FinishRun | src/mycoagent/node/runtime.py:422-460 | A returning executor gives COMPLETED with its summary and artifacts and no error, a raising one FAILED with its error and neither, under the work's ids and this agent's id |
| Runtime.AgentRuntime.ReportResult | src/mycoagent/node/runtime.py:476-492 | At most two attempts, stopping at the first success; it gives up only when both fail; the runner keeps its work and result |
| Runtime.AgentRuntime.HandOver | src/mycoagent/node/runtime.py:463-474 | The slot is cleared and the head of the queue, if any, takes it with a new runner |
| Runtime.AgentRuntime.AcceptResult | src/mycoagent/node/runtime.py:494-506 | The record takes the message's fields; an unknown job or subtask raises and changes nothing |
| Runtime.AgentRuntime.ChooseListed | src/mycoagent/node/runtime.py:557-565 | Chooses as specified with the agent's own in-flight counts; the cursor moves by one exactly when the answer holds a node that is neither this agent nor excluded |
| Runtime.AgentRuntime.ChooseNamed | src/mycoagent/node/runtime.py:532-543 | Applies the tests on a named target in order, each with its own error; the cursor stays |
| Runtime.AgentRuntime.WriteAssigned | src/mycoagent/node/runtime.py:566-586 | Writes ASSIGNED with the target and builds the message that names this agent as parent |
| Runtime.AgentRuntime.EndDispatch | src/mycoagent/node/runtime.py:590-602 | The subtask ends RUNNING or FAILED with the reason and no other record changes, also when the handler writes FAILED again |
| Runtime.AgentRuntime.RunChild | src/mycoagent/node/runtime.py:418-474 | The stretches of one run in a row: the slot's work gives the result that tells what the executor did, and the head of the queue takes the slot, however the reports go |
| Runtime.AgentRuntime.WorkOff | src/mycoagent/node/runtime.py:400-474 | An agent left alone works off slot and queue in the order of acceptance, one result each that tells what the executor did with that work, and ends IDLE |
| ClusterFrames.StepFrame | src/mycoagent/node/runtime.py:278-602 | What each kind of step leaves as it was: calls and their terms, mailboxes and traffic, stores, and each part of the history |
| ClusterInvariant.WriteEffect | src/mycoagent/node/jobs.py:96-114 | In the cluster a write changes one record at one agent |
| ClusterSafety.StepKeepsInv | src/mycoagent/node/runtime.py:278-602 | Every step of parent, network and child keeps the invariant that ties records, calls, messages, mailboxes and results together |
| ClusterSafety.RunKeepsInv | src/mycoagent/node/runtime.py:278-602 | The invariant holds in every state of every run |
| ClusterSafety.AtMostOnce | src/mycoagent/node/runtime.py:400-474 | A subtask is in at most one of network, one queue position, one slot; begun at most once, by one agent, and then in no queue and no message; executed at most once |
| ClusterSafety.ReplyIsTrue | src/mycoagent/node/runtime.py:400-416 | Over every run the response to an assign message is true: once refused no agent holds or has begun the subtask; once accepted its assignee holds it, or it was handled or given up unheard |
| ClusterSafety.RunningIsHeld | src/mycoagent/node/runtime.py:400-492 | Over every run, a RUNNING record's subtask is in its assignee's slot or queue, unless its result was early or it was given up after two reports of which none arrived |
| ClusterSafety.OneSupervisor | src/mycoagent/node/runtime.py:278-402 | Each job lives in one store; every assign message, slot and queue entry for it names that agent as parent and is at another agent |
| ClusterSafety.NoneStranded | src/mycoagent/node/runtime.py:295-322 | When a call has returned normally every subtask it created is RUNNING, COMPLETED or FAILED |
| ClusterSafety.AssignedIffNotEarly | src/mycoagent/node/runtime.py:566-602 | When a dispatch resumes its record is ASSIGNED exactly if no result was handled meanwhile, and terminal otherwise |
| ClusterSafety.EndOfDispatchOverwritesIffEarly | src/mycoagent/node/runtime.py:590-602 | Over every run, the RUNNING and the FAILED write at the end of a dispatch find a terminal record if and only if its result was early, and ASSIGNED otherwise; each changes the status and at most the error |
| ClusterResults.RunKeepsTold | src/mycoagent/node/runtime.py:278-602 | In every state of every run the record of each handled result tells what a run said, but for the status and error of a write that ended its dispatch over it |
| ClusterResults.HandledIsRecorded | src/mycoagent/node/runtime.py:494-602 | That run is the only one of the subtask; status, result, error, assignee and artifact ids are its own, unless the last write ended the dispatch over the result, which then came early; a report handled later restores them |
| ClusterResults.ReportWrites | src/mycoagent/node/runtime.py:494-506 | Handling a report of a run writes it over its record and no other |
| ClusterParent.GuardNeverFires | src/mycoagent/node/runtime.py:528-529 | No agent's slot holds work of a job in its own store, so the test never fires |
| ClusterParent.FailingTwice | src/mycoagent/node/runtime.py:312-319 | Writing FAILED again with the same text changes nothing |
| ClusterParent.SendKeepsInv | src/mycoagent/node/runtime.py:566-589 | The ASSIGNED write and the send to another agent keep the invariant |
| ClusterParent.DispatchFailsKeepsInv | src/mycoagent/node/runtime.py:590-601 | So does a dispatch that fails or times out, even when the child accepted |
| ClusterParent.ReplyKeepsInv | src/mycoagent/node/runtime.py:602 | So does the RUNNING write |
| ClusterParent.SubmitKeepsInv | src/mycoagent/node/runtime.py:278-283 | So does a submission with new ids |
| ClusterParent.BeginPlannedKeepsInv | src/mycoagent/node/runtime.py:295-298 | So does adding a planned or forwarded subtask between dispatches |
| ClusterNetwork.DeliverKeepsInv | src/mycoagent/node/runtime.py:400-416 | So does the delivery of an assign message, accepted or refused |
| ClusterRunner.ExecuteKeepsInv | src/mycoagent/node/runtime.py:424-460 | So does the end of an executor run |
| ClusterRunner.GiveUpKeepsInv | src/mycoagent/node/runtime.py:463-492 | So does handing over after the last failed attempt |
| ClusterRunner.AttemptDoneKeepsInv | src/mycoagent/node/runtime.py:461-474 | So does handing over after a successful report |
| ClusterRunner.DeliverReportKeepsInv | src/mycoagent/node/runtime.py:494-506 | So does handling a report, first, repeated or late |
| ClusterTrace.WhoSent | src/mycoagent/node/runtime.py:545-589 | Every message ever sent was sent at an earlier step in which its call chose that node |
| ClusterTrace.WhenRun | src/mycoagent/node/runtime.py:424-460 | Every recorded run ended at an earlier step, at the agent it names |
| ClusterTrace.ExecutionIsTold | src/mycoagent/node/runtime.py:424-460 | Each end of an executor adds one result to what was run: COMPLETED with its summary and artifacts, or FAILED with its error |
| ClusterTrace.Provenance | src/mycoagent/node/runtime.py:424-589 | A COMPLETED record means an earlier executor run of exactly that job and subtask at another agent, which did not raise and whose summary and artifacts the record holds, and to which the parent had, at a still earlier step, written ASSIGNED and sent the message |
| ClusterTrace.SendWritesAssigned | src/mycoagent/node/runtime.py:566-589 | The step that sends the message writes ASSIGNED with the same node |
| ClusterTrace.OnlyEligibleTargets | src/mycoagent/node/runtime.py:528-589 | Every message ever sent went to a node that, in the manager's tables at lookup, was eligible for its sender's group, exclusions, target and the spec it carries |
| ClusterTrace.CallsKeepTheirTerms | src/mycoagent/node/runtime.py:342-377 | No step changes what a call dispatches for, excludes or targets |
| ClusterTrace.TermsStay | src/mycoagent/node/runtime.py:342-377 | Nor does any run of steps |
| ClusterTrace.ForwardNeverToSource | src/mycoagent/node/runtime.py:342-377 | Over every run, a message that a forward causes goes neither to the forwarding agent nor to the agent that the source was assigned to, and to the named target if there is one |
| ClusterRequests.AskedIsCreated | src/mycoagent/node/runtime.py:283-377 | Over every run: the subtasks that a call has created, followed by those it still will, carry in order exactly the specs that its submission, its planner or its forward asked for; a call that has returned has created them all. A forward asks for one, with its description, skills and tools, and the source's id, result and artifacts as they stood then on top of its payload |
| ClusterRequests.StepKeepsWanted | src/mycoagent/node/runtime.py:295-376 | Conservation: no step but the planner's answer changes what a call has created and will create together, nor what it has created already |
| ClusterRequests.WhoAsked | src/mycoagent/node/runtime.py:283-376 | Nothing is created that no submission, planner or forward asked that call for |
| ClusterRequests.WhoStarted | src/mycoagent/node/runtime.py:342-377 | Every call was started by a submission, without target or exclusions, or by a forward with its target, which excludes exactly the forwarding agent and the source's assignee |
| ClusterRequests.SubmitRecordsJob | src/mycoagent/node/jobs.py:62-73 | In the cluster a submission records a RUNNING job with its description and one unassigned PENDING record for each spec, under its agent, and touches no other job |
| ClusterRequests.ForwardStarts | src/mycoagent/node/runtime.py:342-377 | A forward starts a call that has created nothing and will create one subtask with the spec so described |
| ClusterMessages.PartsAreTheCalls | src/mycoagent/node/runtime.py:297-362 | The subtasks a call created are distinct, are those whose home names it, and each has its record with that spec |
| ClusterMessages.MessagesCarryWhatWasAsked | src/mycoagent/node/runtime.py:573-586 | Over every run the message of each subtask carries the spec that was asked for it, that of a submission under the id given with it |
| ClusterMessages.EligibleForWhatWasAsked | src/mycoagent/node/runtime.py:528-589 | Every message went to an approved, idle node of the group, other than the sender, that could do what was asked for, within the exclusions and target of the request that started the call |
| ClusterMessages.WorkIsWhatWasAsked | src/mycoagent/node/runtime.py:402-430 | What an executor is given is the description and payload asked for, with the ids of the parent and the job that asked |
| ClusterOrder.DispatchInOrder | src/mycoagent/node/runtime.py:295-322 | While a subtask of a call waits for its dispatch, so do all that the call created after it, unsent |
| ClusterOrder.CursorMoves | src/mycoagent/node/runtime.py:530-561 | The cursor of an agent moves by one when a call of it chooses from a catalog answer, and by no other step of anyone |
| ClusterOrder.ForwardPossibleIff | src/mycoagent/node/runtime.py:342-361 | In every state of every run a forward goes ahead exactly when the agent holds the job and the source, if named, is one of its subtasks |
| ClusterEnds.UnsentMeansNoneEligible | src/mycoagent/node/runtime.py:295-322 | Over every run, a subtask of a returned call that was never sent is FAILED, and at its lookup no node in the manager's tables was eligible for what was asked |
| ClusterEnds.HowSubmissionEnds | src/mycoagent/node/runtime.py:284-307 | A submission without subtasks that returned went to its planner, which answered or failed, or without a planner ran locally; the end is recorded in its job |
| ClusterEnds.EndIsRecorded | src/mycoagent/node/runtime.py:291-341 | After a local run the job holds the text and no error, and is COMPLETED exactly if no subtask added meanwhile is unfinished or failed; after a failed planning it is FAILED with `planning failed: ` and the text |
| ClusterEnds.FaultFreeRunDoesAll | src/mycoagent/node/runtime.py:278-602 | When a run without failures has nothing left to do, each spec of each request has, in order, its subtask, COMPLETED or FAILED unless a RUNNING write is over an early result |
| ClusterQuiescence.InternalStepsReduce | src/mycoagent/node/runtime.py:278-602 | Every step that is not a new submission or forward lowers a well-founded measure |
| ClusterQuiescence.EveryRunEnds | src/mycoagent/node/runtime.py:278-602 | So the cluster comes to a state in which it takes no further step |
| ClusterQuiescence.EveryRunComesToRest | src/mycoagent/node/runtime.py:278-602 | A schedule that steps whenever a step can be taken brings the cluster to rest, whatever fails on the way |
| ClusterProgress.RunKeepsDue | src/mycoagent/node/runtime.py:461-589 | In a run that loses no message, what a dispatch or a reporting child waits for is in the network or has arrived |
| ClusterProgress.NoDeadlock | src/mycoagent/node/runtime.py:278-602 | After a run that lost no message and chose only agents of the cluster, a cluster not at rest can take a step that is no failure |
| ClusterProgress.FaultFreeRunFinishes | src/mycoagent/node/runtime.py:278-602 | A run without failures in which no step without failure is left is at rest, all its calls have returned, and every subtask created is COMPLETED or FAILED, as its run said if that was handled, unless a RUNNING write is over an early result |
| ClusterQuiescence.QuietMeansFinished | src/mycoagent/node/runtime.py:400-602 | At rest, for a subtask of a returned call: with a handled result it is RUNNING if and only if the RUNNING write of its dispatch is over that result, and tells the result otherwise; without one it is terminal unless it was given up unheard |
| ClusterQuiescence.StoresAlwaysOk | src/mycoagent/node/jobs.py:96-166 | In every state of every run each job's status is its roll-up and its subtask ids are distinct |
| ClusterQuiescence.QuietJobsAreFinished | src/mycoagent/node/jobs.py:157-166 | And then every job with subtasks is COMPLETED or FAILED, given that its calls returned, no RUNNING write is over a handled result and none was given up unheard |
| EarlyResult.ResultIsLost | src/mycoagent/node/runtime.py:602 | A run of eleven steps that ends at rest with a completed, reported subtask still RUNNING |
| EarlyResult.ResultIsFailed | src/mycoagent/node/runtime.py:590-601 | The same run with the response lost ends with that subtask FAILED |
| Timestamps.BeforeIsEarlier | src/mycoagent/manager/store.py:27-32 | Comparing calendar fields is comparing positions on the time line |
| Timestamps.FromMicros | src/mycoagent/manager/store.py:407-408 | Subtracting from a clock reading gives the valid instant at that distance |
| Timestamps.FractionOrder | src/mycoagent/manager/store.py:27-32 | Fraction and zone compare as the microseconds do, also where one fraction is left out |
| Timestamps.IsoOrder | src/mycoagent/manager/store.py:27-32 | Binary comparison of the printed texts is comparison field by field |
| Timestamps.TextOrderIsTimeOrder | src/mycoagent/manager/store.py:407-417 | One printed timestamp is less than another if and only if its instant is earlier |
| Timestamps.ParseUndoesPrint | src/mycoagent/manager/store.py:31-32 | Parsing a printed timestamp gives the instant back |
| Manager.ApplyKeepsRows | src/mycoagent/manager/store.py:154-417 | Each step keeps rows filed under their id, in an existing group, with a valid timestamp |
| Manager.RowsAlwaysWellFormed | src/mycoagent/manager/store.py:154-417 | So every interleaving of the steps does |
| MembershipHistory.OneStep | src/mycoagent/manager/store.py:262-377 | Only a decision in its group or an entry into a group sets a node's membership; on entry it is PENDING in a manual group and APPROVED in an automatic one |
| MembershipHistory.MembershipIsHistory | src/mycoagent/manager/store.py:188-343 | In every reachable state membership is the last decision since the node entered its group; with none it is PENDING if the group was manual at that moment and APPROVED if it was automatic |
| MembershipHistory.LastDecision | src/mycoagent/manager/store.py:326-343 | If anything was decided there is a last decision |
| MembershipHistory.ManualNeedsApproval | src/mycoagent/manager/store.py:281-343 | A node that entered a group while it was manual is APPROVED only if an approval in that group came after |
| MembershipHistory.RegistrationWrites | src/mycoagent/manager/store.py:262-324 | Registration is refused exactly for an unknown group or a name not on the group's list; it writes one row, from the request, IDLE, seen now, created when the node first registered |
| MembershipHistory.OneRowChanges | src/mycoagent/manager/store.py:326-377 | A heartbeat and a decision are refused exactly for an unknown node, or one of another group, and change the fields they carry in that row and nothing else |
| MembershipHistory.DeletionRemovesItsNodes | src/mycoagent/manager/store.py:212-217 | Deleting a group removes exactly its nodes |
| Liveness.ExpiryIsByTime | src/mycoagent/manager/store.py:407-417 | Expiry marks OFFLINE exactly the rows last seen longer ago than the timeout and changes nothing else |
| Liveness.StepKeepsFresh | src/mycoagent/manager/store.py:262-417 | On a clock that does not go back no step brings an old row back to life, an expiry with an older reading included |
| Liveness.AliveMeansRecent | src/mycoagent/manager/store.py:389-417 | After expiry and any steps of other calls, expiries that read the clock earlier included, every row that is not OFFLINE was heard of within the timeout |
| Liveness.AnswerIsRecent | src/mycoagent/manager/store.py:389-425 | After any history of the manager, a catalog answer for idle nodes never holds one last heard of before the timeout, whatever other calls do between its two lock holds |
| Liveness.AnswerIsOldestFirst | src/mycoagent/manager/store.py:396-405 | A catalog answer holds the node heard of longest ago first, in time and not only in text, and nodes heard of at once by id |
| Catalog.MatchesIffSuits | src/mycoagent/manager/store.py:420-442 | The tests of `catalog_matches` are the demands of the query; one model serves name and context window together |
| Catalog.WindowIsGiven | src/mycoagent/manager/store.py:436-442 | Who asks for a positive context window gets nodes with a model that states one, of that size or more, and has the asked name |
| Catalog.FilterKeepsOrder | src/mycoagent/manager/store.py:445-446 | Filtering keeps the order and the distinctness of the rows |
| ManagerStores.ManagerStore.ExpireOffline | src/mycoagent/manager/store.py:407-417 | The row-by-row update is the expiry step |
| ManagerStores.ManagerStore.CreateGroup | src/mycoagent/manager/store.py:154-186 | Adds the group or raises on an existing name |
| ManagerStores.ManagerStore.UpdateGroup | src/mycoagent/manager/store.py:188-210 | Run alone, changes exactly the fields that the patch names |
| PolicyUpdates.UpdateIsAtomicIff | src/mycoagent/manager/store.py:188-210 | For all steps of other calls between its read and its write, the update has its atomic effect if and only if each field that it leaves out is, at the write, as it was read, also over deletion and creation of the group; with the group gone nothing is written |
| PolicyUpdates.UndisturbedUpdateIsAtomic | src/mycoagent/manager/store.py:188-210 | It is atomic whenever no update and no deletion of the same group comes in between, whatever else does |
| PolicyUpdates.LastWriteTakesBack | src/mycoagent/manager/store.py:188-210 | Of two updates that read the same row, the one that writes last sets every field it leaves out back to what was read and the others to its own; the creation time stays |
| PolicyUpdates.CloseIsLost | src/mycoagent/manager/store.py:188-210 | A group closed and described at once ends open, though either order of the two calls closes it |
| ManagerStores.ManagerStore.DeleteGroup | src/mycoagent/manager/store.py:212-217 | Removes group and nodes, or raises |
| ManagerStores.ManagerStore.GetGroup | src/mycoagent/manager/store.py:227-260 | After expiry the group's row; a node is listed as member if and only if it is in the group and APPROVED, and as pending if and only if it is in the group and PENDING; or an error |
| ManagerStores.ManagerStore.GetNode | src/mycoagent/manager/store.py:379-387 | The row after expiry, or an error |
| ManagerStores.ManagerStore.RegisterNode | src/mycoagent/manager/store.py:262-324 | Keeps membership within the group, resets it on entry, keeps the creation time; raises exactly for an unknown group or a name that the group's list leaves out |
| ManagerStores.ManagerStore.SetMembership | src/mycoagent/manager/store.py:326-343 | Sets one row's membership; raises exactly for an unknown node and for one of another group |
| ManagerStores.ManagerStore.Heartbeat | src/mycoagent/manager/store.py:345-377 | Sets status and last seen and the reported tools and models of one row, or raises |
| ManagerStores.ManagerStore.Select | src/mycoagent/manager/store.py:391-405 | The answer holds each approved row of the group that suits the query once, no other row, in order of last seen and id |
| ManagerStores.ManagerStore.QueryCatalog | src/mycoagent/manager/store.py:389-405 | Expiry first, then that answer |
| Workspace.ReappearsIff | src/mycoagent/node/workspace.py:88-90 | For every path: some text still holds it after its replacement if and only if the path can begin in a tag or run into one, a finite test on the path |
| Workspace.OneSpellingIff | src/mycoagent/node/workspace.py:79-91 | With one spelling, stripping removes it from every text if and only if it does not reappear in that sense |
| Workspace.ReplaceTwiceIff | src/mycoagent/node/workspace.py:88-90 | Replacing twice equals replacing once on every text if and only if the path does not reappear, or is the tag |
| Workspace.AbsoluteIsApart | src/mycoagent/node/workspace.py:79-91 | An absolute path without a bracket meets a tag nowhere and never reappears |
| Workspace.ReplaceRemoves | src/mycoagent/node/workspace.py:88-90 | After replacing a path that does not reappear it does not occur |
| Workspace.ReplaceCreatesNothing | src/mycoagent/node/workspace.py:88-90 | Replacing any spelling creates no path that meets a tag nowhere |
| Workspace.StripAllRemoves | src/mycoagent/node/workspace.py:79-91 | Whatever the order of the rounds no strippable spelling occurs in the output |
| Workspace.StripTwice | src/mycoagent/node/workspace.py:79-91 | Stripping the output again changes nothing |
| Workspace.ReplaceIsReversible | src/mycoagent/node/workspace.py:88-90 | Nothing but the path is lost: putting it back for the tag restores a text without brackets |
| Workspace.StripAllEmptyIff | src/mycoagent/node/workspace.py:79-91 | A text is stripped to nothing only if it is empty |
| Workspace.OtherRootsReappear | src/mycoagent/node/workspace.py:88-90 | The condition is met by `/[` and by the relative root `w`, and not by `/a[b` |
| Workspace.ShortestFirstLeaks | src/mycoagent/node/workspace.py:85-88 | Why longest first: wherever one spelling ends in another, the other order leaves its front behind and this one leaves nothing |
| Workspace.WholeRootBecomesTag | src/mycoagent/node/workspace.py:79-91 | An absolute root without a bracket, given as its resolved spelling with or without `/private`, is replaced by the tag `[workspace]` and nothing else |
| Workspace.StripLocalPaths | src/mycoagent/node/workspace.py:79-91 | The loop strips all spellings, longest first; neither the root nor the resolved root nor the latter without `/private` is left, if strippable |
| Artifacts.RefusedIff | src/mycoagent/artifacts.py:29-33 | A name is refused if and only if a segment between its slashes is `..` |
| Artifacts.NormalIs | src/mycoagent/artifacts.py:30 | A normalised name is the name without its leading slashes and backslashes, with a slash for each other backslash, and otherwise unchanged |
| Artifacts.JoinUndoesSplit | src/mycoagent/artifacts.py:31 | Splitting at slashes loses nothing |
| Artifacts.SplitJoined | src/mycoagent/artifacts.py:29-33 | The parts of a text joined at a slash are those of its two sides |
| Artifacts.KeysEqualIffPartsAre | src/mycoagent/artifacts.py:29-33 | For all ids and names, two keys are equal if and only if the parts of ids and normalised name are, one after the other |
| Artifacts.SamePlaceCollideIff | src/mycoagent/artifacts.py:29-33 | Within one place two keys are equal if and only if the normalised names are, whatever the ids hold |
| Artifacts.KeyParts | src/mycoagent/artifacts.py:29-33 | With slash-free ids a key reads back as its three ids and the name's segments |
| Artifacts.KeysCollideIff | src/mycoagent/artifacts.py:29-33 | So with slash-free ids two keys are equal if and only if ids and normalised names are |
| Artifacts.KeyIsInjective | src/mycoagent/artifacts.py:29-33 | On relative names without backslashes the key is injective |
| Artifacts.OtherKeysCollide | src/mycoagent/artifacts.py:29-33 | Two keys that coincide by a backslash in a name, and two by a slash in an id |
| Artifacts.MemoryArtifactStore.constructor | src/mycoagent/artifacts.py:39-40 | A new store is empty |
| Artifacts.UploadWorkspaceFiles | src/mycoagent/artifacts.py:142-166 | Stores the files in turn up to the first refused name; the ids of all files, or the error |
| Artifacts.LastWriteWins | src/mycoagent/artifacts.py:54 | A key gives the bytes of the last file written under it |
| Artifacts.UploadLosesNothing | src/mycoagent/artifacts.py:142-166 | With distinct normalised names the ids are distinct and each gives its own bytes |
| Artifacts.CollisionKeepsTheLater | src/mycoagent/artifacts.py:142-166 | Two files share an id exactly when their normalised names coincide, and it gives the later one's bytes |
| Artifacts.UploadStaysInPlace | src/mycoagent/artifacts.py:142-166 | No object of another group, job or subtask appears, changes or goes |
| ToolLoop.LogIsBracketed | src/mycoagent/node/executor.py:96-122 | For every model and tools the messages are the prompts followed by blocks of one assistant message and its replies, same ids in the same order |
| ToolLoop.ExtendIsBlock | src/mycoagent/node/executor.py:109-116 | A response with calls adds exactly one such block: the response's content and calls, then for each call what the tool returned on the messages before |
| ToolLoop.EachStepIsRecorded | src/mycoagent/node/executor.py:107-117 | Each chat adds that block of its own response to the messages, or nothing when it calls no tool |
| ToolLoop.Run | src/mycoagent/node/executor.py:96-122 | At most `max_steps` chats; ends at the first step that does not go on; a normal return is COMPLETED with the non-empty stripped text of the last answer; the limit is exceeded exactly when every step goes on |

## Left out

- Workspace.StripLocalPaths: on a POSIX system, where the path and its POSIX form are the same text; the order of equally long spellings is left open, as it is in the code.
- Workspace.StripAllRemoves: exact where there is one spelling; with several, the condition that a spelling meets the tag nowhere is enough, and is not shown to be needed, because a later round may or may not remove what an earlier one created.
- ManagerStores.ManagerStore.UpdateGroup: states what the call does when nothing runs between its read and its write; interleaved, it is the steps `ExpireStep` and `PolicyStep`, which the `PolicyUpdates` rows are about.
- ManagerStores.ManagerStore.GetGroup: the two id lists are sets, their order by name is not modelled.
- Runtime.AgentRuntime.WriteAssigned: the message has the fields that the child uses; an agent's id stands for its mailbox URL.
- ClusterProgress.NoDeadlock: a lookup counts as going on whatever the manager answers, also when the answer holds no agent.
- ClusterQuiescence.EveryRunEnds: assumes that planner, executors, manager and network answer, fail or time out; real time is not modelled.
- ClusterQuiescence.QuietMeansFinished: of calls that returned; one that ended in an exception of the manager client leaves its subtasks PENDING, as the code does.
- ToolLoop.Run: the wording of the system prompt is shortened and the payload's JSON text is a parameter.
- ManagerStores.ManagerStore.ExpireOffline: for clock readings later than the first day of year 1 by more than the timeout; earlier ones overflow in Python.
- ManagerStores.ManagerStore.QueryCatalog: takes rows to be filed under their own id, which `Manager.RowsAlwaysWellFormed` shows of every history.
- Timestamps.ParseUndoesPrint: reads the two shapes that `isoformat` prints for UTC, not every form that `fromisoformat` accepts.
- The membership checks before a submission (`_assert_can_parent`): they gate the call and change nothing.
- The local run of a job is modelled by its outcome; if the executor raises, the job stays RUNNING, as the code leaves it.
- Restarts of agents, task cancellation, process crashes and disk failures inside a run of the cluster; new uuids are taken to be unused.
- Registration of agents with the manager during a cluster run: the manager's tables at each lookup are arbitrary, so every history of theirs is covered.
- Result messages that no agent of this system sent.
- The PostgreSQL store, whose text comparison depends on the database collation.
- HTTP, authentication, JSON and SQL encoding, the command line, configuration, capability scanning, planner prompts, shell and file tools, MinIO.
- Mailbox URLs, machine and system details other than memory, and creation times of jobs.
