# A verified model of the agent orchestration core

The repository runs software work through a chain of agents that talk over Redis. This
project models the parts of it that keep state across steps and proves what each part is
for. Redis commands are plain mathematical state: streams and lists are sequences, sets are
sets, hashes are maps. In the consumer group, the Slack handler and the classification worker
a command that the Python code awaits is one step, so that crashes, exceptions and other
processes can fall between any two commands. A call of the gate dispatcher, the graph store
or the message board is one step as a whole. A handler of the manager can stop at any call it
awaits, but what it does until then is one step towards everyone else.

| file | models |
|---|---|
| `Wrappers.dfy`, `Text.dfy` | option and result types; join and split, decimal text |
| `Events.dfy` | the event, its stream encoding and its idempotency key |
| `ConsumerProtocol.dfy` | the consumer group as a state machine: any number of consumers, crashes at any await |
| `Handlings.dfy` | how often one key can be handled, for every number of consumers |
| `EventConsumer.dfy` | the live loop and the recovery loop as written, as runs of that machine |
| `StateMachine.dfy`, `Tasks.dfy` | the task state machine; the task and session hashes |
| `Evidence.dfy`, `Dispatcher.dfy` | evidence bundles; gate requests, decisions, expiry sweeps, audit trail |
| `Manager.dfy` | the Manager Agent over the task store, cut short at any awaited call |
| `Moves.dfy` | what each event does to its task when its handling completes, field by field |
| `Failures.dfy` | what handling does to one task: the patch loop, fail counts, COMPLETE tasks |
| `Orchestration.dfy` | dispatcher, stream, consumer group and manager together: the end-to-end theorem |
| `Rejections.dfy` | a run of that system in which a second rejection is never seen |
| `SlackDecisions.dfy`, `DecisionHandler.dfy` | the gate lock as a machine of concurrent handlers; the handler as written |
| `Permissions.dfy` | who may decide a gate, and whether the handlers' reports are true |
| `GraphStore.dfy`, `GraphKeys.dfy`, `Correlation.dfy` | two redundant indexes of one graph; their text keys; the routes over them |
| `Coordination.dfy` | the message board: expiring messages and the indexes over them |
| `Ingester.dfy` | the overlapping chunker and file ingestion |
| `Classification.dfy`, `ClassificationWorker.dfy` | the retrying queue as a machine; the worker as written |
| `Verdicts.dfy`, `Queueing.dfy` | what becomes of the classifier's answers; the order of the queue |

Where the Python code updates objects step by step, the model has a class whose methods are
proved against a function or a machine step of the same name; the theorems are then about
that function or machine. The machines (`ConsumerProtocol`, `SlackDecisions`,
`Classification`, `Orchestration`) take every interleaving; the classes beside them show that
the code sends exactly the machine's commands, whatever others do at its awaits.

`dafny verify dfyconfig.toml` checks the whole project.

## What the proofs found

- **Handlings per key.** With n consumer slots a key is handled successfully at most n times
  plus once per success whose marker was never written, and n slots do reach n without any
  crash or exception, whatever is in the stream before. So m is a bound, losses apart,
  exactly when there are at most m slots, and at-most-once holds for one consumer only.
- **A second rejection is never seen.** The idempotency key covers type, session, task and
  epic. Once one rejection of a task has been processed, every later rejection of the same
  task in the session is acknowledged without reaching the manager, and a run from an empty
  system ends with such a task still waiting at its gate. A task without an epic and an
  epic of the same name without a task share a key, too.
- **A rejection is counted before it is validated.** For a task that is IN_PROGRESS, COMPLETE
  or FAILED it raises the fail count, raises an exception and is delivered again: n
  deliveries count n failures and move nothing.
- **A COMPLETE task still counts failures**, and past the threshold errors, task failures and
  patches that do not apply still call the debugger for it. Its state stays.
- **An announcement can be lost.** If handling an approval stops between the state change
  and the publication, the task is COMPLETE and no redelivery announces it; every other
  stopping point is harmless.
- **Evidence is checked for the bundle's own gate**, not for the gate that the request names.
- **`record_decision` ignores the expiry** of a request: a decision is late exactly when its
  request is due and no sweep has come yet. A sweep only sees expiry times from zero on.
- **`RecoveryResult.total`** counts every claimed entry twice.
- **The gate lock can stick.** Taking the lock is outside every try block, and setting its
  time to live is a command of its own. A handler that leaves in between, by an exception or
  by dying, leaves a lock that never goes, and nobody can ever decide the gate: EXPIRE
  without effect, or a SETNX that takes the lock and is not heard of again. Nothing else
  leaves a gate stuck.
- **A release that is repeated can free someone else's lock.** When the early release raises
  after the server has carried it out, the catch-all deletes the lock again and mutual
  exclusion breaks. Exclusion at a gate is proved for all runs without this fault at that
  gate.
- **A gate announced too late can be decided twice.** If that fault meets a handler that found
  no gate, and the gate is announced before the catch-all runs, an approval and a rejection
  can both be published and stored, one over the other. The bound of one recorded decision
  holds in every run exactly for the gates that are there from the start. A gate that is
  decided without this fault stays as it is in every continuation.
- **`get_edges` without a type** misses an edge at one end exactly when its properties lie in
  the other direction only and some other edge of the pair has properties in this one;
  `get_graph` over both ends does not. Edges without properties are never in `get_graph`.
- **A message id used again** after its message expired, for another recipient, leaves the
  new message in the old recipient's inbox.
- **`limit * 2` is not enough with a filter.** A timeline query is complete exactly when its
  window holds enough matches or all of them; without filters and with a limit that the
  timeline can hold it always does, since all messages get the same time to live.
- **Zero overlap lines** makes Python's `[-0:]` keep the whole chunk, so that the last chunk
  is the whole file: the size limit holds only for files below it and for single lines.
- **A file that has shrunk** leaves the documents of its former last chunks in the store: it
  holds exactly the file's chunks if and only if it held none beyond them before.

## Model

| member | source | states |
|---|---|---|
| Text.JoinOfSplit | src/core/events.py:127-131 | Splitting a text and joining it again gives the text back, and the pieces hold no separator |
| Text.SplitOfJoin | src/core/events.py:98-129 | Joining and splitting gives the list back exactly when it is non-empty and separator-free |
| Text.ListRoundTrip | src/orchestrator/task_manager.py:64-77 | A stored list survives exactly when it is not [""] and no element has a comma |
| Text.DecimalRoundTrip | src/orchestrator/task_manager.py:55-81 | Parsing the decimal text of a fail count gives the count |
| Events.ToStreamDict | src/core/events.py:80-109 | The field-by-field encoder fills exactly the fields that are present and non-empty |
| Events.StreamRoundTrip | src/core/events.py:80-164 | Decoding an encoded event gives the event, under the entry's id, if and only if its optional texts are not empty strings and its paths are storable |
| Events.ReadingFailsExactly | src/core/events.py:74-164 | Reading an entry fails if and only if its time does not parse, its type is unknown, or its session is blank or missing |
| Events.MissingFieldsReadAs | src/core/events.py:112-164 | An entry with nothing but a session reads as a creation, now, in normal mode |
| Events.KeyContentsAgree | src/core/events.py:199-231 | For colon-free types, sessions, tasks and epics, two events share what their keys hash if and only if type and session agree and so do task and epic, or a task without an epic meets an epic of its name without a task |
| Events.KeyCoversInOrder | src/core/events.py:199-231 | Split at its colons, the text under the key is the list of the components that are present, in their order |
| Events.ColonsMixKeysUp | src/core/events.py:223-231 | With a colon in it, a task's id alone gives the key of a task of an epic |
| Events.PublishEventModel | src/infrastructure/redis_streams.py:387-400 | An event without a key gets one over type, session, task and epic, any other keeps its own, and a consumer reads the event back with that key if and only if it is storable |
| ConsumerProtocol.StepKeepsSafe | src/infrastructure/consumer_group.py:206-271 | Every action, fault, crash and restart keeps: delivered entries are pending or acknowledged, never both, acknowledged ones justly so; and no history is taken back |
| ConsumerProtocol.PendingOrJustlyAcknowledged | src/infrastructure/consumer_group.py:174-393 | In every run from the start, each delivered entry is pending or acknowledged, not both, and acknowledged only if declined, refused for good, or its key (or itself, without a key) has succeeded with the marker written first |
| ConsumerProtocol.MarkedIsNeverHandled | src/infrastructure/consumer_group.py:231-240 | Once an entry's key is marked and the entry is not at a handler, no continuation hands it to a handler |
| ConsumerProtocol.StepKeepsCount | src/infrastructure/consumer_group.py:242-252 | Every action keeps the balance of successes, lost markers and slots per key |
| ConsumerProtocol.HandlingsBounded | src/infrastructure/redis_streams.py:454-484 | In every run, successes per key are at most the slots plus the lost markers; before the marker exists they are exactly the lost ones and those about to be marked |
| Handlings.EverySlotHandlesIt | src/infrastructure/consumer_group.py:206-252 | The bound is reached from every start: n slots, no crash, no exception, n successes for one key and none lost |
| Handlings.BoundIsExact | src/infrastructure/consumer_group.py:231-252 | In every run successes of an accepted key stay within m plus the lost markers if and only if there are at most m slots |
| EventConsumers.EventConsumer.HandleEvent | src/infrastructure/consumer_group.py:206-271 | The process's commands are the plan for the entry's standing and the handler's own outcome, up to the first that raises: acknowledge what is declined or marked; otherwise hand over, and mark and acknowledge a success, acknowledge a permanent failure, leave a retry pending; how it ends follows from them |
| EventConsumers.EventConsumer.HandleAndSettle | src/infrastructure/consumer_group.py:242-271 | This process's commands are its script up to the first that raises: success marks before it acknowledges, permanent failure acknowledges, retry does neither; the entry is acknowledged exactly when the script is completed |
| EventConsumers.EventConsumer.ProcessOnce | src/infrastructure/consumer_group.py:174-204 | The batch is the next undelivered entries, a full batch or all up to the end of the stream; what is sent is the read and then, entry by entry, that plan; the count is of those that did not raise |
| EventConsumers.EventConsumer.ClaimStale | src/infrastructure/consumer_group.py:294-325 | Exactly the entries of the reply that were idle and are still pending are claimed; among those delivered before, none is missed |
| EventConsumers.EventConsumer.RecoverEntry | src/infrastructure/consumer_group.py:327-375 | The recovery path asks the tracker first, then the handler; its commands are the plan for the entry and the handler's own outcome, and done, skipped, failed or aborted follows from them |
| EventConsumers.EventConsumer.ProcessPending | src/infrastructure/consumer_group.py:273-393 | The recovery pass sends the claim and then each claimed entry's plan; its counters are the numbers of entries per outcome, and a completed pass has a total of twice the claimed entries |
| StateMachine.CompleteIsFinal | src/orchestrator/state_machine.py:63-100 | COMPLETE ends every walk through the table and is the only terminal state |
| StateMachine.CompleteOnlyThroughTheGate | src/orchestrator/state_machine.py:63-86 | Every walk from PENDING to COMPLETE has BLOCKED_HITL directly before it and IN_PROGRESS earlier |
| StateMachine.ReachedFromExactly | src/orchestrator/state_machine.py:63-86 | From exactly which states each state can be reached |
| Tasks.TaskRoundTrip | src/orchestrator/task_manager.py:43-91 | A task read back from its hash is the task written, if and only if its optional texts and paths are storable |
| Tasks.TaskHashHolds | src/orchestrator/task_manager.py:43-66 | Which field of the hash holds what, and which are absent |
| Tasks.TaskReadsExactly | src/orchestrator/task_manager.py:67-91 | Reading a hash fails if and only if a state, count or time in it does not parse; an empty one is a PENDING task without failures |
| Tasks.OverwriteIsMerged | src/orchestrator/task_manager.py:184-199 | Writing a task over a stored one keeps the stored agent, SHA and paths that the new one lacks |
| Tasks.SessionRoundTrip | src/orchestrator/task_manager.py:108-137 | A session read back is the session written, if and only if its epic list is storable |
| Tasks.MissingSessionReadsAs | src/orchestrator/task_manager.py:119-137 | An empty session hash reads as an active session without anything in it |
| Evidence.AcceptedIffSupported | src/orchestrator/evidence_bundle.py:176-217 | A bundle passes exactly when it holds an item of a type its own gate asks for |
| Evidence.AcceptedIffServed | src/orchestrator/evidence_bundle.py:161-217 | A bundle passes if and only if one of its items is of a type that serves its gate, by the table read from the types to the gates |
| Evidence.RefusedExactly | src/orchestrator/evidence_bundle.py:176-217 | A refusal says that there was no item exactly when there was none, and otherwise which types were there |
| Evidence.AcceptanceCoversOnlyOwnGate | src/orchestrator/evidence_bundle.py:161-217 | Passing one gate's check implies another gate's evidence exactly when the gates are the same |
| Dispatcher.RequestingKeeps | src/orchestrator/hitl_dispatcher.py:339-391 | Creating a request keeps index, counts and logs in agreement and settles nothing |
| Dispatcher.DecidingKeeps | src/orchestrator/hitl_dispatcher.py:413-479 | Deciding a pending request keeps them too, and changes no request that has left PENDING |
| Dispatcher.SweepingKeeps | src/orchestrator/hitl_dispatcher.py:518-558 | So does a sweep over any ids |
| Dispatcher.SweepIsExact | src/orchestrator/hitl_dispatcher.py:518-558 | A sweep expires exactly the pending requests whose expiry lies between zero and now |
| Dispatcher.SweepClears | src/orchestrator/hitl_dispatcher.py:518-558 | After a sweep nothing is due |
| Dispatcher.LateDecisionsExactly | src/orchestrator/hitl_dispatcher.py:413-479 | A decision is taken on a lapsed request if and only if the request is due and unswept |
| Dispatcher.NoLateDecisionAfterSweep | src/orchestrator/hitl_dispatcher.py:413-558 | Right after a sweep no decision of that time or earlier is late |
| Dispatcher.LapsedRequestIsApproved | src/orchestrator/hitl_dispatcher.py:413-479 | A request that expires at time 1 is approved at time 5 |
| Dispatcher.MatchingIsExact | src/orchestrator/hitl_dispatcher.py:481-506 | The pending query finds exactly the PENDING requests of the gate asked for |
| Dispatcher.HitlDispatcher.RequestGate | src/orchestrator/hitl_dispatcher.py:317-391 | A request is created exactly when the evidence passes, with what it holds, one event and one log entry, each field by field; an error changes nothing |
| Dispatcher.HitlDispatcher.RecordDecision | src/orchestrator/hitl_dispatcher.py:393-479 | A decision is taken exactly when the request exists and is PENDING, whatever its expiry: its status, and one event and one log entry with the stored request's session, task and gate and the decision's reviewer and reason; an error changes nothing |
| Dispatcher.HitlDispatcher.CheckExpired | src/orchestrator/hitl_dispatcher.py:518-558 | Each request is expired if its time has come and otherwise untouched; the result lists exactly those, and one event per expired request tells its session, task and id |
| Dispatcher.HitlDispatcher.GetPendingRequests | src/orchestrator/hitl_dispatcher.py:481-506 | The loop returns exactly the PENDING requests of the gate |
| Manager.TransitionSound | src/orchestrator/task_manager.py:219-264 | A legal transition extends the task's path through the table and completes only the approved task |
| Manager.HandleKept | src/orchestrator/manager_agent.py:77-408 | Whatever the event and wherever handling stops: states form paths, fail counts are increments, completion is announced at most once, no approval is published, only the approved task becomes COMPLETE |
| Manager.HandleInStep | src/orchestrator/manager_agent.py:122-408 | Between creations the counted announcements of a task are the completion events published; no handler publishes one by another way |
| Manager.FinishedForGood | src/orchestrator/manager_agent.py:288-318 | Under any deliveries but a new creation a COMPLETE task stays COMPLETE, with its number of announcements |
| Manager.AnnouncementLostExactly | src/orchestrator/manager_agent.py:288-318 | An approval's announcement is lost for good exactly when handling stops between state change and publication; stopping earlier changes nothing, later announces once |
| Manager.ManagerAgent.IncrementFailCountCall | src/orchestrator/task_manager.py:266-286 | Adds one failure and returns the new count |
| Manager.ManagerAgent.OnEvent | src/orchestrator/manager_agent.py:77-120 | Routing: success exactly when no call raised, and the invariant of HandleKept |
| Moves.CreatedExactly | src/orchestrator/manager_agent.py:122-141 | TASK_CREATED gives a PENDING task with the event's session, epic and SHA; which fields of an older one remain |
| Moves.DispatchedExactly | src/orchestrator/manager_agent.py:143-163 | TASK_DISPATCHED moves exactly from PENDING, TESTING, REVIEW and BLOCKED_HITL, to IN_PROGRESS with the named agent; otherwise it raises |
| Moves.AgentCompletedExactly | src/orchestrator/manager_agent.py:165-219 | AGENT_COMPLETED without a failing patch moves exactly from IN_PROGRESS, to TESTING, with one dispatch of the test runner; otherwise it raises |
| Moves.PatchFailedExactly | src/orchestrator/manager_agent.py:186-203 | With a failing patch it counts a failure and moves nothing |
| Moves.FailedExactly | src/orchestrator/manager_agent.py:221-286 | AGENT_ERROR and TASK_FAILED count a failure in any state, and past four call the debugger with the task's own session and epic |
| Moves.ApprovedExactly | src/orchestrator/manager_agent.py:288-318 | GATE_APPROVED moves exactly from BLOCKED_HITL, to COMPLETE, with one announcement; otherwise nothing happens |
| Moves.RejectedExactly | src/orchestrator/manager_agent.py:320-362 | GATE_REJECTED counts in any state; where the task can go back to IN_PROGRESS it does and its agent is asked again, otherwise it raises |
| Moves.PatchCreatedExactly | src/orchestrator/manager_agent.py:364-408 | PATCH_CREATED changes no task and reports on its first patch |
| Moves.NothingElseMoves | src/orchestrator/manager_agent.py:77-120 | Any other event, one without a task, and one for an unknown task change nothing and succeed |
| Moves.PatchesInOrder | src/orchestrator/manager_agent.py:183-186 | The patches are the paths that end in .patch, in their order |
| Failures.FailuresSinceCreation | src/orchestrator/task_manager.py:184-286 | A creation, delivered again or not, starts the count anew: after it and any deliveries the fail count is the number of those that counted since |
| Failures.UpdatesExactly | src/orchestrator/task_manager.py:219-264 | A state update goes through if and only if the task is known and the transition is in the table; then state, time and a given agent change and nothing else, otherwise nothing |
| Failures.PatchesApplied | src/orchestrator/manager_agent.py:165-219 | The patch loop ends exactly when its calls complete, fails exactly when a patch does not apply, and leaves the SHA of the last patch recorded, wherever it is cut |
| Failures.OtherTasksUntouched | src/orchestrator/manager_agent.py:77-408 | An event changes no task but its own |
| Failures.FailCountMoves | src/orchestrator/manager_agent.py:165-362 | A delivery raises a task's fail count by one exactly when it is a failure event of the task whose handling gets as far as counting, and never otherwise |
| Failures.FailuresAddUp | src/orchestrator/manager_agent.py:213-286 | Over any deliveries the fail count grows by the number of those |
| Failures.CompleteTaskChanges | src/orchestrator/manager_agent.py:165-408 | Exactly what changes or publishes for a COMPLETE task under any event but its creation: fail count and time under failures, a call of the debugger past the threshold, and the report on a patch |
| Failures.RejectionCountsWithoutMoving | src/orchestrator/manager_agent.py:320-362 | A rejection counts without moving its task, and raises, if and only if the task is IN_PROGRESS, COMPLETE or FAILED |
| Failures.RejectionsAddUp | src/orchestrator/manager_agent.py:320-362 | n deliveries of such a rejection count n failures, move nothing and publish nothing |
| Orchestration.StepReaches | src/infrastructure/consumer_group.py:174-393 | Every step of the whole system is a run of the consumer protocol |
| Orchestration.HandlingEndsExactly | src/infrastructure/consumer_group.py:242-271 | What a handled event leaves of the system: the manager's state, its events on the stream, and its entry settled if no call raised and pending otherwise |
| Orchestration.StepKeepsSystem | src/orchestrator/manager_agent.py:77-362 | Every step keeps protocol safety, task soundness, gate validity and granted approvals together |
| Orchestration.CompleteMeansApproved | src/orchestrator/hitl_dispatcher.py:317-479 | In every run, a COMPLETE task has an APPROVED request of its own whose stored bundle holds an item its gate asks for |
| Orchestration.TasksFollowTheTable | src/orchestrator/state_machine.py:63-100 | In every run, since its creation a task has walked the table from PENDING, COMPLETE only from BLOCKED_HITL, fail count equal to increments, announced at most once |
| Orchestration.AnnouncedAtMostOnce | src/orchestrator/manager_agent.py:288-318 | Between creations of a task, in every run, TASK_COMPLETED is published at most once and only for a task that ends COMPLETE |
| Orchestration.GroupKeepsItsPromises | src/infrastructure/consumer_group.py:206-375 | In every run of the whole system the consumer group's promises hold |
| Orchestration.FailuresInStep | src/orchestrator/manager_agent.py:213-362 | Between creations, in every run, a task's fail count grows by exactly the handled failure events that got as far as counting |
| Orchestration.SecondDecisionIsUnseen | src/core/events.py:199-231 | After one processed decision no step of any continuation hands the manager another of the same kind for the task and session, and it neither succeeds nor fails |
| Orchestration.DecisionReachesManagerExactly | src/infrastructure/consumer_group.py:231-240 | At its check such a decision goes on to the manager if and only if none of the kind is marked yet |
| Rejections.SecondRejectionIsLost | src/orchestrator/manager_agent.py:320-362 | From any fresh system a run leads to a second rejection that is acknowledged unseen while its task is still BLOCKED_HITL |
| SlackDecisions.ActionKeepsGate | src/infrastructure/slack_bridge/decision_handler.py:166-233 | Every action but a phantom release at this gate keeps the gate's lock ownership, program counters and books |
| SlackDecisions.ExclusionInEveryRun | src/infrastructure/slack_bridge/decision_handler.py:166-233 | In every run without a phantom release at the gate at most one handler is in its critical section, whatever happens at other gates |
| SlackDecisions.GateDecidedOnce | src/infrastructure/slack_bridge/decision_handler.py:269-309 | Unless a handler that found no gate makes a phantom release there, published decisions are at most one more than the unrecorded ones; without those, the stored status is that of the single decision |
| SlackDecisions.SuccessIsRecorded | src/infrastructure/slack_bridge/decision_handler.py:293-309 | A handler that reported success has its verdict stored |
| SlackDecisions.ActionKeepsClosed | src/infrastructure/slack_bridge/decision_handler.py:213-233 | No action, phantom releases included, changes a decided gate or publishes a further decision for it |
| SlackDecisions.DecidedForGood | src/infrastructure/slack_bridge/decision_handler.py:213-233 | Once a gate is decided in a run, no continuation, whatever its faults, changes its status or publishes another decision |
| SlackDecisions.TimelyHasNoStray | src/infrastructure/slack_bridge/decision_handler.py:213-233 | A gate that nobody tried to decide before it was announced has no strays, whatever else goes wrong |
| SlackDecisions.StrayDecidesTwice | src/infrastructure/slack_bridge/decision_handler.py:213-233 | A run with a late announcement publishes two decisions, leaves none unrecorded, and stores a rejection over an approval |
| SlackDecisions.BoundHoldsExactlyForKnownGates | src/infrastructure/slack_bridge/decision_handler.py:213-309 | The bound on published decisions holds of every run, all faults included, if and only if the gate is there from the start |
| SlackDecisions.LockLeftBehindExactly | src/infrastructure/slack_bridge/decision_handler.py:166-190 | Exactly which exits leave the lock behind; all others release it |
| SlackDecisions.PhantomBreaksExclusion | src/infrastructure/slack_bridge/decision_handler.py:217-233 | After a phantom release the next handler gets in beside the first |
| SlackDecisions.SticksExactly | src/infrastructure/slack_bridge/decision_handler.py:166-181 | A step leaves a gate with a lock that has neither time to live nor holder if and only if a handler leaves between SETNX and EXPIRE, by an exception or by dying |
| SlackDecisions.StuckExactly | src/infrastructure/slack_bridge/decision_handler.py:166-233 | In every run without a phantom release at the gate it is stuck at the end if and only if some handler has left there |
| SlackDecisions.StuckForGood | src/infrastructure/slack_bridge/decision_handler.py:207-211 | From then on no continuation, whatever its faults, decides the gate |
| Permissions.DeniedForGood | src/infrastructure/slack_bridge/decision_handler.py:260-267 | In every run, faults and phantoms included, exactly those who arrive without the role end denied, for good, and they own no lock |
| Permissions.OnlyTheAllowedPublish | src/infrastructure/slack_bridge/decision_handler.py:260-291 | In every run a gate's published decisions with a verdict are at most the arrivals with the role for that verdict |
| Permissions.OnlyTheAllowedDecide | src/infrastructure/slack_bridge/decision_handler.py:260-302 | In every run a gate has another status than at first only if somebody with the role came to give it that one |
| Permissions.ReportsAreTrue | src/infrastructure/slack_bridge/decision_handler.py:192-233 | In every run who reports a decided gate is right, who reports none came to one not there from the start, who reports it busy was not alone, and who raised or died did |
| DecisionHandlers.DecisionHandler.AcquireLock | src/infrastructure/slack_bridge/decision_handler.py:166-181 | The code's two commands, how many answered, and where each exception leads |
| DecisionHandlers.DecisionHandler.CheckGateStatusAndLock | src/infrastructure/slack_bridge/decision_handler.py:192-233 | None means pending and locked after three commands; every exception leaves through the machine's exits, with the commands it takes |
| DecisionHandlers.DecisionHandler.HandleDecision | src/infrastructure/slack_bridge/decision_handler.py:235-389 | Approval and rejection are runs of the lock machine and end where it says: denied exactly without the role, with nothing sent; busy after one command, not found and already decided after four, successful exactly after six, and an exception only if a command raised |
| GraphStore.AddRefines | src/infrastructure/graph_store/redis_store.py:101-128 | Adding keeps the indexes consistent and adds exactly one undirected typed link |
| GraphStore.RemoveRefines | src/infrastructure/graph_store/redis_store.py:130-151 | Removing, from either end, removes exactly that link |
| GraphStore.DeleteRefines | src/infrastructure/graph_store/redis_store.py:293-320 | Deleting a node removes exactly its links |
| GraphStore.MissedAtOneEndExactly | src/infrastructure/graph_store/redis_store.py:197-247 | Exactly when the untyped query misses an edge with properties at one end |
| GraphStore.CollectedIsExact | src/infrastructure/graph_store/redis_store.py:279-291 | What the collecting loops keep implies that exactly the listed edges with properties are covered |
| GraphStore.RedisGraphStore.AddNode | src/infrastructure/graph_store/redis_store.py:87-99 | Merges properties; an empty hash is refused before anything is written |
| GraphStore.RedisGraphStore.AddEdge | src/infrastructure/graph_store/redis_store.py:101-128 | Both directions; the properties merged under the direction given; one abstract link more |
| GraphStore.RedisGraphStore.RemoveEdge | src/infrastructure/graph_store/redis_store.py:130-151 | True exactly when the link existed |
| GraphStore.RedisGraphStore.GetNeighbors | src/infrastructure/graph_store/redis_store.py:153-177 | The neighbours of one type, or of all, whatever order the keys come in |
| GraphStore.RedisGraphStore.GetEdges | src/infrastructure/graph_store/redis_store.py:179-249 | Exactly the records reported for the node, without duplicates |
| GraphStore.RedisGraphStore.GetGraph | src/infrastructure/graph_store/redis_store.py:251-291 | Edges are sound, complete for listed pairs with properties, and never doubled in either direction |
| GraphStore.RedisGraphStore.DeleteNode | src/infrastructure/graph_store/redis_store.py:293-320 | Every trace of the node goes and everything else stays |
| GraphKeys.EdgeKeysTellApart | src/infrastructure/graph_store/redis_store.py:120-124 | With colon-free parts, keys are injective, kinds differ, and the last piece is the type |
| GraphKeys.ColonsMixEdgesUp | src/infrastructure/graph_store/redis_store.py:124 | A colon in an id makes two edges share a key |
| GraphKeys.SourcePatterns | src/infrastructure/graph_store/redis_store.py:302-314 | The patterns by source node find exactly its keys |
| GraphKeys.PairPattern | src/infrastructure/graph_store/redis_store.py:220 | The pattern by pair finds exactly the pair's edges |
| GraphKeys.TargetPattern | src/infrastructure/graph_store/redis_store.py:315 | The pattern by target node finds exactly the edges to it |
| Correlation.Handshake | src/orchestrator/routes/correlation_api.py:287-293 | Degrees and loops add up to twice the edges, for distinct ideas |
| Correlation.HandshakeExactly | src/orchestrator/routes/correlation_api.py:287-306 | Degrees add up to twice the edges exactly when no edge is a loop |
| Correlation.DegreeCountsLinks | src/orchestrator/routes/correlation_api.py:291-293 | Without doubled records a degree is a number of links |
| Correlation.CorrelationApi.CreateCorrelation | src/orchestrator/routes/correlation_api.py:77-131 | A self-correlation is refused untouched; otherwise exactly one link is added, with the four properties, and every link keeps properties |
| Correlation.CorrelationApi.DeleteCorrelation | src/orchestrator/routes/correlation_api.py:184-227 | Found exactly when the link exists, in either order of the ends |
| Correlation.CorrelationApi.GetGraph | src/orchestrator/routes/correlation_api.py:230-312 | The edges are exactly those between the ideas, one per link; each degree is the number of the idea's links to listed ideas, and the degrees add up to twice the edges |
| Ingester.WindowsAreDetermined | src/infrastructure/repo_ingestion/ingester.py:83-108 | Contiguity and closing only when the next line does not fit determine the chunks |
| Ingester.KeptIsTheSlice | src/infrastructure/repo_ingestion/ingester.py:98 | The lines kept are those of Python's slice, for positive, zero and negative overlaps |
| Ingester.NoMoreChunksThanLines | src/infrastructure/repo_ingestion/ingester.py:91-108 | Never more chunks than lines |
| Ingester.ChunksAreSmall | src/infrastructure/repo_ingestion/ingester.py:91-102 | With a positive overlap a chunk is shorter than the limit, or is the overlap and one line |
| Ingester.ZeroOverlapKeepsEverything | src/infrastructure/repo_ingestion/ingester.py:98 | With overlap zero every chunk starts at the first line |
| Ingester.ZeroOverlapIsSmallExactly | src/infrastructure/repo_ingestion/ingester.py:91-108 | With overlap zero the chunks keep that bound if and only if the whole text is shorter than the limit or a single line |
| Ingester.CoverGivesContent | src/infrastructure/repo_ingestion/ingester.py:86-108 | Dropping the kept lines of each later chunk and joining gives the content back |
| Ingester.ChunkContent | src/infrastructure/repo_ingestion/ingester.py:69-108 | The chunks are those of contiguous greedy windows over all lines, for every limit and overlap, and give the content back |
| Ingester.DocIdsTellApart | src/infrastructure/repo_ingestion/ingester.py:269-270 | Document ids tell files and chunks apart, colons in paths included |
| Ingester.RepoIngester.IngestFile | src/infrastructure/repo_ingestion/ingester.py:209-297 | Which error comes when; on success exactly the numbered chunks are stored, each with its content, path, number and total; on a refused chunk exactly those before it |
| Ingester.HoldsExactlyTheFile | src/infrastructure/repo_ingestion/ingester.py:265-297 | After an ingest the store holds exactly the file's chunks if and only if it held no document beyond them before |
| Ingester.ShrunkenFileLeavesDocuments | src/infrastructure/repo_ingestion/ingester.py:265-297 | After a shorter file the former last chunks are still there, with their former contents |
| Ingester.SecondLineStays | src/infrastructure/repo_ingestion/ingester.py:265-297 | Two lines of which the second goes: the store still holds its chunk and not exactly the second file's |
| Classification.StepKeepsSound | src/workers/classification_worker.py:235-409 | Every action of any worker or client keeps records, statuses and the place of every item |
| Classification.EveryItemIsAccountedFor | src/workers/classification_worker.py:123-172 | In every run completed, failed, queued, in flight and unpushed add up to the total, idea by idea too |
| Classification.TerminalMeansSettled | src/workers/classification_worker.py:301-368 | A status is terminal exactly when nothing is outstanding, FAILED exactly when nothing completed, and results and errors then hold the submitted ideas |
| Classification.BackoffIsBounded | src/workers/classification_worker.py:387-409 | No item is retried more than three times, and it has waited exactly 0, 1, 3 or 7 seconds after so many retries |
| Classification.AttemptsMove | src/workers/classification_worker.py:273-281 | Every call of the classifier uses up an attempt and nothing gives one back |
| Classification.FourAttemptsEach | src/workers/classification_worker.py:273-281 | In every run n items take at most 4n calls, whatever fails |
| Classification.StepsFall | src/workers/classification_worker.py:205-281 | Every action but a submission uses up one of finitely many steps |
| Classification.RunsDrain | src/workers/classification_worker.py:205-281 | Without submissions every run ends, and where it cannot go on every non-empty job is terminal |
| Verdicts.OutcomesAreRecorded | src/workers/classification_worker.py:301-368 | In every run a job's record holds exactly the classifier's last answers for its items: successes in the results, all others in the errors, each counted |
| Verdicts.ResultsAreClassified | src/workers/classification_worker.py:301-368 | No result is an error and no error a result |
| Verdicts.MarkCountsExactly | src/workers/classification_worker.py:301-368 | A mark of an answer that classifies raises `completed` and leaves `failed`, any other does the reverse |
| Verdicts.StatusExactly | src/workers/classification_worker.py:283-368 | In every run which status a job has, from PENDING over PROCESSING to COMPLETED or FAILED |
| Verdicts.SingleJobExactly | src/workers/classification_worker.py:76-121 | A job of one idea is COMPLETED if and only if the idea was classified |
| Queueing.FirstInFirstOut | src/workers/classification_worker.py:205-225 | In every run the queue is what was pushed and not yet popped, first in, first out |
| Queueing.WorkersKeepTheirItem | src/workers/classification_worker.py:235-249 | A worker works on the item its last pop took, with its job, idea, force flag and retries |
| Queueing.PushedAsSubmitted | src/workers/classification_worker.py:76-172 | In every run a job's record and pushed items are those of its submission, in its order and with its force flag |
| ClassificationWorkers.ClassificationWorker.Enqueue | src/workers/classification_worker.py:76-121 | A job of one idea without a list of results, pushed |
| ClassificationWorkers.ClassificationWorker.EnqueueBatch | src/workers/classification_worker.py:123-172 | The record first, then every item, whatever runs in between |
| ClassificationWorkers.ClassificationWorker.ProcessJob | src/workers/classification_worker.py:235-281 | Exactly the commands of the item's script: status, call, and record or retry |
| ClassificationWorkers.ClassificationWorker.RetryJob | src/workers/classification_worker.py:387-409 | Sleep, then push with one more retry |
| ClassificationWorkers.ClassificationWorker.ProcessQueue | src/workers/classification_worker.py:205-233 | Alone, the loop empties any queue within the attempts left |
| Coordination.PostedExactly | src/infrastructure/coordination/client.py:371-395 | Publishing under an id that is not live keeps the indexes exact if and only if the id is in no other inbox and not pending without need |
| Coordination.PostedIndexed | src/infrastructure/coordination/client.py:371-395 | Publishing a new id keeps the indexes exact and the timeline the newest part of everything published |
| Coordination.AckedIndexed | src/infrastructure/coordination/client.py:700-721 | An acknowledgement keeps that |
| Coordination.PublishedIndexed | src/infrastructure/coordination/client.py:362-395 | Time passing and then a publication keep indexes, timeline and deadlines in agreement |
| Coordination.ElapsedIndexed | src/infrastructure/coordination/client.py:373-375 | When time passes, exactly the hashes that are due go, and that keeps it, though no index hears of it |
| Coordination.SameTimeToLive | src/infrastructure/coordination/client.py:373-375 | As all messages get the same time to live, they expire in the order of publication |
| Coordination.IndexesAreSound | src/infrastructure/coordination/client.py:535-592 | A query by inbox or pending set finds what a scan of all live messages would; a timeline query finds all its window holds |
| Coordination.CutTimesAgreeExactly | src/infrastructure/coordination/client.py:558-590 | Cut timestamps and full scores agree with a since time if and only if it is a whole second |
| Coordination.WindowIsEnoughExactly | src/infrastructure/coordination/client.py:555-598 | A timeline query answers for all live messages if and only if its window fills the answer or holds every match |
| Coordination.UnfilteredIsComplete | src/infrastructure/coordination/client.py:565-598 | Without filters twice the limit is enough, on every board that publications, acknowledgements and time can reach, for limits that the timeline holds |
| Coordination.ShortHistoryIsComplete | src/infrastructure/coordination/client.py:555-572 | So it is with any filter while the window reaches back far enough |
| Coordination.ReusedIdLeaks | src/infrastructure/coordination/client.py:362-388 | An id used again for another recipient leaves an inbox wrong |
| Coordination.FilteredQueryMisses | src/infrastructure/coordination/client.py:565-590 | A filtered query can miss a live match |
| Coordination.CoordinationClient.PublishMessage | src/infrastructure/coordination/client.py:255-419 | An error for a live id, otherwise the transaction as a whole |
| Coordination.CoordinationClient.AcknowledgeMessage | src/infrastructure/coordination/client.py:645-728 | False for an unknown id; a first acknowledgement changes that message alone, which keeps all but the flag and who, when and with what comment; a second changes nothing |
| Coordination.CoordinationClient.GetMessages | src/infrastructure/coordination/client.py:496-605 | The newest matches up to the limit, newest first with ties free: of all live messages for an index or an unfiltered query, of the window otherwise; each is what every filter asks for |

## Left out

- ConsumerProtocol.HandlingsBounded: markers do not expire within a run and one group reads the stream; the tracker's time to live and a tracker shared between groups are not modelled.
- ConsumerProtocol.PendingOrJustlyAcknowledged: entries parse and the stream is not trimmed; the placeholder entry that creates the stream is excluded.
- EventConsumers.EventConsumer.ProcessPending: which exceptions end the pass early is modelled, not which of them the caller sees; the claim of at most a hundred entries is any subset of the idle ones.
- Events.StreamRoundTrip: the JSON and ISO libraries and the enumeration lookup are given as inverse pairs; metadata holds texts, numbers and flags among them as their JSON text.
- Tasks.OverwriteIsMerged: stored for storable tasks only, as for the others the hash does not read back.
- Dispatcher.HitlDispatcher.RequestGate: each dispatcher call is one step; a crash between its writes is not modelled, nor is the trimming of the audit stream to 100000 entries. Ids are numbers that the caller draws anew; event metadata is any map.
- Manager.ManagerAgent.OnEvent: the handlers stop at any call but run as one step towards other processes, so that two managers on one task do not interleave inside a handler. A call that takes effect and then raises is the next call raising; where it is a handler's last call, the case is missing. The task and session stores are fields of the agent's class; while the SHA of a patch is recorded or a patch report published, an exception is modelled as the end of the handling, and the texts of exceptions are left out. `dispatch_to_worker` is left out.
- Manager.ManagerAgent.IncrementFailCountCall: counting for a task without a hash is not modelled, as no handler does it.
- Orchestration.CompleteMeansApproved: other components may publish any event but an approval and move tasks anywhere but to COMPLETE; the Slack handler as a second publisher of approvals is not part of this theorem.
- SlackDecisions.ExclusionInEveryRun: a lock's time to live does not run out while its holder is at work, and phantom releases at the gate are excluded (PhantomBreaksExclusion says why). Role checks are a flag of the arriving handler; message updates and modals are left out.
- GraphStore.RedisGraphStore.GetGraph: each store method is one step, and edge properties named like the record's own fields are not modelled. Property values are texts; JSON in them is not parsed.
- GraphKeys.TargetPattern: patterns are modelled by their literal parts; ids with glob characters are excluded.
- Correlation.CorrelationApi.GetGraph: the mock mode without a graph store, labels and shortened contents are left out.
- Coordination.CoordinationClient.AcknowledgeMessage: checking and updating is one step; a hash that expires between the two would come back as a fragment.
- Coordination.CoordinationClient.PublishMessage: ids are never reused and times rise (ReusedIdLeaks says what happens otherwise); all clients and the store read one clock, and a hash goes when its time has come; notifications, queues for offline instances and presence are left out.
- Coordination.CoordinationClient.GetMessages: the order among messages of one second is left open, as the set of candidates has none.
- Ingester.RepoIngester.IngestFile: reading files, path checks and sizes are parameters; the document's time stamp, type and repository path are left out, as is the walk over a repository.
- Classification.StepKeepsSound: Redis calls succeed and reading and writing back a record is one step; only the classifier fails.
- ClassificationWorkers.ClassificationWorker.ProcessQueue: the loop is given a number of turns; waiting on an empty queue takes one.
- Routing tables, field mappers, configuration, role lookup, health checks, tenants, embeddings, LLM and network clients: they keep no state from one step to the next.
