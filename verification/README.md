# Verified model of the robot coordination core

The program coordinates physical robots: a Server starts and stops Robot Runtime instances, a Pilot
runs Skills whose actions drive one robot at a time, and an event bus, an approval service, a package
installer and a tool directory sit around them. This project models the state machines on which its
safety rests and proves their properties with Dafny.

`dafny verify dfyconfig.toml` checks everything. One module per cluster:

- `Mailbox`, `EventBus`: a subscriber's bounded channel, overflow queue, worker and one-token wake
  channel as steps at lock and channel granularity; the routing table in front of them.
- `Throttle`, `ActionJournal`, `Runner`, `LostSaves`, `RunnerRestarts`: the feedback throttle, the action
  journal, the runner's calls with its per-robot physical lock, feedback under failing journal writes, and
  the lock over restarts.
- `StartOnce`, `StartExclusion`, `StartOverlap`: the crash-safe start of an action under every interleaving,
  and the gap between its busy check and its lock.
- `SkillStore`, `SkillRuntime`, `SkillLocks`, `SkillLockHistories`, `SkillRuntimeCalls`, `SkillEndings`: the
  two stores of skill executions, the life of an execution as interleaved reads, writes and critical
  sections, what each way of giving a robot up means for its physical lock, the same calls taken whole, and
  ends that the store does not show.
- `Orchestrator`, `SceneRobots`: the life of Robot Runtime instances with every dependency allowed to
  fail at every call, and the scene's use of it.
- `PackageSet`, `BindingSelection`, `Bindings`: component closure and installation order, compatible
  selections, and per-robot bindings with history, rollback and removal.
- `Interaction`: approval requests racing with replies, timeout, context and session cancellation.
- `WorkerRpc`: the worker's JSON-RPC link and the barrier between notifications and results.
- `Registry`, `Discovery`: the MCP tool directory and the binding of actions to Ability instances.

Each state machine is a value with a transition function, an invariant and lemmas over all histories.
Beside it a class holds the program's own fields; its methods are proved to move the abstract state
exactly as the transition of the same operation, or, where a call is several steps, as those steps one
after the other, so that what is proved of the transitions holds of the methods. Algorithms without
shared state (closure, selection, discovery) are methods proved against order-free conditions. What the
outside world does (an answer, a failing write, the clock, a new ID) is an argument, chosen anew at every
step.

## Findings

Places where the code does less than its own promise, each with a history that shows it and the exact
condition:

- A start under an ID whose record belongs to another robot can undo everything
  (`Orchestrator.OtherRobotsIdIsUnsafe`). It is safe exactly if that ID holds no port lease
  (`Orchestrator.RequestedIdMustHoldNoLease`).
- Cancelling a session can report "not approved" for a request whose approval is stored
  (`Interaction.ApprovalIsHidden`): exactly while a cancellation's wake-up lies in its channel, or the
  channel is empty and a cancellation has it on its list (`Interaction.HiddenExactlyIfListed`). An answer
  stored while none has it there comes back as stored (`Interaction.ResultAgreesUnlessListed`).
- A request whose caller's context ends comes back without the answer although its record says approved
  (`Interaction.ApprovalIsDisowned`): exactly if the approval was stored before, or the record was pending
  and its cancellation failed (`Interaction.ContextDisownsExactly`).
- With two calls at their barriers, a run and its stop, one wake token can leave the stop parked although
  its barrier has been passed (`WorkerRpc.StopCanBeStalled`), until the next message is handled
  (`WorkerRpc.StalledUntilNextMessage`); it takes another call's step (`WorkerRpc.OnlyAnotherCallStalls`).
- An execution can give its robot up while its own action holds the physical lock. An early failure is
  judged by a flag that is raised only after the start call returned
  (`SkillLockHistories.EarlyFailureOverHeldLock`), or the lock is taken after the flag was read
  (`SkillLockHistories.EarlyFailureOverLaterLock`) or after a verdict
  (`SkillLockHistories.CompletionOverLaterLock`), or a worker calls its stop safe too early
  (`SkillLockHistories.SafeStopOverHeldLock`). `SkillLocks.ClaimsAreDroppedForAReason` says for every drop
  in every history when the lock can be held at it, and `SkillLocks.LockSinceJudged` when it is.
- Two starts of physical actions on one robot can both be sent (`StartOverlap.TwoStartsCanOverlap`). Two
  that are past the busy check can be exactly if each has its record or a key that is not journalled yet,
  and no common one (`StartOverlap.BothSentExactly`). Two get past it exactly if one passes while the other
  stands between its own check and the lock, or an action is reported over while its start still waits
  (`StartExclusion.LostExactlyBy`, `StartOverlap.ReportedOverLetsAnotherIn`).
- A safe stop of an interrupted execution reports stopped while the store keeps interrupted
  (`SkillEndings.SafeStopOverInterrupted`). `SkillRuntimeCalls.StopOutcome` says for a whole stop, and
  `SkillRuntime.SafeStopIsStored` for its last write, when the two agree.
- A completed execution can be deregistered while it stays stored as running, to be recovered at the next
  boot (`SkillEndings.CompletedButStoredRunning`): exactly if the write of its end fails
  (`SkillRuntimeCalls.FinishOutcome`).
- A restart can forget the lock of an action of unknown outcome (`RunnerRestarts.RestartForgetsTheLock`) and
  let another one on that robot (`RunnerRestarts.RestartLetsAnotherIn`). It rebuilds the same locks exactly
  if no record that holds one is interrupted and no record that was let go of by hand has become active again
  (`Runner.RestartRebuildsLocks`), and guards what may still be going on exactly if each such record is
  active and its robot's only active one (`RunnerRestarts.RestartGuardsExactly`).
- When the write of a report fails, readers can miss a change of status or phase
  (`LostSaves.ChangeIsLost`). They miss no error or critical record (`LostSaves.StoredIsHonest`), and the
  throttle stays in step with the record exactly if what the lost report let through ended with the last
  stored status and phase (`LostSaves.InStepExactlyIfSteady`); then no change is missed
  (`LostSaves.SteadyKeepsTrace`).
- Dots in server names break the separation of the tool directory's servers
  (`Registry.DottedServersInterfere`, `Registry.OthersKeptExactly`). A tool that is listed twice breaks its
  report exactly if the directory had that tool already (`Registry.AddedIsNewUnlessRepeated`,
  `Registry.KnownToolListedTwice`).

## Model

| member | source | states |
|---|---|---|
| Mailbox.StepKeepsInv | internal/event/bus.go:91-187 | every step of any publisher, the worker, the subscriber or stop keeps order, keeps a wake-up on its way while a parked worker has work, and keeps at most 64 droppable events queued |
| Mailbox.DeliveryInOrder | internal/event/bus.go:91-175 | in every interleaving, received ++ buffered ++ in the worker's hand is a prefix of the accepted events in acceptance order, and until stop the queue holds exactly the rest |
| Mailbox.ReliableNeverLost | internal/event/bus.go:91-125 | the reliable events among the accepted ones are exactly those enqueued before stop, in that order |
| Mailbox.InternalStepsRunOut | internal/event/bus.go:128-175 | signalling, worker and subscriber steps strictly use up a measure of remaining work and accept nothing |
| Mailbox.QuiescentMeansDelivered | internal/event/bus.go:157-175 | a live mailbox in which none of them can go on has handed over everything it accepted: no wake-up was lost |
| Mailbox.EveryAcceptedEventArrives | internal/event/bus.go:128-175 | however they are scheduled they stop within that measure, and every accepted event has then been received in order |
| Mailbox.Subscription.EnqueueLocked | internal/event/bus.go:91-117 | the locked part of enqueue: fast path, droppable bound or queue, with the backlog reported and whether a signal is due |
| Mailbox.Subscription.Signal | internal/event/bus.go:119-124 | the non-blocking wake-up: one token at most |
| Mailbox.Subscription.TakeNext | internal/event/bus.go:128-147 | takes the oldest queued event, or parks; an emptied queue is reset |
| Mailbox.Subscription.Send | internal/event/bus.go:161-163 | the worker's send when the channel has room |
| Mailbox.Subscription.MarkDelivered | internal/event/bus.go:149-153 | the event in flight is over, which reopens the fast path |
| Mailbox.Subscription.StopMailbox | internal/event/bus.go:177-187 | stop drops the queue once and for all |
| EventBus.Deliver | internal/event/bus.go:91-125 | an uninterrupted enqueue accepts every reliable event of a live mailbox |
| EventBus.Bus.Publish | internal/event/bus.go:199-232 | every subscriber of the topic, and nobody else, is offered the event once; a reliable one is accepted by each live one |
| EventBus.Bus.Subscribe | internal/event/bus.go:236-247 | the new subscriber joins its topic and no other subscriber is touched |
| EventBus.Bus.Unsubscribe | internal/event/bus.go:252-268 | the subscriber leaves every topic, is stopped, and emptied topics disappear |
| Throttle.ThrottleKeepsMeaning | internal/pilot/runner.go:258-311 | over any polls the emitted records have the same (status, phase) trace as the incoming ones, contain every error and critical one, rise in sequence, keep a pending item equal to the cursor, and leave nothing behind after a terminal poll |
| Throttle.RepeatsAreSpaced | internal/pilot/runner.go:276-311 | an unchanged ordinary record is emitted only an interval after the emission before it, or at a terminal status |
| Throttle.ReadersMissNothing | internal/pilot/runner.go:184-196 | reading on from the last sequence read returns exactly what was emitted since: nothing missed, nothing twice |
| LostSaves.ReportIsKept | internal/pilot/runner.go:244-311 | what a report does to an action's stored feedback and its throttle, whether or not the write works |
| LostSaves.StoredIsHonest | internal/pilot/runner.go:244-311 | whichever writes fail, the stored records come from the Ability's log, in order and each once, with every error and critical one up to the cursor |
| LostSaves.ChangeIsLost | internal/pilot/runner.go:244-311 | a history in which a change of status or phase is never stored |
| LostSaves.InStepExactlyIfSteady | internal/pilot/runner.go:244-311 | after an answer the throttle remembers the last stored mark exactly if a lost one let nothing through or ended with that mark |
| LostSaves.SteadyKeepsTrace | internal/pilot/runner.go:244-311 | over all histories with only such lost answers the stored records show the trace of all those answered and stored |
| Throttle.FeedbackThrottle.EmitItem | internal/pilot/runner.go:285-294 | an emission remembers its status, phase and time and clears what was pending |
| Throttle.FeedbackThrottle.Apply | internal/pilot/runner.go:276-311 | one poll in the program's loop is the throttle's transition |
| ActionJournal.SaveKeepsIndexes | internal/pilot/journal.go:65-75 | a save that goes through keeps the two indexes in step exactly if a known ID keeps its key |
| ActionJournal.LookupIsExact | internal/pilot/journal.go:44-63 | a key names at most one record, and looking it up finds that record |
| ActionJournal.MemoryActionJournal.GetAction | internal/pilot/journal.go:44-53 | the record of a skill execution's key, if any |
| ActionJournal.MemoryActionJournal.SaveAction | internal/pilot/journal.go:65-75 | a key that belongs to another action is refused without a change |
| ActionJournal.MemoryActionJournal.ListActiveActions | internal/pilot/journal.go:77-87 | exactly the records that are neither terminal nor interrupted |
| StartOnce.StepKeepsInv | internal/pilot/runner.go:68-167 | starts split at every journal, lock and network access, rewrites by stale copies and crashes keep the journal ahead of the network |
| StartOnce.StartTaskAtMostOnce | internal/pilot/runner.go:76-139 | in every interleaving with crashes at any point, at most one StartTask is sent per (skill execution, key), and only with the journalled request |
| StartOnce.KeyStaysBound | internal/pilot/journal.go:65-75 | once a key is journalled its record keeps it, and nothing but the journalled request is ever sent for it |
| StartExclusion.LostExactlyBy | internal/pilot/runner.go:96-130 | that at most one start is past a robot's busy check, with its lock once it is engaged, is lost exactly when one passes the check while another is between its check and the lock, or an action is reported over while its start still waits |
| StartExclusion.OrderlyStartsExclude | internal/pilot/runner.go:96-139 | in every history without these two, two starts are never both under way on one robot |
| StartOverlap.BothSentExactly | internal/pilot/runner.go:96-139 | two starts past the busy check of one robot can both have their StartTask out exactly if each has its record or an unjournalled key, and no common one |
| StartOverlap.SentKeysDiffer | internal/pilot/runner.go:76-139 | no two actions under way have the same key |
| StartOverlap.TwoStartsCanOverlap | internal/pilot/runner.go:96-139 | a history from the start of the runner in which two starts for one robot are both sent |
| StartOverlap.ReportedOverLetsAnotherIn | internal/pilot/runner.go:96-256 | once an action is reported over while its start still waits, any start on that robot with a new key can be sent as well |
| Runner.OneUnresolvedActionPerRobot | internal/pilot/runner.go:96-166 | over every run, with any answers and any failed writes, two physical actions of unknown outcome never belong to the same robot |
| Runner.LockMirrorsJournal | internal/pilot/runner.go:50-256 | with working writes the lock of a robot names an action exactly if that is its physical, unreleased, unresolved journal record |
| Runner.RestartRebuildsLocks | internal/pilot/runner.go:50-66 | every lock table a restart may rebuild is the one before it exactly if no unreleased physical record is interrupted and no released one is active |
| RunnerRestarts.RestartGuardsExactly | internal/pilot/runner.go:50-66 | whichever table is rebuilt, every unresolved action holds its robot's lock, exactly if each has an active record that is its robot's only one |
| RunnerRestarts.OneUnresolvedAcrossRestarts | internal/pilot/runner.go:50-256 | over all lives with such restarts, any answers and any failed writes, two physical actions of unknown outcome never belong to one robot |
| RunnerRestarts.RestartForgetsTheLock | internal/pilot/runner.go:50-166 | a start without an answer holds the lock, and a restart may come up without it |
| RunnerRestarts.RestartLetsAnotherIn | internal/pilot/runner.go:50-166 | after it the next start on that robot goes out: two actions of unknown outcome on one robot |
| Runner.AbilityChangesOneRecord | internal/pilot/runner.go:244-256 | an Ability's report changes one record and its throttle, and the lock only when it says the action is over |
| Runner.CallKeepsGuarded | internal/pilot/runner.go:68-256 | each call, whatever it is answered and whichever writes fail, keeps every unresolved physical action the holder of its robot's lock |
| Runner.ActionRunner.ConfigureFeedback | internal/pilot/runner.go:258-264 | an action gets a throttle of its request's interval once; an existing one is kept as it is |
| Runner.ActionRunner.constructor | internal/pilot/runner.go:50-66 | the locks after start-up are those of the listed active physical actions |
| Runner.ActionRunner.Begin | internal/pilot/runner.go:68-129 | key lookup and conflict, replay, binding, busy robot, journal and start, in that order |
| Runner.ActionRunner.StartNew | internal/pilot/runner.go:114-139 | the journal write comes before lock and send; a failed one sends nothing |
| Runner.ActionRunner.AfterStartTask | internal/pilot/runner.go:140-166 | acknowledged, rejected and unknown outcomes of the one StartTask |
| Runner.ActionRunner.ApplyAbilityState | internal/pilot/runner.go:244-256 | status, throttled feedback, journal and lock after a report |
| Runner.ActionRunner.ApplyFeedback | internal/pilot/runner.go:276-311 | the throttled feedback of a report; a terminal report ends the throttle |
| Runner.ActionRunner.RefreshAction | internal/pilot/runner.go:169-182 | a query, or interrupted when it gets no answer |
| Runner.ActionRunner.ReadFeedback | internal/pilot/runner.go:184-196 | a query, then exactly the records above the reader's sequence |
| Runner.ActionRunner.StopAction | internal/pilot/runner.go:202-222 | stopping is journalled first; an interrupted action can still be stopped |
| Runner.ActionRunner.ConfirmByHand | internal/pilot/runner.go:232-242 | only an interrupted action is let go of, and its record stays interrupted |
| Runner.ActionRunner.ReleasePhysical | internal/pilot/runner.go:321-327 | only the holder's lock is removed |
| SkillStore.TerminalIsFinal | internal/pilot/store.go:65-76 | under any order of delayed saves a stored terminal status never changes |
| SkillStore.EvidenceDecidesNoStatus | internal/pilot/store.go:78-89 | dropping every write of stop evidence from any run leaves the same executions but for the evidence, so the same statuses |
| SkillStore.StoresAgree | internal/pilot/store.go:65-310 | the memory store and the SQL upsert, given the same writes, hold the same executions and the same recoverable set |
| SkillStore.MemorySkillStore.SaveSkillExecution | internal/pilot/store.go:65-76 | the guarded save |
| SkillStore.MemorySkillStore.UpdateSkillStopOutcome | internal/pilot/store.go:78-89 | only the outcome of a known execution changes |
| SkillStore.MemorySkillStore.ListRecoverable | internal/pilot/store.go:91-101 | exactly the executions that are not terminal |
| SkillStore.SqliteSkillStore.SaveSkillExecution | internal/pilot/store.go:258-268 | the conditional upsert |
| SkillStore.SqliteSkillStore.UpdateSkillStopOutcome | internal/pilot/store.go:270-289 | the body of a known row changes, its status column does not |
| SkillRuntime.StepKeepsInv | internal/pilot/runtime.go:222-549 | every read, write and critical section of recovery, start, worker end, early failure, handler and stop, in any order, keeps each open registered execution the one its robot's claim names |
| SkillRuntime.OneOpenExecutionPerRobot | internal/pilot/runtime.go:196-272 | in every history from a boot over any store, an open execution holds its robot's claim, so no robot has two |
| SkillRuntime.AdmissionIsExclusive | internal/pilot/runtime.go:222-240 | over every history from a boot, a start that is admitted finds no open registered execution on its robot |
| SkillRuntime.StartDropsClaim | internal/pilot/runtime.go:240-272 | a start gives up only its own claim, when aborted |
| SkillRuntime.RecoveryKeepsClaims | internal/pilot/runtime.go:407-443 | recovery takes no claim away |
| SkillRuntime.HandlerKeepsClaims | internal/pilot/runtime.go:599-762 | a worker's requests take no claim away |
| SkillRuntime.FinishDropsClaim | internal/pilot/runtime.go:495-549 | a finished worker gives the claim up only at its cleanup, after its verdict is written |
| SkillRuntime.FailDropsClaim | internal/pilot/runtime.go:1095-1111 | an early failure gives the claim up only at its cleanup, after the failure is stored |
| SkillRuntime.StopDropsClaim | internal/pilot/runtime.go:298-404 | a stop gives the claim up only at its cleanup, once it is safe |
| SkillLocks.StepKeepsWatch | internal/pilot/runtime.go:196-768 | through every step an execution owns its robot's lock exactly if it has just taken it, or owned it and the action is not over, and each standing judgement knows of it |
| SkillLocks.ClaimsAreDroppedForAReason | internal/pilot/runtime.go:196-549 | in every history a claim is given up by an aborted start without the lock, a completed or failed worker, a stored early failure or a safe stop, and the lock can be held at it only as the judgement noted |
| SkillLocks.FailNotesAreTrue | internal/pilot/runtime.go:764-768 | what an early failure notes when it is chosen, and that the lock was taken since, are true over every history |
| SkillLocks.LockSinceJudged | internal/pilot/runtime.go:196-549 | between a judgement and the drop, without an end of the robot's action, the lock is held exactly if it was held at the judgement or taken since |
| SkillLockHistories.EarlyFailureOverHeldLock | internal/pilot/runtime.go:764-768 | from any running execution, a history in which an early failure gives the robot up over a lock held when the flag was read |
| SkillLockHistories.EarlyFailureOverLaterLock | internal/pilot/runtime.go:1095-1111 | one in which the lock is taken after the flag was read |
| SkillLockHistories.CompletionOverLaterLock | internal/pilot/runtime.go:495-549 | one in which a completed worker's action takes the lock after the verdict |
| SkillLockHistories.SafeStopOverHeldLock | internal/pilot/runtime.go:345-404 | one in which a stop answered as safe gives the robot up over a held lock |
| SkillLockHistories.UpIsReachable | internal/pilot/runtime.go:196-272 | a running execution is reached from a boot over nothing |
| SkillRuntime.StopIsSafeOnlyOnEvidence | internal/pilot/runtime.go:345-404 | a stop becomes safe exactly on the worker's safe answer, or when that is lost, on stored safe evidence that can be read |
| SkillRuntime.NobodyElseMakesAStopSafe | internal/pilot/runtime.go:298-549 | no other step makes a stop safe |
| SkillRuntime.SafeStopIsStored | internal/pilot/runtime.go:382-404 | a safe stop is stored as stopped exactly if the write works and the record is not terminal in another way |
| SkillRuntimeCalls.FinishIsItsSteps | internal/pilot/runtime.go:495-549 | settling a run at once is its steps one after the other, in every branch |
| SkillRuntimeCalls.StopIsItsSteps | internal/pilot/runtime.go:298-404 | a stop at once is its steps one after the other: nothing to stop, no worker, an action that does not stop, a safe and an unsafe answer |
| SkillRuntimeCalls.FinishOutcome | internal/pilot/runtime.go:495-549 | which ends are deregistered and freed, which keep the robot, and that an end is stored exactly if its write works |
| SkillRuntimeCalls.StopOutcome | internal/pilot/runtime.go:298-404 | whichever writes work, a stop frees the robot exactly if every action stops and the answer or the stored evidence is safe; the stored status is then the reported one exactly if the last write works, except that an interrupted record stays interrupted |
| SkillEndings.SafeStopOverInterrupted | internal/pilot/runtime.go:298-404 | from any running execution, a history in which a stop reports stopped and frees the robot while the store keeps interrupted |
| SkillEndings.CompletedButStoredRunning | internal/pilot/runtime.go:495-549 | one in which a completed execution is deregistered and freed while it stays stored as running and is listed for recovery |
| SkillRuntimeCalls.Runtime.Admit | internal/pilot/runtime.go:222-240 | admission under the runtime's mutex |
| SkillRuntimeCalls.Runtime.CleanUp | internal/pilot/runtime.go:1113-1124 | deregisters, and frees the robot only from its own claim |
| SkillRuntimeCalls.Runtime.ReleaseClaim | internal/pilot/runtime.go:1126-1132 | removes only this execution's claim |
| SkillRuntimeCalls.Runtime.SaveStatus | internal/pilot/store.go:65-76 | the guarded write of a status |
| SkillRuntimeCalls.Runtime.FinishRun | internal/pilot/runtime.go:495-549 | the end of a run in the program's order of checks |
| SkillRuntimeCalls.Runtime.StopExecution | internal/pilot/runtime.go:298-404 | a stop in the program's order: the actions one after the other, giving up at one that does not stop, then the worker's answer |
| Orchestrator.StepKeepsInv | internal/robotruntime/orchestrator.go:102-334 | every operation, whatever fails in it, keeps one active record per robot, distinct ports, leases and processes only behind active records, and a serving record with its leased port and an endpoint |
| Orchestrator.NeverTwoOnOneRobot | internal/robotruntime/orchestrator.go:102-334 | over all runs, from an empty store or one an earlier process has left, no robot has two active records or two processes, and whatever may still run keeps its robot in use |
| Orchestrator.StartUpKeepsInv | internal/robotruntime/orchestrator.go:80-85 | with the defaults for missing bounds the port range is never empty, and coming up over empty or earlier stores keeps the invariant |
| Orchestrator.RequestedIdMustHoldNoLease | internal/robotruntime/orchestrator.go:115-137 | on a free robot a requested ID is safe under every failure exactly if it holds no lease |
| Orchestrator.OtherRobotsIdIsUnsafe | internal/robotruntime/orchestrator.go:115-137 | from an empty store: after one start, a start on another robot under the same ID breaks the invariant for some of its failures |
| Orchestrator.OwnIdIsFree | internal/robotruntime/orchestrator.go:107-118 | a new ID, or one of the same robot, holds neither lease nor process when the robot is not in use |
| Orchestrator.StartOutcome | internal/robotruntime/orchestrator.go:102-186 | a start succeeds exactly if every call worked; once the launcher took over it is stored as failed exactly on a confirmed stop and a released port; a process may run exactly after a served launch or an unconfirmed stop |
| Orchestrator.StopStoresEvidence | internal/robotruntime/orchestrator.go:191-225 | a record becomes stopped exactly when the writes work, the stop is confirmed and the port released |
| Orchestrator.ReclaimStoresEvidence | internal/robotruntime/orchestrator.go:253-296 | the same for a reclaim, which also needs an interrupted simulation and a replaced scene or a confirmed hold |
| Orchestrator.ClosedOnlyOnEvidence | internal/robotruntime/orchestrator.go:203-318 | a record becomes stopped or failed only in its own stop or reclaim with confirmed evidence and a released port, or in its own start, with the same evidence if the launcher had taken over |
| Orchestrator.RevisionsGrow | internal/robotruntime/orchestrator.go:344-347 | stop, reclaim and degrade replace a record only by a later revision of the same instance |
| Orchestrator.FreePort | internal/store/robot_runtime.go:113-132 | the lowest free port of the range, none exactly if all are leased |
| Orchestrator.Orchestrator.constructor | internal/robotruntime/orchestrator.go:73-100 | any configured range, over whatever the stores hold |
| Orchestrator.Orchestrator.Persist | internal/robotruntime/orchestrator.go:336-342 | save, then publish only if the save worked |
| Orchestrator.Orchestrator.LeasePort | internal/store/robot_runtime.go:94-132 | the lease an instance has, or the lowest free port |
| Orchestrator.Orchestrator.StartInstance | internal/robotruntime/orchestrator.go:102-159 | validation, active lookup, bundle, directory and the first save, in that order |
| Orchestrator.Orchestrator.EquipInstance | internal/robotruntime/orchestrator.go:160-186 | port, second save, launch and readiness, each with its own failure path |
| Orchestrator.Orchestrator.AbandonStart | internal/robotruntime/orchestrator.go:298-318 | a failed start stops the process only if the launcher took over, and releases the port only on a confirmed stop |
| Orchestrator.Orchestrator.StopInstance | internal/robotruntime/orchestrator.go:191-225 | stopping is stored before the launcher is asked |
| Orchestrator.Orchestrator.ConcludeStop | internal/robotruntime/orchestrator.go:212-225 | no evidence or no release leaves the instance interrupted |
| Orchestrator.Orchestrator.LeaveInterrupted | internal/robotruntime/orchestrator.go:320-334 | the interrupted record keeps lease and process |
| Orchestrator.Orchestrator.DegradeInstance | internal/robotruntime/orchestrator.go:227-246 | only a serving instance is degraded |
| Orchestrator.Orchestrator.ReclaimInstance | internal/robotruntime/orchestrator.go:253-296 | the guard of the reclaim, then as for a stop |
| SceneRobots.PreparedRobotCanStart | internal/bootstrap/managed_robot_runtime.go:798-844 | preparing without "already" and without error leaves the old instance closed and the robot free: the following start is not refused as already in use |
| SceneRobots.StopSceneStops | internal/bootstrap/managed_robot_runtime.go:895-942 | without an error every listed active instance of the scene is stored stopped; every other instance keeps record, lease and process |
| SceneRobots.PrepareSceneRobotStart | internal/bootstrap/managed_robot_runtime.go:798-844 | the branches of preparing over the orchestrator object |
| SceneRobots.StopSceneRobots | internal/bootstrap/managed_robot_runtime.go:895-942 | the loop of stopping a scene over the orchestrator object |
| SceneRobots.StopListed | internal/bootstrap/managed_robot_runtime.go:907-939 | stop, and the reclaim that the scene's hold allows |
| PackageSet.Search.Visit | internal/install/package_set.go:182-204 | the three-colour visit: an entry and all it needs are ordered, or the error names a missing or cyclic entry it really reaches; it ends on every graph |
| PackageSet.OrderedIsInstallable | internal/install/package_set.go:182-204 | whatever an ordered entry reaches is ordered, declared and on no cycle |
| PackageSet.SelectPackageEntries | internal/install/package_set.go:164-211 | success exactly if IDs are valid and distinct, something is selected, and all it reaches is declared and acyclic; the result lists just that, once each, dependencies first; each error names its reason |
| PackageSet.IndexEntries | internal/install/package_set.go:165-171 | the index of the declared entries, or refusal of an invalid or repeated ID |
| PackageSet.CloseOver | internal/install/package_set.go:180-210 | the closure of the selected roots, or the reason why there is none |
| PackageSet.InstallOneByOne | internal/install/package_set.go:260-278 | installs in order up to the first failure and reports all resources up to then |
| PackageSet.BatchInstall | internal/install/package_set.go:215-279 | all are checked before the first is installed; what is completed at any end is closed under requirements |
| BindingSelection.SelectComponents | internal/install/binding_selection.go:29-84 | accepted exactly if the order-free conditions hold, and then each offered role is bound to its one offer and the model is the chosen one |
| BindingSelection.OrderDoesNotMatter | internal/install/binding_selection.go:29-84 | naming the same components in another order is accepted alike and binds the same |
| BindingSelection.ServedByChoice | internal/install/binding_selection.go:72-84 | model and backend conditions read off the choice are the order-free ones |
| BindingSelection.AddComponent | internal/install/binding_selection.go:41-71 | one turn of the loop: rejected exactly for a repeat, a misfit, a taken role or a second model |
| BindingSelection.CheckServed | internal/install/binding_selection.go:72-84 | the final checks decide the order-free conditions |
| Bindings.StepKeepsInv | internal/install/bindings.go:58-209 | binding, selecting, copying a default, rolling back, removing and installing, with any failing write, keep every current binding installed and equal to the history entry of its own revision |
| Bindings.BoundComponentsStay | internal/install/remove.go:62-98 | over all runs a bound component is installed and its removal is refused |
| Bindings.RunKeepsHistory | internal/install/bindings.go:95-101 | what a robot with a binding has in its history is never lost nor changed |
| Bindings.RollbackOutcome | internal/install/bindings.go:180-209 | a rollback succeeds exactly for a recorded revision whose components are installed and whose write works, and restores that entry |
| Bindings.RollbackRestores | internal/install/bindings.go:180-209 | after any run, an earlier binding comes back exactly as it was if its components are installed |
| Bindings.RemovalEndsItsRollbacks | internal/install/remove.go:62-98 | after a removal exactly those revisions can still be rolled back to that do not use the component, every current binding among them; installing it again undoes the removal |
| Bindings.DefaultsAreSet | internal/install/bindings.go:124-135 | setting a project's defaults, a model listed twice included, binds the component for each model and touches no other binding |
| Bindings.ComponentStore.Write | internal/install/bindings.go:98-101 | history first, current only after it |
| Bindings.ComponentStore.BindComponent | internal/install/bindings.go:58-102 | the checks and the loop of a single bind |
| Bindings.ComponentStore.SelectBinding | internal/install/binding_selection.go:29-97 | nothing is written unless the whole selection passes |
| Bindings.ComponentStore.SetProjectDefault | internal/install/bindings.go:124-135 | one bind per model up to the first error |
| Bindings.ComponentStore.EnsureRobotBinding | internal/install/bindings.go:136-165 | a robot with a binding keeps it; another gets a copy of the default, if there is one |
| Bindings.ComponentStore.RollbackBinding | internal/install/bindings.go:180-209 | the checks of a rollback, then one write |
| Bindings.ComponentStore.RemoveComponent | internal/install/remove.go:62-98 | the scan of all current bindings before anything is deleted |
| Interaction.PendingLeavesOnce | internal/interaction/service.go:269-309 | no step changes a record that has left pending |
| Interaction.StepKeepsInv | internal/interaction/service.go:213-411 | every step of requests, replies on both paths, timers, contexts and cancellations keeps channel contents, waiting phases and results true to the stored record |
| Interaction.ApprovedMeansStored | internal/interaction/service.go:213-288 | in every interleaving a request returns approved exactly if the record is answered with approval and it ended by a reply or its timer; a sent wake-up is never lost to a waiting request |
| Interaction.LostTimeoutReturnsStored | internal/interaction/service.go:268-276 | a timer that loses the race returns the stored answer |
| Interaction.CancelCanHideApproval | internal/interaction/service.go:357-381 | from any waiting request there is a history in which its approval is stored and it comes back cancelled |
| Interaction.ApprovalIsHidden | internal/interaction/service.go:213-381 | such a history from the creation of the request |
| Interaction.HiddenExactlyIfListed | internal/interaction/service.go:329-381 | a waiting request whose approval is stored can come back cancelled exactly if a cancellation's wake-up lies in its channel, or the channel is empty and a cancellation has it on its list |
| Interaction.StepKeepsShield | internal/interaction/service.go:213-411 | no step of anybody endangers an answer that no cancellation can come before |
| Interaction.ResultAgreesUnlessListed | internal/interaction/service.go:213-411 | in every history without a context end or a failing read for the request, and without an answer stored while a cancellation lists it, it returns approved exactly if its record is answered with approval |
| Interaction.ContextDisownsExactly | internal/interaction/service.go:280-287 | a request whose context ends comes back not approved, and its record says approved then or later exactly if that was stored before, or it was pending and its cancellation failed |
| Interaction.ApprovalIsDisowned | internal/interaction/service.go:280-287 | a history from the creation of the request in which that happens |
| Interaction.Service.Finalize | internal/interaction/service.go:271-271 | the conditional update moves pending records only |
| Interaction.Service.Send | internal/interaction/service.go:329-333 | a send that never blocks and is dropped when the channel is full |
| Interaction.Service.RegisterWaiter | internal/interaction/service.go:400-406 | a fresh one-place channel for the request |
| Interaction.Service.TakeWake | internal/interaction/service.go:261-267 | what the waiting request returns for what it received |
| Interaction.Service.TimeOut | internal/interaction/service.go:268-280 | expire, or else return what is stored |
| Interaction.Service.HandleReply | internal/interaction/service.go:294-336 | store first, wake after, and only if stored |
| Interaction.Service.CancelSession | internal/interaction/service.go:357-381 | all pending requests of the session are cancelled, those listed are woken if their channel is empty, and the whole is a history of one cancellation's steps |
| WorkerRpc.StepKeepsInv | internal/pilot/supervisor.go:187-373 | every step of reader, start-up, serve loop and calls keeps handled ++ backlog equal to the messages read, numbered in order, and every barrier true |
| WorkerRpc.ResultsWaitForMessages | internal/pilot/supervisor.go:218-235 | once a call has returned a result, everything read before its response has been handled, in read order |
| WorkerRpc.OnlyAnotherCallStalls | internal/pilot/supervisor.go:346-373 | a parked call misses its wake-up exactly when another call takes the one token after its barrier was passed |
| WorkerRpc.StopCanBeStalled | internal/pilot/supervisor.go:346-373 | a history from the start of the process in which a stop is left parked behind a barrier that has been passed |
| WorkerRpc.StalledUntilNextMessage | internal/pilot/supervisor.go:346-373 | a stalled call stays parked in every history in which no message is handled and its caller does not give it up |
| WorkerRpc.OneAtATimeNeverStalls | internal/pilot/supervisor.go:346-373 | calls that wait one at a time are never stalled |
| WorkerRpc.InitialisingServesNothing | internal/pilot/supervisor.go:135-175 | over every history without the serve loop nothing but the ready message is handled, and a call whose response came behind a further message never returns |
| WorkerRpc.WorkerProcess.NumberRequest | internal/pilot/supervisor.go:309-310 | the reader gives a message the next number |
| WorkerRpc.WorkerProcess.QueueRequest | internal/pilot/supervisor.go:311-312 | and queues it once the channel has room |
| WorkerRpc.WorkerProcess.RouteResponse | internal/pilot/supervisor.go:314-329 | a response carries the count of messages read before it |
| WorkerRpc.WorkerProcess.FailPendingCalls | internal/pilot/supervisor.go:384-395 | every call without a response gets a fault; the result says whether any call was pending |
| WorkerRpc.WorkerProcess.MarkRequestHandled | internal/pilot/supervisor.go:346-357 | the handled number is published and at most one token left |
| WorkerRpc.WorkerProcess.ServeOne | internal/pilot/supervisor.go:187-204 | one turn of the serve loop handles the oldest message |
| WorkerRpc.WorkerProcess.PassBarrier | internal/pilot/supervisor.go:359-373 | a call passes exactly when its barrier has been handled |
| Registry.HealthIsShared | internal/mcpregistry/registry.go:137-391 | however the critical sections interleave, every entry is filed under its full name and has its server's recorded health, unless a synchronisation of that server has replaced its entries and not marked it yet |
| Registry.SyncIsItsSteps | internal/mcpregistry/registry.go:137-175 | a whole synchronisation is its critical sections one after the other |
| Registry.ReconcileListsTools | internal/mcpregistry/registry.go:181-245 | a server's entries become exactly its listed tools, all healthy |
| Registry.ReportIsAPartition | internal/mcpregistry/registry.go:191-229 | with distinct tool names, old and new names split into added, updated, unchanged and removed, and an unchanged entry keeps content and time |
| Registry.ReconcilingAgainChangesNothing | internal/mcpregistry/registry.go:181-245 | listing the same tools again reports nothing and changes no entry, whatever the time |
| Registry.AddedIsNewUnlessRepeated | internal/mcpregistry/registry.go:199-226 | the added names are the new ones exactly if no tool that the directory had is listed more than once; the removed ones are always the missing ones |
| Registry.KnownToolListedTwice | internal/mcpregistry/registry.go:199-226 | an input that shows it |
| Registry.OthersKeptExactly | internal/mcpregistry/registry.go:231-239 | other servers' entries survive exactly if no listed tool has the full name of one of them |
| Registry.DotFreeServersDoNotInterfere | internal/mcpregistry/registry.go:200-200 | servers without dots in their names never disturb each other |
| Registry.DottedServersInterfere | internal/mcpregistry/registry.go:200-200 | with dots they can: an input that shows it |
| Registry.FailureKeepsEntries | internal/mcpregistry/registry.go:145-162 | a failed synchronisation loses no entry and changes only the health of the server's own |
| Registry.Directory.ReconcileServer | internal/mcpregistry/registry.go:181-245 | the program's loops compute the reconciliation |
| Registry.Directory.MoveHealth | internal/mcpregistry/registry.go:370-391 | a real change of health reaches all entries of the server |
| Registry.Directory.SyncOne | internal/mcpregistry/registry.go:137-175 | success, failure and cancellation of a synchronisation |
| Registry.Directory.Forget | internal/mcpregistry/registry.go:303-316 | entries, specification and health of the server go |
| Discovery.SelectExactly | internal/pilot/discovery.go:382-406 | without a fixed instance one is selected exactly if it is the only healthy match; with one, exactly the first healthy match of that ID |
| Discovery.SelectInstance | internal/pilot/discovery.go:382-406 | the loop with its early returns computes that selection |
| Discovery.BindAllIsExact | internal/pilot/discovery.go:325-352 | an action is bound exactly if it is offered with a declared task and all who offer it are one instance |
| Discovery.OfferOrderDoesNotMatter | internal/pilot/discovery.go:325-352 | the same offers in another order bind the same actions to the same instances |
| Discovery.RoleOrderDoesNotMatter | internal/pilot/discovery.go:318-357 | bindings and the ready status do not depend on the order of the roles |
| Discovery.ReadyBindsEveryAction | internal/pilot/discovery.go:353-361 | ready implies that every action of every selected instance is bound to that instance |
| Discovery.BindAction | internal/pilot/discovery.go:331-351 | one action: undeclared, ambiguous or bound |
| Discovery.BindItem | internal/pilot/discovery.go:330-351 | one selected instance and whether it is complete |
| Discovery.BindRoles | internal/pilot/discovery.go:318-361 | the whole loop computes the bindings, and reports ready exactly if every role is complete and no action is ambiguous |

## Left out

- HTTP, WebSocket, process spawning, Python environments, YAML and JSON handling, ZIP archives, logging and progress text: foreign effects; their outcomes are arguments of the steps.
- Files and SQL tables are maps and each write is atomic: it happens or it fails.
- New IDs are UUIDs, taken to be unused; `Orchestrator` shows what a requested ID needs instead.
- EventBus.Bus.Publish: the enqueues of one call run undisturbed; how publishers, workers and subscribers interleave is the subject of `Mailbox`. Backlog warnings are not modelled.
- Throttle.ThrottleKeepsMeaning: every answer is stored; `LostSaves` is about those that are not.
- LostSaves.StoredIsHonest: the Ability's log only grows and is answered from the stored cursor on; stop answers and queries are alike.
- Throttle.RepeatsAreSpaced: the clock is an arbitrary integer per poll, with no assumption that it only goes forward.
- Runner.OneUnresolvedActionPerRobot: each runner call is one step; `StartExclusion` and `StartOverlap` say when concurrent starts exclude each other, and `RunnerRestarts` covers restarts.
- Runner.CallKeepsGuarded: single calls only, as above.
- Runner.LockMirrorsJournal: single calls only, as above, and journal writes are taken to work; `Runner.OneUnresolvedActionPerRobot` covers failing ones.
- Runner.RestartRebuildsLocks: the journal is taken to survive whole.
- StartExclusion.LostExactlyBy: it is about being past the check, and `StartOverlap.BothSentExactly` about being sent; an action reported over while its start is still waiting for the answer counts as lost, although its physical part has ended.
- SkillRuntime.OneOpenExecutionPerRobot: one start at a time per execution ID and recovery before the first start, as commands are read serially and recovery runs before them (cmd/semantic-pilot/main.go and internal/pilot/remote.go). Calls into the action runner are single steps.
- SkillLocks.ClaimsAreDroppedForAReason: a lock held at such a drop is named, not excluded; `SkillLockHistories` shows that it happens.
- SkillRuntimeCalls.Runtime.StopExecution: the actions of an execution are a list of answers, taken when the stop begins.
- SkillStore.StoresAgree: statuses and bodies only; the SQL columns that repeat other fields are not modelled.
- Orchestrator.NeverTwoOnOneRobot: the launcher's confirmations are taken as true; failure reasons, bundle fields, timestamps and the data directory are not stored. Blank means made of space, tab, newline and carriage return only. The instance returned with an already-in-use refusal is not modelled.
- Orchestrator.StepKeepsInv: one step per operation, as each runs under its robot's lock, and a process that ends does so between operations; a requested ID must be new or of the same robot, for which `Orchestrator.RequestedIdMustHoldNoLease` gives the exact condition.
- SceneRobots.StopSceneStops: nothing runs between the listing and the stops, and the list is taken before them; what the convergence of a robot's execution does is one answer per instance.
- SceneRobots.PreparedRobotCanStart: nothing runs between the lookup and the following start.
- PackageSet.BatchInstall: what an installer does beyond its resources and its result is not modelled, and neither are the checks inside a sub-package.
- Bindings.StepKeepsInv: revisions are clock readings that the robot's history does not have yet; reading a stored file never fails; a removal is one write although directories go before the receipt.
- Bindings.DefaultsAreSet: revisions are clock readings that differ for a model listed twice; the binds of one call follow each other undisturbed; as single steps they interleave in `Bindings.StepKeepsInv`.
- Interaction.Service.HandleReply: the reply runs undisturbed from its store to its wake-up; as steps the parts interleave with everything else.
- Interaction.Service.CancelSession: the cancellation runs undisturbed; its steps interleave in `Interaction.StepKeepsInv`.
- Interaction.ApprovedMeansStored: message payloads, ownership checks and the marking of a reply as handled are left out; the checkpoint reply is a reply whose conditional update may also fail on a revision.
- WorkerRpc.ResultsWaitForMessages: a second response to one call is not modelled, nor are the exit of the process and its error text beyond failing pending calls; termination of a wait with several callers does not hold, as `WorkerRpc.StopCanBeStalled` shows.
- Registry.ReportIsAPartition: the report's names are sets; that the lists come out sorted is not modelled. Specifications are reduced to which servers have one.
- Discovery.BindRoles: reading heartbeats and manifests into items, the snapshot's revision and the replaced catalogues are left out; lower-casing is ASCII only.
- RemoteAgentGateway: its deferred deletion is by key, so waiters are not kept apart when a key is reused.
- Agent requests, Ability debugging, artifacts, structured forms, the Web views, the CLI and the reports: plumbing or UI without a checkable core.
