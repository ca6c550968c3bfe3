# Verified model of the rascal orchestrator

rascal runs coding agents on tasks. Several orchestrator instances share one SQLite store: goroutines, webhook
handlers and startup sweeps of all of them change run rows, leases, cancel requests and claims statement by statement.
This project models that core in Dafny and proves what it is meant to keep.

* **Runs** (`RunTypes`, `RunTables`, `RunStores`, `Lifecycle`, `Paths`, `TurnRuns`, `SchedulerPauses`). Every SQL statement
  and every `UpdateRun` transaction is a function from tables to tables; `RunStore` is the object whose methods are proved
  to compute them. `Lifecycle` interleaves them with threads that act on stale snapshots and proves safety over all runs.
* **The orchestrator** (`Scheduling`, `Servers`, `Recovering`, `Executing`, `Cancels`, `PullRequests`, `Webhooks`,
  `ResumeTimers`, `WakeUps`). The loops and handlers as methods over the store, each taken as one uninterrupted call that
  gets failures, clock readings and events that slip in as parameters. Each is proved to reach its result by single
  statements of the interleaved system (`Paths.Reaches`), so the rules proved there hold of it too.
* **Claims and leases** (`Deliveries`, `CompletionComments`, `Heartbeats`, `CredentialTables`, `Brokers`). Protocols with
  tokens, timeouts, crashes and takeovers, with theorems over whole runs. The broker's calls are proved with statements
  of other processes between any two of its own.
* **Arithmetic and allocation** (`Strategies`, `TokenUsages`, `ShellQuoting`).

Times are integers in nanoseconds. Counters are mathematical integers.

## Findings

Some promises do not hold as one might expect. The code is modelled as it is, with the exact condition.

* A pass can claim a run during a pause, if and only if the pause is requested between its check and its claim or its
  lookup of the pause fails, which counts as no pause (`Lifecycle.ClaimDuringPauseIff`,
  `Lifecycle.ClaimDuringPauseHappens`, `Lifecycle.FailedLookupHappens`).
* A credential renewal that uses an old clock reading can revive a lease that has expired since
  (`CredentialTables.RenewalRevivesIff`, `CredentialTables.RevivalIff`) and so give a run a second live lease
  (`CredentialTables.RenewalBreaksIff`, `CredentialTables.SecondLeaseIff`, `CredentialTables.StaleRenewalHappens`).
* A notifier that sleeps through its claim timeout posts a second comment, if and only if another attempt posted after
  its listing had found none (`CompletionComments.SecondCommentIff`, `CompletionComments.LateAttemptPostsTwice`).
* `ExecuteRun` keeps the lease of a run that was claimed with a lease and then found canceled, moot or without a writable
  lease (`Executing.Executor.ExecuteRun`). No pass, no end or recovery of another run and no startup recovery deletes that
  lease (`Executing.LeakIsForever`), and it counts against the limit of its instance (`Executing.LeaksTakeSlots`,
  `Executing.CancelBlocksServer`).
* A run can be charged for other usage than its own in three ways, and `TokenUsages.RunIsChargedItsShare` says exactly
  when. A resumed run that reports totals but no single usages is charged for earlier ones if the total at its baseline
  was behind (`TokenUsages.LaggingBaselineMischarges`). A run in a new session is charged too little if the baseline is
  of another session, whose total is subtracted although the own usages are there to be read
  (`TokenUsages.OtherSessionMischarges`). A resumed run whose file was not found or not read at the baseline can be
  charged for all that went before (`TokenUsages.LostBaselineCharges`). A log line that is too long leaves a run uncharged.
* A pull request that is closed and merged later leaves a run in review canceled (`PullRequests.FirstClosingDecides`,
  `PullRequests.CloseBeforeMergeCancels`).
* The timer that ends a pause may be set to an earlier deadline than that of the pause in force, and then finds out
  (`WakeUps.EarlyWakeUpHappens`, `WakeUps.EarlyWakeUpLooksAgain`); a server does not wake up for a pause that only
  another one has recorded (`WakeUps.OthersPauseWakesNobody`).

## Model

| member | source | states |
|---|---|---|
| Lifecycle.NeverTwoRunning | internal/state/store.go:781-895 | in every reachable state of any interleaving, two running runs of one task are the same run, although the raw claims bypass validation |
| Lifecycle.AlwaysStamped | internal/orchestrator/statemachine.go:59-105 | in every reachable state the completion time is set exactly for final runs, a queued run has no start time, a running one has, and a reason only goes with a final status |
| Lifecycle.StepsFollowTable | internal/state/types.go:72-101 | every step, validated or raw SQL, moves a row along an edge of the transition table |
| Lifecycle.FinalIsForever | internal/state/types.go:72-110 | final statuses are never left, review only for succeeded or canceled, the other three not at all, and a trimmed id never returns |
| RunTypes.CanReachIsReachability | internal/state/types.go:72-101 | the reachability relation used above holds between two statuses if and only if a path in the transition table joins them |
| RunTypes.TransitionIff | internal/state/types.go:72-101 | which transitions are allowed, by source and target |
| Lifecycle.CancelIntentKept | internal/orchestrator/service.go:248-262 | once a cancel request is recorded it stays until its run is final or trimmed, although every clearing caller acts on an old snapshot |
| Lifecycle.CanceledNeverScheduled | internal/state/store.go:805-895 | from then on no pass claims that run, not even after the request has been cleared |
| Lifecycle.StepKeepsGood | internal/state/store.go:377-600 | one statement of any thread keeps the inductive invariant and moves the tables as other threads may rely on |
| Lifecycle.NoClaimInsidePause | internal/orchestrator/scheduler.go:19-50 | every claim follows a pause check of its own turn, with nothing else of that thread in between, at whose clock reading all earlier pauses had run out, unless its lookup failed |
| Lifecycle.ClaimDuringPauseIff | internal/orchestrator/scheduler.go:28-50 | a claim happens during a pause if and only if that pause was requested between the check and the claim, or before the claim and the lookup of the check failed |
| Lifecycle.ClaimDuringPauseHappens | internal/orchestrator/scheduler.go:28-50 | a concrete run in which a pause slips in between check and claim |
| Lifecycle.FailedLookupHappens | internal/orchestrator/notifications.go:684-691 | a concrete run in which a failed lookup lets a claim through |
| Lifecycle.AtomicTurnsRespectPauses | internal/orchestrator/scheduler.go:28-50 | with check and claim as one step, no run is claimed before a requested deadline, unless the lookup failed |
| SchedulerPauses.CallsMergeToMax | internal/state/sqlitegen/queries.sql.go:3137-3168 | after any sequence of pause calls the row holds the latest deadline asked for and the reason of the latest call that asked for it |
| TurnRuns.TurnIsPath | internal/orchestrator/scheduler.go:28-72 | the tables after any turn of a pass are reached by single statements of the interleaved system, so its theorems hold of passes |
| TurnRuns.PassIsPath | internal/orchestrator/scheduler.go:13-72 | a whole pass, as the contract of its method describes it, is one run of single statements of the interleaved system |
| TurnRuns.PassInSteps | internal/orchestrator/scheduler.go:13-72 | so, whatever the other goroutines are at, a pass leads to the tables of its contract by statements of its own goroutine |
| Paths.ReachesTransitive | internal/orchestrator/execution.go:22-366 | what calls reach by single statements adds up over calls |
| Paths.CallsFollowRules | internal/orchestrator/execution.go:22-366 | any call that is made of such statements keeps the rules over its whole length: statuses follow the table, runs of a task are serial, only added runs appear, a request goes only when its run is final or gone |
| Paths.PathKeepsGood | internal/orchestrator/scheduler.go:28-72 | every state along a path of single statements satisfies the invariant the theorems rest on |
| RunTables.NextRun | internal/state/store.go:809-886 | no run is next exactly if none is eligible; otherwise the next is the first by creation time and number of the preferred pool |
| RunTables.NextRunIsOldest | internal/state/store.go:809-886 | no eligible run of its pool was created before the next one, and of those created with it none has a lower number |
| RunTables.ClaimNextKeeps | internal/state/store.go:805-895 | the claim keeps all table invariants, and the run it starts was eligible |
| RunTables.ClaimStartKeeps | internal/state/sqlitegen/queries.sql.go:567-593 | so does the claim of a named run, though it ignores drafts and cancel requests |
| RunTables.UpdateKeeps | internal/state/store.go:525-598 | a row update keeps them if it only makes running what was running |
| RunTables.TransitionBatchKeeps | internal/orchestrator/statemachine.go:59-86 | a transition to a final status keeps them and follows the table |
| RunTables.TransitionFitsIff | internal/orchestrator/statemachine.go:59-105 | a transition to any status leaves fitting timestamps unless it puts a running run back in the queue, which is what the requeue is for |
| RunTables.TransitionSerialIff | internal/orchestrator/statemachine.go:42-86 | a transition to any status keeps runs of a task serial if and only if it does not start the run beside a running one |
| RunTables.RequeueKeeps | internal/orchestrator/statemachine.go:89-105 | so does putting a run back in the queue |
| RunTables.CancelQueuedKeeps | internal/state/sqlitegen/queries.sql.go:90-113 | so does canceling the queued runs of a task |
| RunTables.AddRunKeeps | internal/state/store.go:377-485 | so does adding a run, and the only new row is the added one |
| RunTables.AddedRunStays | internal/state/store.go:422-485 | the run just added survives the trim of its own transaction |
| RunTables.TrimDropsOldest | internal/state/sqlitegen/queries.sql.go:2476-2489 | a row is trimmed only if every kept row is newer |
| RunTables.TrimFits | internal/state/sqlitegen/queries.sql.go:2476-2489 | at most the limit remains, and a table within the limit is left alone |
| RunStores.RunStore.AddRun | internal/state/store.go:377-485 | fails for a known id; otherwise upserts the task, appends a queued row and trims |
| RunStores.RunStore.UpdateRun | internal/state/store.go:525-598 | runs the callback on the row, rejects an invalid status change, drops the reason of a row that is not final |
| RunStores.RunStore.ClaimRunStart | internal/state/store.go:781-803 | starts the named run if and only if it is queued and its task has no running run |
| RunStores.RunStore.EligibleRuns | internal/state/store.go:857-876 | exactly the queued runs with no draft pull request, no running run of their task and no cancel request |
| RunStores.RunStore.SelectNextRun | internal/state/store.go:809-886 | the first eligible run, of the preferred task if it has one |
| RunStores.RunStore.ClaimNextQueuedRun | internal/state/store.go:805-895 | starts that run and changes nothing else |
| RunStores.RunStore.CancelQueuedRuns | internal/state/store.go:1293-1306 | cancels exactly the queued runs of the task, with text, reason and completion time |
| RunStores.RunStore.ListRunningRuns | internal/state/store.go:513-523 | exactly the running rows, newest first |
| RunStores.RunStore.ListRuns | internal/state/store.go:498-511 | exactly the newest rows up to the limit, newest first, with the store limit for one that is not positive |
| RunStores.RunStore.UpsertTask | internal/state/store.go:121-160 | creates the task or keeps it, with a new pull request number only if one is given |
| RunStores.RunStore.SetTaskCompleted | internal/state/store.go:256-290 | fails for an unknown task; otherwise sets only that flag |
| RunStores.RunStore.SetTaskPRDraft | internal/state/store.go:292-313 | fails for an unknown task; otherwise sets only that flag |
| RunStores.RunStore.RequestRunCancel | internal/state/store.go:1174-1196 | the latest request for a run replaces an older one |
| RunStores.RunStore.ClearRunCancel | internal/state/store.go:1214-1224 | removes exactly that request |
| RunStores.RunStore.UpsertRunLease | internal/state/store.go:897-919 | the run is leased to the owner until now plus the lifetime, whoever had it |
| RunStores.RunStore.DeleteRunLease | internal/state/store.go:946-956 | removes the lease, whoever has it |
| RunStores.RunStore.DeleteRunLeaseForOwner | internal/state/store.go:958-972 | removes the lease only if the owner still has it |
| RunStores.RunStore.PauseScheduler | internal/state/store.go:1226-1248 | keeps the later of two deadlines and returns the one in force |
| Scheduling.RunStateMachine.TransitionBatch | internal/orchestrator/statemachine.go:59-86 | for any target: updates the row with the patch, the status, its timestamps and reason, or reports an unknown run or an invalid change and changes nothing; a final target keeps the store valid |
| Scheduling.RunStateMachine.Transition | internal/orchestrator/statemachine.go:42-57 | the same without a patch |
| Scheduling.RunStateMachine.Requeue | internal/orchestrator/statemachine.go:89-105 | a running run goes back to the queue with nothing left of its start; any other stays as it is |
| Servers.Server.ScheduleRuns | internal/orchestrator/scheduler.go:13-73 | terminates; the tables are those after exactly the turns of its claims, each made with room below the limit; touches only queued runs it claims; claims are in creation order after the preferred one; the leases never exceed the larger of limit and start; it stops only when draining, paused, full, after a store error or with nothing eligible; paused throughout, it does nothing |
| Servers.Server.ScheduleOne | internal/orchestrator/scheduler.go:28-71 | one turn: no claim while paused, full or draining; else the next run is claimed and ends as the turn has it |
| Servers.Server.HandleClaimed | internal/orchestrator/scheduler.go:50-71 | the claimed run is canceled on a pending request or a drain, failed if its lease cannot be written, and otherwise runs under a lease |
| Scheduling.HandledShrinks | internal/orchestrator/scheduler.go:39-71 | handling a claim makes no other run eligible, which is why the loop ends and keeps its order |
| Scheduling.PassContinues | internal/orchestrator/scheduler.go:28-72 | one more handled claim keeps the frame, the order, the lease bound and the account of claimed runs, with a smaller queue |
| Servers.Server.FinishRun | internal/orchestrator/service.go:248-262 | the request of a finished run goes; no run of a completed task stays queued, and of an open one every queued run that the pass did not claim keeps its row; unless the server drains a pass runs from there, and no eligible run is left but for a drain, a full instance, a pause or a store error; all in single statements of the interleaved system |
| Servers.Server.FinalizeDetachedRun | internal/orchestrator/execution.go:511-638 | a usage limit pauses the workers and puts the run back; else a running run succeeds, goes to review, fails or is canceled exactly as exit code, error text, any known pull request and a pending request have it, with the error, reason and pull request fields of that case; a final run stays; nothing of the run is left over, and the queue is served; all in single statements of the interleaved system |
| Servers.Server.SetVerdict | internal/orchestrator/execution.go:578-617 | each of the four statuses if and only if its case holds in the fields of the result, the row and the request; a pull request is open exactly in review, and number, URL and head are carried over |
| Servers.Server.Judge | internal/orchestrator/execution.go:578-599 | the status, pull request status, error and reason that this takes |
| Servers.Server.PauseAndRequeue | internal/orchestrator/execution.go:555-563 | after a usage limit the workers are paused at least until the retry time and the run is queued without lease or execution |
| Servers.Server.RequeueAfterUsageLimit | internal/orchestrator/execution.go:555-575 | no pass before the retry time picks that run up again |
| Servers.Server.FailRunForMissingExecution | internal/orchestrator/execution.go:106-125 | the run ends as failed, without lease, execution or request |
| Servers.Server.RecoverDetachedRun | internal/orchestrator/execution.go:61-104 | a run whose container is gone fails with nothing left of it; one that runs or cannot be inspected keeps row and execution under a lease of this instance, unless the lease cannot be written; one that exited is finalized |
| Servers.Server.AdoptRun | internal/orchestrator/execution.go:76-92 | adoption writes the lease and changes no run |
| Servers.Server.RecoverOne | internal/orchestrator/execution.go:25-58 | the run is put back exactly if it has no execution, no request and is stale; with a lease or start still fresh it is left alone |
| Servers.Server.RecoverRunningRuns | internal/orchestrator/execution.go:22-59 | afterwards every running run with an execution record was dealt with as the runner answered; one asked to stop is canceled with the request; of the unattended exactly the stale ones were put back, without lease and timestamps; the others and the final runs are as they were; all in single statements of the interleaved system |
| Recovering.SweepContinues | internal/orchestrator/execution.go:22-59 | one more recovered run keeps what the sweep promises for all runs passed so far |
| Executing.Executor.ExecuteRun | internal/orchestrator/execution.go:127-366 | the exact outcome from the tables at the start, and the exact row of a run that ends, with status, error and reason for each call that can fail and for each request; the execution record and the lease that remain; no eligible run is left but for the one slot of the own lease and the excuses of a pass; all in single statements of the interleaved system |
| Executing.EndsIff | internal/orchestrator/execution.go:127-366 | a run that was not final is canceled if and only if it was asked to stop, its task is completed or a request slips in before a call fails, and fails if and only if claim, lease, credential, session, record or start failed |
| Executing.LeakIsForever | internal/orchestrator/execution.go:127-180 | however many passes, ends and recoveries of other runs and startup recoveries follow, the lease of a run that is over stays |
| Executing.LeaksTakeSlots | internal/orchestrator/scheduler.go:39-47 | the leases so kept count in every pass: other leases only get the rest of the limit, and with no rest nothing is claimed |
| Executing.CancelBlocksServer | internal/orchestrator/execution.go:127-137 | a concrete case: a claimed run canceled before it is executed leaves a server with one slot without any |
| Executing.Executor.StopEarly | internal/orchestrator/execution.go:127-160 | a run that is canceled, moot, final or cannot be claimed ends here with the row that goes with it, and keeps the lease it had |
| Executing.Executor.LaunchUnderLease | internal/orchestrator/execution.go:181-366 | launches with an execution record or ends the run with the status, error and reason of the call that failed; the lease is not touched, the record as the launch left it |
| Executing.Executor.StartContainer | internal/orchestrator/execution.go:300-359 | the execution is recorded as running only if the container started and the record could be written; else the run fails with the error of that case, its record gone or stopping |
| Executing.Executor.StartDetachedWithRetry | internal/orchestrator/execution.go:726-760 | succeeds exactly if some attempt within the limit starts and only ordinary errors precede it |
| Cancels.CancelHandler.HandleCancelRun | internal/orchestrator/api.go:764-799 | the answer and the whole new state for each status: over, queued, running and in review; all in single statements of the interleaved system |
| Cancels.CancelHandler.RecoverQueuedCancels | internal/orchestrator/service.go:183-197 | exactly the listed queued runs with a request are canceled with its text and reason, and exactly their requests are gone; all in single statements of the interleaved system |
| Cancels.NothingLeftWaiting | internal/orchestrator/service.go:183-197 | afterwards no listed run is queued with a request pending |
| PullRequests.PullRequestHandler.Reconcile | internal/orchestrator/scheduler.go:75-147 | exactly the listed runs of the pull request get their reconciled row; all in single statements of the interleaved system |
| PullRequests.FirstClosingDecides | internal/orchestrator/scheduler.go:82-121 | over any sequence of events the first closing decides how a run in review ends, so a merge after a close leaves it canceled; the pull request counts as merged exactly if some event was a merge |
| PullRequests.CloseBeforeMergeCancels | internal/orchestrator/scheduler.go:82-121 | the same close and merge end a run in review as succeeded in one order and as canceled in the other |
| PullRequests.MergedIsForever | internal/orchestrator/scheduler.go:82-107 | after a merge no sequence of events changes a run that is not in review |
| Webhooks.WebhookHandler.CreateAndQueueRun | internal/orchestrator/runs.go:17-133 | creates the run that was asked for and serves the queue, unless draining, completed or its files fail, which fails the run; supersession survives, other tasks are spared, and rows that left the queue stay; all in single statements of the interleaved system |
| Webhooks.WebhookHandler.CancelRunningTaskRuns | internal/orchestrator/execution.go:775-794 | records a request for exactly the running runs of the task and marks exactly their executions as stopping |
| Webhooks.WebhookHandler.CancelTaskRuns | internal/orchestrator/webhook.go:138-146 | cancels the queued and asks the running runs of the task, with the given text and reason, so that nothing of it is active without a request |
| Webhooks.WebhookHandler.SynchronizePullRequest | internal/orchestrator/webhook.go:398-438 | all active runs of the task but the new one have a request, queued ones are canceled, both with the text and reason of the action; a new run exists exactly if one was active and the task is open and not a draft; all in single statements of the interleaved system |
| Webhooks.WebhookHandler.EditIssue | internal/orchestrator/webhook_interpreter.go:141-156 | the same for an edited issue, whose new run does not depend on earlier ones; all in single statements of the interleaved system |
| Webhooks.WebhookHandler.CloseIssue | internal/orchestrator/webhook.go:150-165 | the task is completed and nothing of it is active without a request; all in single statements of the interleaved system |
| Webhooks.WebhookHandler.ClosePullRequest | internal/orchestrator/webhook.go:371-395 | the listed runs in review end with the pull request, nothing of the task stays active without a request, and unrelated runs are as before; all in single statements of the interleaved system |
| Webhooks.WebhookHandler.ConvertPullRequestToDraft | internal/orchestrator/webhook.go:439-448 | no run of the task with a pull request is eligible, and the running ones are asked to stop; all in single statements of the interleaved system |
| Webhooks.WebhookHandler.ReadyPullRequest | internal/orchestrator/webhook.go:449-460 | the task leaves draft, and a pass follows only for an open task; all in single statements of the interleaved system |
| ResumeTimers.ResumeTimer.EnsureResumeTimer | internal/orchestrator/notifications.go:706-745 | sets the timer once per deadline and replaces an older one, whose callback may still run |
| ResumeTimers.ResumeTimer.OnTimer | internal/orchestrator/notifications.go:729-743 | schedules exactly if its deadline is the current one and the server is not draining |
| ResumeTimers.ResumeTimer.BeginDrain | internal/orchestrator/service.go:331-344 | forgets the timer |
| ResumeTimers.WakeUpIsKept | internal/orchestrator/notifications.go:706-745 | a requested wake-up stays pending until it schedules, another deadline is asked for or the server drains |
| ResumeTimers.OnePassPerRequest | internal/orchestrator/notifications.go:706-745 | two passes run by callbacks have a request between them, however many timers were stopped too late |
| WakeUps.PausedServerWakesUp | internal/orchestrator/notifications.go:684-745 | a server that recorded a pause has a wake-up pending or on its way until the deadline, unless it drains or a lookup fails, whatever other servers and goroutines do |
| WakeUps.WakesUpInTime | internal/orchestrator/notifications.go:693-745 | no wake-up is later than the end of the pause in force, unless a pause call for that very deadline could not be stored |
| WakeUps.EarlyWakeUpHappens | internal/orchestrator/notifications.go:693-745 | it may be earlier: a concrete run in which the goroutine with the shorter pause sets the timer last |
| WakeUps.EarlyWakeUpLooksAgain | internal/orchestrator/scheduler.go:19-33 | an early wake-up finds the longer pause and sets the timer to it |
| WakeUps.OthersPauseWakesNobody | internal/orchestrator/notifications.go:693-704 | a pause that another server recorded is awaited by nobody here until a pass has found it |
| Heartbeats.Supervisor.SuperviseRun | internal/orchestrator/execution.go:403-441 | the loop computes the lease, the next renewal and the loss of the lease as the heartbeat function of its ticks |
| Heartbeats.Supervisor.RenewRunLease | internal/state/store.go:921-944 | renews only a lease that is still the own one |
| Heartbeats.LeaseOutlivesTicks | internal/orchestrator/execution.go:403-441 | with ticks at most a gap apart, bounded delays, at most f failed renewals in a row and (f+1) periods below the lifetime, the lease is unexpired at every tick |
| Heartbeats.KeepsSlack | internal/orchestrator/execution.go:403-441 | every tick leaves lifetime for all failures still allowed |
| Heartbeats.HeartbeatIsSafeIff | internal/orchestrator/execution.go:403-441 | for every number f of failed renewals in a row: after a renewal no schedule within the gap and the delays lets the lease expire if and only if f + 1 periods are shorter than its lifetime |
| Heartbeats.LateTicksOutlast | internal/orchestrator/execution.go:403-441 | the schedule that shows it: f failed renewals and then a tick, each as late as allowed |
| Deliveries.DeliveryTable.ClaimDelivery | internal/state/store.go:1326-1355 | wins exactly as the claim statement says, then trims, with statements of others before the count and before the delete; a failed trim leaves the claim and hands out no token |
| Deliveries.DeliveryTable.RecordDelivery | internal/state/store.go:1396-1410 | the delivery is processed whoever claimed it, then the table is trimmed |
| Deliveries.DeliveryTable.TrimDeliveriesIfNeeded | internal/state/store.go:1412-1424 | drops the surplus as counted, which other statements may have changed by then |
| Deliveries.DeliveryTable.DeleteOldest | internal/state/sqlitegen/queries.sql.go:701-709 | drops that many rows, and none that is newer than a kept one |
| Deliveries.DeliveryTable.CompleteDeliveryClaim | internal/state/store.go:1357-1377 | succeeds exactly for the current token |
| Deliveries.DeliveryTable.ReleaseDeliveryClaim | internal/state/store.go:1379-1393 | removes the row exactly for the current token |
| Deliveries.ClaimWinsIff | internal/state/sqlitegen/queries.sql.go:115-163 | a fresh token wins if and only if the delivery is unknown or its claim is older than ten minutes and unprocessed |
| Deliveries.LostStaysLost | internal/state/sqlitegen/queries.sql.go:115-163 | over whole runs, a token that lost its delivery never holds it again |
| Deliveries.SupersededHasNoEffect | internal/state/sqlitegen/queries.sql.go:595-606 | so its complete and its release change nothing |
| Deliveries.ClaimsAreFarApart | internal/state/sqlitegen/queries.sql.go:115-163 | two winning claims with nothing between that ends the first are over ten minutes apart |
| Deliveries.CompletedOncePerEviction | internal/state/sqlitegen/queries.sql.go:595-606 | between two completions, or a completion and a claim, the delivery was evicted |
| CompletionComments.AtMostOneComment | internal/orchestrator/notifier.go:114-201 | over any interleaving with failures, crashes and ambiguous posts, at most one comment, and a run is marked or recorded posted only if it is there, if attempts act before their claim goes stale |
| CompletionComments.SecondCommentIff | internal/orchestrator/notifier.go:114-201 | in any run, a post is a second comment if and only if another attempt posted after the listing of this one had found nothing |
| CompletionComments.SecondCommentIsUntimely | internal/orchestrator/notifier.go:114-201 | in a run with two comments some attempt acted after its claim had gone stale |
| CompletionComments.LateAttemptPostsTwice | internal/orchestrator/notifier.go:114-201 | a concrete run in which two comments are posted |
| CompletionComments.StepKeepsInv | internal/orchestrator/notifier.go:114-201 | one timely step keeps exclusion of live claims and the count |
| CompletionComments.CommentStore.ClaimRunCompletionComment | internal/state/store.go:604-624 | takes a pending, failed or stale claim and no other |
| CompletionComments.CommentStore.NotifyRunCompleted | internal/orchestrator/notifier.go:82-202 | is a path of the protocol; alone it never adds to a comment that is there, and with no failure the run has its comment, marked and recorded |
| CompletionComments.CommentStore.PostComment | internal/orchestrator/notifier.go:150-189 | posts at most once, and looks again after an error |
| CredentialTables.NeverTwoLeases | internal/state/sqlitegen/queries.sql.go:2491-2529 | over whole runs with renewals on current clock readings, a run has at most one live lease |
| CredentialTables.DeadStaysDead | internal/state/sqlitegen/queries.sql.go:2263-2269 | with renewals on current clock readings, an expired or released lease is never live again |
| CredentialTables.RenewalRevivesIff | internal/state/sqlitegen/queries.sql.go:2263-2269 | a renewal makes a dead lease live if and only if the lease was live at the reading and the new deadline lies ahead |
| CredentialTables.RevivalIff | internal/state/sqlitegen/queries.sql.go:2263-2269 | over whole runs with any readings, a lease that died is live again at some point if and only if such a renewal happened |
| CredentialTables.ReleasedIsForever | internal/state/sqlitegen/queries.sql.go:2263-2269 | a released lease is never live again, whatever the readings |
| CredentialTables.RenewalBreaksIff | internal/state/sqlitegen/queries.sql.go:2263-2269 | a renewal on an old reading leaves two live leases if and only if the lease expired since the reading, the run has another live one and the new deadline lies ahead |
| CredentialTables.SecondLeaseIff | internal/state/sqlitegen/queries.sql.go:2263-2269 | over whole runs with any readings, some run has two live leases at some time if and only if such a renewal happened |
| CredentialTables.StaleRenewalHappens | internal/credentials/broker.go:168-182 | a concrete run in which that happens |
| CredentialTables.EveryLeaseWasAllowed | internal/state/sqlitegen/queries.sql.go:2491-2529 | every lease was created while its credential was active, not cooling down, shared or own, and its run had no live lease |
| CredentialTables.UsageCountsReleases | internal/credentials/broker.go:184-200 | the usage windows of a credential add up to its leases first released through the broker, once all are counted |
| CredentialTables.StepKeepsConserved | internal/credentials/broker.go:184-200 | counted plus still uncounted releases equal releases after every step |
| CredentialTables.TotalAfterAdd | internal/state/credentials.go:687-704 | a usage upsert raises the total of its credential by its runs and of no other |
| Brokers.CredentialStore.ListCredentialCandidates | internal/state/credentials.go:528-560 | exactly the credentials of the provider asked for, nameless ones for codex, that are active, not cooling down and shared or own, with their live leases counted and their usage windows added up |
| Brokers.CredentialStore.RunsInWindows | internal/state/sqlitegen/queries.sql.go:1690-1695 | the loop adds up the runs of the windows from the start on |
| Brokers.CredentialStore.TryCreateCredentialLease | internal/state/credentials.go:562-594 | creates the lease exactly if allowed |
| Brokers.CredentialStore.RenewCredentialLease | internal/state/credentials.go:618-638 | extends exactly a live lease |
| Brokers.CredentialStore.ReleaseCredentialLease | internal/state/credentials.go:640-656 | tells whether this call released it |
| Brokers.CredentialStore.ReclaimExpiredCredentialLeases | internal/state/credentials.go:673-685 | releases exactly the expired ones |
| Brokers.CredentialStore.SetCredentialStatus | internal/state/credentials.go:458-479 | sets status and cooldown of an existing credential |
| Brokers.CredentialStore.UpsertCredentialUsage | internal/state/credentials.go:687-704 | adds to the window |
| Brokers.Broker.Acquire | internal/credentials/broker.go:49-166 | all or nothing amid statements of others: a granted lease is on the credential that the strategy picked among those on offer for the provider, with codex as default, and was created while allowed; otherwise no lease of this call is live, and a call failed, nothing was to be picked or every attempt was beaten; a run that holds a live lease at every statement is granted none |
| Brokers.Broker.Attempt | internal/credentials/broker.go:66-164 | one turn of the loop: granted on the choice of the strategy, nothing held with the reason, or beaten with nothing created |
| Brokers.Broker.Equip | internal/credentials/broker.go:124-163 | granted exactly if credential, decryption and binding succeed; else the lease is given back |
| Brokers.Broker.Renew | internal/credentials/broker.go:168-182 | succeeds exactly if the lease is unreleased and had not expired at the clock reading |
| Brokers.Broker.Release | internal/credentials/broker.go:184-200 | counts usage exactly if this call released the lease |
| Brokers.CallsConserveUsage | internal/credentials/broker.go:184-200 | any mix of calls and other statements keeps the usage account |
| Strategies.OrderDoesNotMatter | internal/credentials/strategies/helpers.go:9-47 | two lists of the same candidates lead to the same choice, for every strategy |
| Strategies.ChoiceIsListed | internal/credentials/strategies/requester_own_then_shared.go:17-38 | the choice is a listed candidate, and there is none exactly if the strategy has no candidate in its pools |
| Strategies.ChoiceIsBest | internal/credentials/strategies/helpers.go:35-47 | for each strategy, in terms of scope, owner, leases, score and id alone, the choice is at least as good as every candidate it could have taken |
| Strategies.BeforeIff | internal/credentials/strategies/helpers.go:9-13 | ids compare by their first difference, a proper prefix first |
| Strategies.CloneAndSort | internal/credentials/strategies/helpers.go:9-13 | a permutation in id order |
| Strategies.Filter | internal/credentials/strategies/helpers.go:15-23 | the elements that satisfy the predicate, in order |
| Strategies.First | internal/credentials/strategies/helpers.go:25-33 | the first such element, if there is one |
| Strategies.MinBy | internal/credentials/strategies/helpers.go:35-47 | the first minimum of a strict weak order |
| Strategies.FirstMinimumIsFavourite | internal/credentials/strategies/helpers.go:35-47 | in id order the first minimum of the key is the minimum by key, then id |
| Strategies.SelectPriorityBurst | internal/credentials/strategies/priority_burst.go:17-29 | the minimum by leases, shared first, then id |
| Strategies.SelectSharedLeastActiveLeases | internal/credentials/strategies/shared_least_active_leases.go:17-29 | the shared minimum by leases, then id |
| Strategies.SelectSharedWeightedUsage | internal/credentials/strategies/shared_weighted_usage.go:17-37 | the shared minimum by weighted score, then id, however floating-point results are rounded |
| Strategies.ScoreFollowsLoad | internal/credentials/strategies/shared_weighted_usage.go:32-37 | with any monotone rounding that keeps zero, a candidate of no less weight and with no more leases, tokens and runs scores no higher |
| Strategies.ExactScore | internal/credentials/strategies/shared_weighted_usage.go:32-37 | unrounded, the score times the weight is leases plus runs plus tokens in millions |
| Strategies.SelectRequesterOwnThenShared | internal/credentials/strategies/requester_own_then_shared.go:17-38 | the own minimum by leases, then id, and only without own ones the shared |
| Strategies.SelectHybridReservePlusPool | internal/credentials/strategies/hybrid_reserve_plus_pool.go:17-41 | the idle own one with the lowest id, else the shared minimum by leases, then id, else the own one with the lowest id |
| Strategies.Select | internal/credentials/strategies/registry.go:10-29 | the choice of the named strategy, for all five names |
| TokenUsages.DeltaOfParts | internal/runsummary/usage.go:137-175 | the delta of two log parts is the join of their deltas, names, errors and raw text included |
| TokenUsages.CumulativeOfParts | internal/runsummary/usage.go:97-135 | the last total of two parts is that of the second if it has one |
| TokenUsages.ExtractCodexSessionUsage | internal/runsummary/usage.go:97-135 | the loop computes the last total, or the error if there is none or a line is too long |
| TokenUsages.ExtractCodexSessionUsageDelta | internal/runsummary/usage.go:137-175 | the loop computes the sum of the single usages, or the error likewise |
| TokenUsages.ExtractTokenUsage | internal/runsummary/usage.go:33-87 | exactly the usage of highest priority, the last among equals, completed with the model and provider last named |
| TokenUsages.SubtractUndoesAdd | internal/runsummary/usage.go:177-207 | subtracting what was added to gives back the counters, and no result exactly if there is nothing in it |
| TokenUsages.SubtractRecoversDifference | internal/runsummary/usage.go:177-207 | a total that exceeds the baseline by a non-negative difference yields exactly that difference |
| TokenUsages.AddIsMonoid | internal/runsummary/usage.go:305-331 | adding is associative and the empty usage is neutral |
| TokenUsages.DifferenceCounts | internal/worker/codex_usage.go:107-117 | if totals are running sums, the difference of totals has the counters of the delta if and only if the log is as far ahead of its last total as it was at the baseline |
| TokenUsages.RunIsChargedItsShare | internal/worker/codex_usage.go:20-123 | for a resumed session or one other than that of the baseline, with any failure at the baseline: the run is charged the counters of its own events if and only if its input is chargeable, a condition on the logs spelled out case by case |
| TokenUsages.LaggingBaselineMischarges | internal/worker/codex_usage.go:68-123 | for every used-up amount a resumed session in which the run is charged what it did not use |
| TokenUsages.OtherSessionMischarges | internal/worker/codex_usage.go:84-117 | for any two usages with a positive total, a new session after a baseline of another one is charged wrong, although it reported its usage and all totals were up to date |
| TokenUsages.LostBaselineCharges | internal/worker/codex_usage.go:20-37 | if the file was not found at the baseline, a resumed session is charged for all that went before |
| TokenUsages.TotalsUpToDate | internal/runsummary/usage.go:97-175 | if no usage comes without a total, no total is ever behind |
| TokenUsages.CaptureCodexUsageBaseline | internal/worker/codex_usage.go:20-52 | notes file, length and last total; nothing if the file is not found, and no total if it is not read |
| TokenUsages.LoadCodexRunTokenUsage | internal/worker/codex_usage.go:68-123 | the delta since the baseline, else the difference of totals, else nothing or the error |
| ShellQuoting.ShellQuoteRoundTrip | internal/remote/script.go:18-20 | read by the quoting rules of the shell, the quoted text is one word that is the text |
| ShellQuoting.QuotedTextStandsForItself | internal/remote/script.go:18-20 | also in front of any further part of the word |
| ShellQuoting.ShellQuoteIsInjective | internal/remote/script.go:18-20 | different texts are quoted differently |

## Left out

- Docker, git, GitHub, HTTP, the filesystem and JSON: their answers are parameters, and usage lines are already parsed.
- Trimming and normalising of strings and the parsing of statuses, reasons, scopes, retry times and session paths.
- The source text of a cancel request: a request holds the status reason that text stands for, and its text is never blank.
- Repositories: a pull request is identified by its number, and the task that belongs to it is a parameter.
- Most columns of runs, tasks, executions and credentials, among them trigger, branches and blobs.
- The single store object: deliveries, completion comments and credentials are kept in objects of their own.
- Store errors other than those given as parameters; a statement that reports an error is taken to have had no effect.
- Concurrency inside one call of a server, webhook or cancel method: `Lifecycle` interleaves single statements, the
  methods run alone. `ScheduleRuns` reads the clock once per turn for the pause check and the claim.
- Goroutines started on the side: `ExecuteRun` and the supervisor run when they are called, not when they are started.
- The number or cause at the end of an error text, and the exit code that a report may add to the metadata.
- Notifications, token usage rows, task sessions and credential cooldowns that finalizing a run also writes.
- Creating runs for comments, reviews, checks and labels: they are `CreateAndQueueRun` after lookups.
- Canceling the queued runs of a review thread: it needs the stored response target.
- The order of the candidate list: the choice does not depend on it (`Strategies.OrderDoesNotMatter`).
- The library sort: `Strategies.CloneAndSort` inserts one by one, and only its contract is used.
- The rounding of floating-point numbers: `Strategies.SharedWeightedUsage` takes any function for it.
- The token column of credential usage: no statement of the code adds anything but zero to it.
- The supervisor's inspection of the container and the renewal of its credential; `Heartbeats` has the lease alone.
- Partial lines at the baseline of a session log: the baseline falls between two lines, and a log only grows.
- A session file that cannot be found or read after the run: the run is then charged nothing.
- Agent output is taken up to the first line over 4 MiB, where the scanner stops.
- Paths.Reaches: says that some sequence of statements leads to the result of a call, not which one.
- 64-bit overflow of counters and clocks.
- CompletionComments.AtMostOneComment: assumes that an attempt acts before its claim goes stale, as the code's deadline of
  15 seconds against 5 minutes intends; `SecondCommentIff` says what happens without it.
- CredentialTables.NeverTwoLeases: assumes renewals on current clock readings; `RenewalBreaksIff` says what happens else.
- CredentialTables.DeadStaysDead: assumes renewals on current clock readings; `RevivalIff` says when a lease comes back
  without that, and `ReleasedIsForever` needs no such assumption.
- TokenUsages.RunIsChargedItsShare: assumes that totals are running sums and that no event carries a negative counter.
- WakeUps.PausedServerWakesUp: each look of a pass for a pause counts as a pass of its own.
- Heartbeats.HeartbeatIsSafeIff: assumes a gap of at least one nanosecond between ticks.
- Executing.Executor.ExecuteRun: the branch for a run whose status changes between two statements of the call is not
  modelled.
