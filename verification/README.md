# Delivery reliability core, verified in Dafny

This project models how the EDO adapter gets a document to a provider in spite of failures, and proves what
that machinery guarantees: the per-account circuit breaker, one run of the `send_document` task with its two
commits, retry and backoff, the dead-letter queue with its manual and automatic replays, the endpoints that
create and requeue deliveries, and the check digits of a taxpayer number (INN).

Code that changes state step by step is modelled by classes and methods (`Breaker.CircuitBreaker`,
`Deliveries.DocumentDelivery`, `Store.Session`, `Worker.SendDocument`, `Dlq.ReplayBatch`, `Dlq.ProcessDlq`,
`Documents.RetryDocument`), each proved against a specification function. What holds over whole runs is
proved about two step machines: `System` (any number of workers, crashes, redelivery, endpoints and sweeps)
and `SharedBreaker` (any number of workers on one Redis hash). Every list of steps is a run: a step that is
not enabled changes nothing. `Crashes.WorkerIsStepsAlone` and `SharedBreaker.UninterruptedCallIsApply` tie the
machines back to the task and to the breaker.

`dafny verify dfyconfig.toml` checks everything.

## Reading guide

| file | content |
|---|---|
| Core.dfy, Backoff.dfy | settings, statuses, counting; capped exponential delay |
| Breaker.dfy | the breaker for one caller at a time, refined by its call history |
| SharedBreaker.dfy | the breaker under interleaving |
| Outage.dfy | the load a failing provider sees |
| Deliveries.dfy, Store.dfy, Worker.dfy | the delivery record, tables and sessions, the task |
| Documents.dfy, Dlq.dfy | endpoints, replays, sweep |
| System.dfy, Rows.dfy, Stranding.dfy, Ledgers.dfy, Crashes.dfy | the interleaved system; what rows say, who waits for whom, totals, crashes |
| Resending.dfy, Acceptance.dfy, CallBound.dfy | how often the provider is called, and when a send is repeated |
| Admission.dfy, Solo.dfy, SentTwice.dfy, Overlaps.dfy | runs the breakers allow, and the examples among them |
| Inn.dfy | check digits |

## Assumptions

- The clock never runs backwards for one account; threshold and half-open maximum are at least 1; timeout,
  backoff base and cap are not negative.
- Fresh ids are positions in their table. One call to the clock stands for the several in one commit.
- A request and its commit are one step, and so is a sweep of `System`; `Dlq.Happening` has sweeps that die.
  In the code the message goes out before the request commits, so a worker fast enough to load the delivery
  first would find none and drop the message; that race is not modelled.
- The environment chooses the provider's answer, the jitter, the breaker's verdict in `System`, whether an
  account is active, who crashes, when a due retry is dispatched, and which calls to Redis or to the provider
  factory raise. A Redis call that raises is taken to have had no effect.
- `System` is free where the environment chooses, so its theorems hold of more runs than can happen. Where this
  project says that something does happen, it happens in a run of `Admission`: there every breaker has been told
  exactly what the run reported, admits and rejects accordingly, and accounts are as the table says
  (`Admission.AllowedAloneIff`). A breaker call is one step there, as in `SharedBreaker.UninterruptedCallIsApply`.
- A task that ends in an exception is acknowledged; a task whose worker is lost is queued again.

## Where the code differs from what one might expect

- A failure in HALF_OPEN does not reopen the circuit unless it reaches the threshold: every recorded failure
  writes CLOSED first. `Breaker.StateRefinesHistory` states the rule the code does follow.
- With several workers a trip can be undone at once by a late failure report
  (`SharedBreaker.TripLostUnderInterleaving`); `SharedBreaker.OpenSurvivesStepIff` and
  `SharedBreaker.OpenThroughoutIff` say exactly when, for a step and for a run.
- An exception out of the last task of a delivery strands it (`Stranding.GuardFaultStrands`);
  `Stranding.StepKeepsNoStrandedIff` and `Stranding.NeverStrandedIff` say exactly which steps and runs do that.
- Two workers on one delivery lose a retry (`Overlaps.OverlapLosesRetry`) and can lower the retry count
  (`Overlaps.OverlapLowersRetryCount`); `Ledgers.StepKeepsRetryLedgerIff` and
  `Ledgers.StepLowersRetryCountIff` say exactly which steps do.
- The repository promises idempotent sends without double-sending (its README.md, lines 180-181). The task does not
  keep that: it calls the provider without looking at the row. With one worker at a time per delivery, a call
  repeats an accepted send if and only if the row the worker holds has a provider id, which a guard could test
  before the call, or a worker crashed with the acceptance, which nothing in the system records
  (`Acceptance.CallRepeatsIff`, `Acceptance.NeverSentTwiceIff`; `Acceptance.AcceptedIff` covers overlapping workers
  too). Four runs show it: a sweep replays the dead letter of a delivery sent meanwhile
  (`SentTwice.SentTwiceWithoutFault`), Redis fails while an acceptance is recorded and the delivery is retried by
  force (`SentTwice.SentTwiceAfterRedisFailure`), a worker crashes with the acceptance
  (`SentTwice.SentTwiceAfterCrash`), a due retry is dispatched twice (`SentTwice.SentTwiceByDispatch`). Once a delivery
  is SENT with every message acknowledged, only a replay of its dead letter ends that (`Resending.SentOnceIff`).
- max_attempts + 1 bounds the provider's answers for a delivery when no message for it is extra and no answer is
  lost; otherwise each adds at most one (`CallBound.SerialCallsBounded`, `CallBound.CallsBoundedIfLeftAlone`). Each worker that crashes with an answer
  leaves one call that is in no audit event (`Resending.CallLedger`), and a crash after the outcome commit repeats
  call and audit event (`Crashes.CrashAfterOutcomeShows`).
- A sweep that dies before its commit publishes its entries again (`Dlq.DeadSweepFiresTwice`);
  `Dlq.RepeatsIff` says exactly when an entry is repeated.

## Model

| member | source | states |
|---|---|---|
| Breaker.StateRefinesHistory | src/infrastructure/reliability/circuit_breaker.py:29-89 | after any ordered calls, get_state answers what the call history alone says, and it is OPEN exactly when the latest failure ended a run of consecutive failures whose length is a multiple of the threshold, less than the timeout ago |
| Breaker.LastTrip | src/infrastructure/reliability/circuit_breaker.py:58-72 | finds the latest failure if and only if it tripped the breaker |
| Breaker.FailureCounterClosedForm | src/infrastructure/reliability/circuit_breaker.py:42-84 | the stored counter is the current failure run modulo the threshold, 0 unless CLOSED, and every trip cost a full threshold of failures |
| Breaker.HalfOpenCounterClosedForm | src/infrastructure/reliability/circuit_breaker.py:44-53 | the stored half-open counter is the number of half-open successes ever, modulo the batch size |
| Breaker.RecoveryExactly | src/infrastructure/reliability/circuit_breaker.py:42-56 | past the timeout, n successes in a row close the circuit if and only if they complete the batch already begun |
| Breaker.Recovery | src/infrastructure/reliability/circuit_breaker.py:42-84 | from every reachable state past the timeout, half_open_max successes in a row end CLOSED with no failures |
| Breaker.CircuitBreaker.GetState | src/infrastructure/reliability/circuit_breaker.py:29-40 | the hash stays the one the history leads to; the answer is the history's; other accounts are untouched |
| Breaker.CircuitBreaker.RecordSuccess | src/infrastructure/reliability/circuit_breaker.py:42-56 | the same for a reported success |
| Breaker.CircuitBreaker.RecordFailure | src/infrastructure/reliability/circuit_breaker.py:58-72 | the same for a reported failure |
| Breaker.CircuitBreaker.TransitionTo | src/infrastructure/reliability/circuit_breaker.py:74-84 | writes exactly the fields of the transition |
| Breaker.CircuitBreaker.Guard | src/infrastructure/reliability/circuit_breaker.py:86-89 | raises CircuitOpenError if and only if the trip rule over the account's history rejects |
| SharedBreaker.SharedCounterSafety | src/infrastructure/reliability/circuit_breaker.py:58-84 | in every interleaving with crashes, failures < threshold + pending OPEN writes + abandoned ones (none without a crash inside record_failure), and each OPEN write has a distinct increment that saw the threshold |
| SharedBreaker.UninterruptedCallIsApply | src/infrastructure/reliability/circuit_breaker.py:29-84 | a call whose commands nobody interrupts does exactly what the one-caller breaker does |
| SharedBreaker.OpenSurvivesStepIff | src/infrastructure/reliability/circuit_breaker.py:58-84 | a step takes an OPEN circuit out of OPEN if and only if it is an increment or a pending HALF_OPEN or CLOSED write |
| SharedBreaker.OpenThroughoutIff | src/infrastructure/reliability/circuit_breaker.py:58-84 | over any interleaving an OPEN circuit stays OPEN throughout if and only if none of those three happens where it is taken |
| SharedBreaker.TripHolds | src/infrastructure/reliability/circuit_breaker.py:29-89 | with nobody midway and no failure reported, the circuit stays OPEN in every interleaving for the whole timeout |
| SharedBreaker.TripRejectsEveryone | src/infrastructure/reliability/circuit_breaker.py:86-89 | then every guard within the timeout rejects and changes nothing |
| SharedBreaker.TripLostUnderInterleaving | src/infrastructure/reliability/circuit_breaker.py:58-67 | three workers pass the guard, the third failure report closes the circuit the second has just opened, and a guard a second later lets a task through |
| Outage.OutageLoadBound | src/infrastructure/queue/tasks/send_document_task.py:68-100 | tasks one at a time: a window no longer than the timeout and without a success holds at most `threshold` transient failures |
| Outage.QuietAfterTrip | src/infrastructure/queue/tasks/send_document_task.py:68-75 | a task let through after any earlier trip starts at least a timeout after it |
| Outage.WorkIsWhatWorkersReport | src/infrastructure/queue/tasks/send_document_task.py:46-121 | wherever the modelled task ends, it reports to the breaker what its job reports, or nothing if it ends before the guard's verdict |
| Outage.ReportedIsJournal | src/infrastructure/queue/tasks/send_document_task.py:46-121 | the history a list of task runs leaves for an account is the journal of their jobs |
| Outage.WorkersLoadBound | src/infrastructure/queue/tasks/send_document_task.py:68-100 | task runs one at a time, whatever else fails: a window no longer than the timeout in which Redis hears of no acceptance holds at most `threshold` transient answers that Redis heard of |
| Outage.WorkersQuietAfterTrip | src/infrastructure/queue/tasks/send_document_task.py:68-81 | a task run that gets past the guard after any earlier trip was checked at least a timeout after it |
| Backoff.Delay | src/infrastructure/reliability/retry_backoff.py:9-16 | the upper end of the jitter lies between 0 and the cap |
| Backoff.DelayExactly | src/infrastructure/reliability/retry_backoff.py:14 | the base doubled once per retry and capped, and the same as a recurrence from the first delay, the smaller of base and cap |
| Backoff.DefaultDelays | src/core/config.py:83-85 | with the default settings 10 seconds first, 640 after six doublings, 900 from then on |
| Backoff.TransientIff | src/infrastructure/reliability/retry_backoff.py:23-29 | a code is transient if and only if it starts with one of the three prefixes |
| Backoff.DelayGrows | src/infrastructure/reliability/retry_backoff.py:14 | the delay is monotone in the retry count |
| Backoff.DelayAtMostDoubles | src/infrastructure/reliability/retry_backoff.py:14 | one retry more at most doubles it |
| Backoff.DelayEventuallyConstant | src/infrastructure/reliability/retry_backoff.py:14 | from some count on it is constant, the cap if the base is positive |
| Backoff.TotalDelayBound | src/infrastructure/reliability/retry_backoff.py:9-16 | the first n delays together are within both closed bounds |
| Backoff.WaitCeilingIs | src/infrastructure/reliability/retry_backoff.py:14 | those bounds: the base doubled n times less the base, and the cap added n times |
| Deliveries.DocumentDelivery.MarkSending | src/domain/entities/document_delivery.py:50-52 | the whole record after the call |
| Deliveries.DocumentDelivery.MarkSent | src/domain/entities/document_delivery.py:54-58 | the whole record after the call |
| Deliveries.DocumentDelivery.MarkFailed | src/domain/entities/document_delivery.py:77-82 | the whole record after the call |
| Deliveries.DocumentDelivery.ScheduleRetry | src/domain/entities/document_delivery.py:84-88 | the whole record after the call |
| Deliveries.DocumentDelivery.Requeue | src/presentation/api/v1/documents.py:228-229 | the whole record after the forced retry's two assignments |
| Store.Session.UpdateDelivery | src/infrastructure/database/repositories/__init__.py:243-263 | replaces the row with the entity's id and nothing else |
| Worker.SendDocument | src/infrastructure/queue/tasks/send_document_task.py:46-135 | the exact versions committed, the calls reported to the account's breaker, and whether the task raises, for every branch |
| Worker.HandleAnswer | src/infrastructure/queue/tasks/send_document_task.py:83-121 | each provider outcome, with and without Redis, leaves the specified row and dead letter |
| Worker.OutcomeTable | src/infrastructure/queue/tasks/send_document_task.py:83-133 | every field of the row after each answer, with and without Redis: status, times, counts, and the code and message each failure carries |
| Worker.RetryTimesExactly | src/infrastructure/reliability/retry_backoff.py:9-16 | the retry times a transient error may lead to are exactly those from now to the full delay |
| Worker.RefusalTable | src/infrastructure/queue/tasks/send_document_task.py:70-75 | every field after a refusal by the open breaker: PENDING, one retry more, due after the wait, with the CIRCUIT_OPEN error |
| Worker.InactiveTable | src/infrastructure/queue/tasks/send_document_task.py:62-66 | every field after a missing or inactive account: FAILED, no retry |
| Worker.VerdictTable | src/infrastructure/queue/tasks/send_document_task.py:56-81 | where a run ends, each end if and only if, from the row, the account, the breaker's history and the exceptions |
| Stranding.RaisesIff | src/infrastructure/queue/tasks/send_document_task.py:56-135 | a first run ends in an exception if and only if the row it leaves still needs a task |
| Worker.DeadLetterClassification | src/infrastructure/queue/tasks/send_document_task.py:99-121 | a dead letter exists exactly when the row is FAILED, is retryable exactly when its code is transient, and carries the row's identity and last error |
| Documents.SendDocumentEndpoint | src/presentation/api/v1/documents.py:52-113 | the 409, 404, 422 and 202 cases, the rows added and the message published |
| Documents.SubmitReplyIff | src/presentation/api/v1/documents.py:62-75 | each of the four replies if and only if, from the stored documents and the account's tenant and activity |
| Documents.SubmissionLeaves | src/presentation/api/v1/documents.py:77-111 | the new document, every field of the new delivery, and the one message with the file |
| Documents.RetryDocument | src/presentation/api/v1/documents.py:213-239 | 404 exactly when nothing failed; without force nothing changes; with force every failed delivery of the document, and no other row, is requeued and published once |
| Documents.RequeueAll | src/presentation/api/v1/documents.py:220-237 | requeueing the listed failed ids one by one is requeueing by the row condition |
| Documents.ForcedRetryExactly | src/presentation/api/v1/documents.py:220-237 | row by row and message by message: the document's FAILED rows become PENDING without retry time and get one message without a file each; nothing else changes or is published |
| Documents.ResubmitIsHarmless | src/presentation/api/v1/documents.py:62-69 | a repeated submission gets 409 and changes and publishes nothing |
| Dlq.DLQEntry.MarkReplayed | src/domain/entities/dlq_entry.py:50-51 | sets the replay time and nothing else |
| Dlq.ReplayDlqEntry | src/presentation/api/v1/dlq.py:55-80 | the reply, the table and the messages of a single replay |
| Dlq.ReplyIff | src/presentation/api/v1/dlq.py:62-70 | each reply if and only if, from the entry's existence, tenant and retryability and the force flag |
| Dlq.ReplayTraffics | src/presentation/api/v1/dlq.py:72-76 | what a replay by hand and a sweep publish for an entry |
| Dlq.ReplayBatch | src/presentation/api/v1/dlq.py:83-105 | the batch is the fold of single replays over the ids in order, and its count is the number of eligible positions of the original table |
| Dlq.ReplayEachFrame | src/presentation/api/v1/dlq.py:91-104 | exactly the eligible entries named get a replay time; nothing else in the table changes |
| Dlq.ReplayEachTraffic | src/presentation/api/v1/dlq.py:91-104 | the messages are those of the eligible ids in order, repeats included |
| Dlq.ForeignEntriesUntouched | src/presentation/api/v1/dlq.py:93-94 | entries of other tenants never change, forced or not |
| Dlq.Due | src/infrastructure/queue/tasks/process_dlq_task.py:23-27 | the sweep's query: all retryable entries not yet replayed, each once |
| Dlq.DueIff | src/infrastructure/queue/tasks/process_dlq_task.py:23-26 | an entry is due if and only if it is retryable and was never replayed |
| Dlq.ProcessDlq | src/infrastructure/queue/tasks/process_dlq_task.py:18-50 | the table after a sweep, the messages it appended to the queue in order, scanned = replayed + skipped, replayed = messages published |
| Dlq.SweepOverFrame | src/infrastructure/queue/tasks/process_dlq_task.py:32-46 | exactly the entries published are marked |
| Dlq.SweepOverTraffic | src/infrastructure/queue/tasks/process_dlq_task.py:32-46 | the messages published are those of the entries whose publishing succeeded, in order |
| Dlq.SweepLeavesOnlyBroken | src/infrastructure/queue/tasks/process_dlq_task.py:18-50 | only entries whose publishing failed stay due; after a sweep with no skips the next changes nothing |
| Dlq.SweepFiresOnce | src/infrastructure/queue/tasks/process_dlq_task.py:18-50 | over any run of arrivals, manual replays and sweeps, the publications of an entry by sweeps are those of sweeps that died after publishing it and of at most one that committed |
| Dlq.PermanentNeverSwept | src/infrastructure/queue/tasks/process_dlq_task.py:23-46 | over any run, no sweep ever publishes an entry that is not retryable |
| Dlq.DispatchedAreMessages | src/infrastructure/queue/tasks/process_dlq_task.py:32-48 | whatever happens, the queue grows by exactly the messages of the ids counted, in order, or of the manual replay |
| Dlq.RepeatsIff | src/infrastructure/queue/tasks/process_dlq_task.py:32-48 | a sweep repeats an entry if and only if it publishes one that an earlier sweep died with; a committing sweep publishes exactly the due entries whose publishing does not fail |
| Dlq.DeadSweepFiresTwice | src/infrastructure/queue/tasks/process_dlq_task.py:32-48 | it does happen: the same message twice in the queue |
| Stranding.NoStrandedDelivery | src/infrastructure/queue/tasks/send_document_task.py:46-133 | in every reachable state of a run without stranding faults, a SENDING delivery has a queued or running task, and a PENDING one has that or a retry time |
| Stranding.StepKeepsNoStrandedIff | src/infrastructure/queue/tasks/send_document_task.py:68-133 | a step strands a delivery if and only if an exception leaves its last task while the row needs one |
| Stranding.NeverStrandedIff | src/infrastructure/queue/tasks/send_document_task.py:68-133 | over any run, no delivery is ever stranded if and only if no such step is taken |
| Stranding.NoExceptionsNoFault | src/infrastructure/queue/tasks/send_document_task.py:46-135 | a run in which no task raises has no stranding fault |
| Stranding.PublishingKeeps | src/presentation/api/v1/documents.py:225-237 | forced retries, submissions and replays never strand |
| Stranding.GuardFaultStrands | src/infrastructure/queue/tasks/send_document_task.py:68-75 | in a run that can happen, Redis down at the first guard leaves a delivery PENDING with no task and no retry time |
| Ledgers.AttemptLedger | src/infrastructure/queue/tasks/send_document_task.py:83-133 | per delivery and run: answered calls = audit events = SENT + scheduled retries + dead letters + transient errors Redis lost |
| Ledgers.OutcomeCommittedTogether | src/infrastructure/queue/tasks/send_document_task.py:123-133 | the audit event carries the status committed with it, a dead letter is written exactly with FAILED and carries that error |
| Ledgers.DlqClassification | src/infrastructure/queue/tasks/send_document_task.py:138-157 | in every reachable state, retryable exactly when transient, and both replay paths publish the same message with no bytes |
| Ledgers.RetryBudget | src/infrastructure/queue/tasks/send_document_task.py:70-111 | with one worker at a time per delivery: retry count = transient retries + breaker rejections, retries within max_attempts, all waits together under both closed bounds |
| Ledgers.RetryCountNeverDecreases | src/domain/entities/document_delivery.py:84-88 | with one worker at a time per delivery the retry count never goes down, forced retries and replays included |
| Ledgers.StepLowersRetryCountIff | src/infrastructure/queue/tasks/send_document_task.py:56-133 | a step lowers a stored retry count if and only if it is a commit of a row whose count, plus one if a retry is scheduled, is below the stored one |
| Ledgers.RetryCountGrowsIff | src/infrastructure/queue/tasks/send_document_task.py:56-133 | over any run, the count grows from step to step if and only if no such commit is made |
| Overlaps.OverlapLowersRetryCount | src/infrastructure/queue/tasks/send_document_task.py:83-111 | with three or more retries allowed, in a run the breaker allows: the count falls from three to two |
| Ledgers.StepKeepsRetryLedgerIff | src/infrastructure/queue/tasks/send_document_task.py:56-133 | a step breaks that equation if and only if it commits a row loaded before the stored count moved |
| Overlaps.OverlapLosesRetry | src/infrastructure/queue/tasks/send_document_task.py:83-111 | with two or more retries allowed, in a run the breaker allows: two workers on one dispatched retry leave three scheduled retries and a count of two |
| Ledgers.OneDeliveryEach | src/presentation/api/v1/documents.py:62-103 | in every reachable state no document is stored twice and each has its own delivery |
| Rows.ScheduledIsDueIff | src/infrastructure/database/repositories/__init__.py:210-220 | after a refusal or a retried transient error the delivery can be dispatched at a time if and only if its wait is over |
| Rows.ClosedIsNotDue | src/infrastructure/database/repositories/__init__.py:210-220 | after any other commit of a worker it cannot be dispatched |
| Rows.ForcedRetryIsNotDue | src/presentation/api/v1/documents.py:228-237 | after a forced retry the requeued delivery has a message of its own and cannot be dispatched beside it |
| Rows.DeliveriesOwned | src/presentation/api/v1/documents.py:71-103 | in every reachable state each delivery's account and document exist and belong to its tenant |
| Rows.ReplaysStayInTenant | src/presentation/api/v1/dlq.py:62-76 | in every reachable state a replay by hand publishes deliveries of the caller's tenant only |
| Rows.NoMessageAstray | src/infrastructure/queue/tasks/send_document_task.py:56-59 | in every reachable state every message names a stored delivery, requests being atomic with their commit |
| Rows.StatusTells | src/domain/entities/document_delivery.py:50-88 | in every reachable state a row is PENDING, SENDING, SENT with provider id and time, or FAILED with error and time |
| Crashes.CrashesInvisible | src/infrastructure/queue/tasks/send_document_task.py:46-133 | runs of a task that die before their outcome commit, among any steps that do not concern the delivery, then any further steps of the task among such steps: compared with the same history without the dying runs, tables agree if and only if the task has committed since or the row was left as it was, tasks agree, and the provider answered once more for each answer that died |
| Crashes.CrashAfterOutcomeShows | src/infrastructure/queue/celery_app.py:23-24 | a crash after the outcome commit costs one more call and one more audit event |
| Crashes.WorkerIsStepsAlone | src/infrastructure/queue/tasks/send_document_task.py:46-133 | the task's last commit is what the interleaved steps leave when run alone, with one provider call exactly if it is answered, for every verdict |
| Crashes.UnknownEndsAlone | src/infrastructure/queue/tasks/send_document_task.py:56-59 | a message for an unknown delivery ends its run and changes nothing |
| Crashes.RedispatchEnds | src/infrastructure/queue/tasks/send_document_task.py:70-121 | a PENDING delivery rerun under any answers makes at most one call more than the retries it has left and then is SENT or FAILED, or SENDING exactly when Redis failed while the last answer, a transient error, was recorded |
| Crashes.FreshDeliveryEnds | src/infrastructure/queue/tasks/send_document_task.py:77-121 | a fresh one makes at most max_attempts + 1 calls; that many leave it SENT or FAILED if Redis never fails while a transient error is recorded |
| Resending.CallLedger | src/infrastructure/queue/tasks/send_document_task.py:83-133 | per delivery and run: provider answers = audit events + answers workers still hold + crashes of workers that held one |
| Resending.StepKeepsRestIff | src/infrastructure/queue/tasks/send_document_task.py:46-133 | a step leaves the row of a delivery that is SENT and fully acknowledged alone and adds no call for it; the delivery stays at rest if and only if the step is not a replay of its dead letter |
| Resending.PublishingNames | src/presentation/api/v1/documents.py:213-239 | submissions, forced retries and due dispatches never publish a message for a SENT delivery; replays do exactly when they replay its dead letter |
| Resending.SentOnceIff | README.md:180-181 | over any run, a delivery at rest stays so if and only if none of its dead letters is replayed, and then row and number of calls never change |
| Resending.ReplayCallsAgain | src/infrastructure/queue/tasks/send_document_task.py:46-95 | such a replay lets a worker call the provider again, and the breaker and account allow that if and only if the account is active and its breaker admits the task |
| SentTwice.SentTwiceWithoutFault | src/infrastructure/queue/tasks/process_dlq_task.py:23-46 | for every setting, a run the breaker allows, with no crash, exception or Redis failure, in which the provider accepts one document twice |
| SentTwice.SentTwiceAfterRedisFailure | src/infrastructure/queue/tasks/send_document_task.py:96-121 | the same with no replay, crash, exception out of a task or dispatched retry: Redis fails while the acceptance is recorded, and a forced retry sends again |
| SentTwice.SentTwiceAfterCrash | src/infrastructure/queue/celery_app.py:23-24 | the same by a crash of the worker that holds the acceptance |
| SentTwice.SentTwiceByDispatch | src/infrastructure/queue/tasks/send_document_task.py:83-104 | the same, with one or more retries allowed, by a retry dispatched twice: three calls, which is over max_attempts + 1 if one is allowed |
| Acceptance.AcceptedIff | src/infrastructure/queue/tasks/send_document_task.py:83-133 | over every run, the provider has accepted a document if and only if its row has a provider id, a worker holds the acceptance, or the run forgot one, by a crash or by a commit of an older copy |
| Acceptance.CallRepeatsIff | src/infrastructure/queue/tasks/send_document_task.py:77-95 | with one worker at a time per delivery, a worker about to call repeats an accepted send if and only if its row has a provider id or a worker crashed with the acceptance |
| Acceptance.NeverSentTwiceIff | README.md:180-181 | over every such run, no accepted document is sent again if and only if no call is made with that mark |
| CallBound.CallsBounded | src/infrastructure/queue/tasks/send_document_task.py:83-133 | over every run, provider answers for a delivery <= scheduled retries + 1 + extra messages (forced retries, replays, dispatches beside a live message, redelivered ended runs) + answers lost to crashes |
| CallBound.SerialCallsBounded | src/infrastructure/queue/tasks/send_document_task.py:99-111 | with one worker at a time per delivery, the same with max_attempts for the scheduled retries |
| CallBound.CallsBoundedIfLeftAlone | src/infrastructure/queue/tasks/send_document_task.py:99-111 | with no forced retry, replay, crash or dispatch beside a live message: at most max_attempts + 1 answers, Redis failing or not |
| Admission.AllowedAloneIff | src/infrastructure/queue/tasks/send_document_task.py:46-133 | run alone, the interleaved steps to an end are allowed if and only if the modelled task ends there, and they tell the breaker exactly what it reports |
| Inn.ChecksumIff | src/domain/value_objects/inn.py:21-31 | which 10- and 12-digit numbers pass, with every weight written out |
| Inn.RowsNest | src/domain/value_objects/inn.py:8-11 | each row of weights is a new first weight and the row before it |
| Inn.ChangeMissedIff | src/domain/value_objects/inn.py:21-23 | weights in 1..10, any length: a changed digit is missed if and only if the residues are 0 and 10 |
| Inn.SwapMissedIff | src/domain/value_objects/inn.py:21-23 | the same for unequal neighbours that change places, adjacent weights being distinct |
| Inn.TenDigitChange | src/domain/value_objects/inn.py:25-28 | a wrong digit in a valid 10-digit number passes if and only if it is in the payload and collapses; never with a non-zero check digit |
| Inn.TenDigitSwap | src/domain/value_objects/inn.py:25-28 | the same for payload swaps |
| Inn.TwelveDigitChangeCaught | src/domain/value_objects/inn.py:25-31 | every single wrong digit of a valid 12-digit number is caught |
| Inn.TwelveDigitSwapMissedIff | src/domain/value_objects/inn.py:25-31 | a payload swap passes if and only if both check rows collapse |
| Inn.TwelveDigitSwapCaught | src/domain/value_objects/inn.py:25-31 | swaps at positions 0 to 7 are all caught |
| Inn.UndetectedSwap | src/domain/value_objects/inn.py:10-11 | at positions 8, 9 one is not |
| Inn.UndetectedChange | src/domain/value_objects/inn.py:8 | a 10-digit collapse exists |
| Inn.MakeIff | src/domain/value_objects/inn.py:13-19 | the length error, the checksum error and the stored text, each if and only if |
| Inn.StripExactly | src/domain/value_objects/inn.py:14 | stripping removes exactly the whitespace before the first and after the last other character |
| Inn.SpaceIff | src/domain/value_objects/inn.py:14 | which ASCII characters count as whitespace |
| Inn.KnownLegalNumber | tests/unit/test_value_objects.py:14-31 | 770708389 is completed by 3 and by no other digit |
| Inn.KnownPersonalNumber | tests/unit/test_value_objects.py:19-22 | 500100732259 is accepted |
| Inn.MakeRoundTrip | src/domain/value_objects/inn.py:13-19 | the stored text is accepted again, unchanged |
| Inn.TwelveDigitTypoRejected | src/domain/value_objects/inn.py:13-31 | mistyping one digit of an accepted 12-digit text raises the checksum error |

## Left out

- Tasks `sync_statuses`, `poll_incoming`, `process_webhook`, `provider_health`: they call interfaces this tree does not have.
- Provider clients, Celery, Redis and SQLAlchemy themselves, including a failing database commit; metrics, logging, tracing, authentication, paging endpoints.
- `list_pending_retries` has no caller in the tree: dispatch of a due retry is a step of the environment. `list_non_final` serves only left-out tasks.
- `mark_delivered`, `mark_signed`, `mark_rejected`, `is_retryable`, KPP, account activation: nothing modelled here calls them, or they only add easy members.
- A broker failure inside an endpoint, which rolls the request back after earlier messages went out; the sweep's broker failures are modelled.
- Record fields no modelled step reads or writes: the idempotency key, the provider's raw status, delivery, signing, rejection and creation times.
- Backoff.Delay: real arithmetic; for retry counts of 1024 and more the float product of the code raises OverflowError, which `System` covers as an `Abort` step.
- Outage.WorkersLoadBound: does not count transient answers that Redis never heard of; they cannot trip the breaker.
- Dlq.Due: returns the entries in table order; the query promises no order.
- Inn.MakeRoundTrip: `strip` and `\d` are modelled for ASCII text; other Unicode digits and spaces are not.
