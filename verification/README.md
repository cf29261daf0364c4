# The exception-investigation lifecycle, modelled and proved

An orchestrator admits exceptions as *investigations*: PostgreSQL rows, each
committed together with one outbox event.  A publisher moves events to a
JetStream work queue.  Workers receive deliveries at least once, claim the row
under a lease, run the investigation in checkpointed steps (analysis, codes
write-back, comment write-back, completion), record failures within a retry
budget, and ack, term or nak the message.  A reconciler settles investigations
whose deliveries are exhausted.  Around this sit a Redis cache of the control
context rebuilt under a lease, a keyset-paged selection of the backlog, an AIMD
admission controller, and a bounded calculator tool.

This project models those parts and proves what they promise of **every** run:
all interleavings of workers, crashes, redeliveries, lease expiries, publishers,
reconcilers, retention and admissions.

## Layout

Three layers, from one row to the whole platform.

| file | module | what it holds |
|---|---|---|
| `Rows.dfy` | `Rows` | the investigation row, its conditional updates, and the repository class |
| `Checkpoints.dfy` | `Checkpoints` | how a run reads the durable checkpoints |
| `Reconciliation.dfy` | `Reconciliation` | one reconciliation pass over the table |
| `Protocol.dfy` | `Protocol` | one investigation as a step relation: shared state, effects, handlers, histories |
| `Delivery.dfy` | `Delivery` | what every history keeps, whoever is live |
| `CheckpointOrder.dfy` | `CheckpointOrder` | what every history with a single live run keeps |
| `TwoRuns.dfy` | `TwoRuns` | histories showing why that hypothesis is needed, and needed as it is stated |
| `Leases.dfy` | `Leases` | live leases, and why a run that beats often enough is never taken over |
| `PassesAreSteps.dfy` | `PassesAreSteps` | the passes of reconciler, retention and publisher as protocol steps |
| `RunFate.dfy` | `RunFate` | what an undisturbed run comes to, from the row it loads and what it is answered |
| `InvestigationHandler.dfy` | `InvestigationHandler` | the delivery handler as a program whose statements are protocol steps |
| `Heartbeat.dfy` | `Heartbeat` | the heartbeat loop against its deadline |
| `Admission.dfy` | `Admission` | the platform: all investigations and all admission transactions |
| `AdmissionActions.dfy` | `AdmissionActions` | the two admission actions as programs over the platform |
| `Outbox.dfy` | `Outbox` | the outbox rows and a publishing pass |
| `RequestStatus.dfy` | `RequestStatus` | the progress a client polls |
| `Selection.dfy` | `Selection` | pages, their validation, and the selection loop |
| `MaxDelivery.dfy` | `MaxDelivery` | the queue of advisories and its passes |
| `Cache.dfy` | `Cache` | the cache and its builders as a step relation |
| `ControlContextResolver.dfy` | `ControlContextResolver` | the resolve loop as a program over that relation |
| `Aimd.dfy` | `Aimd` | the AIMD decision and its window counters |
| `Supervisor.dfy` | `Supervisor` | the admission loop, its handlers and its drain |
| `Calculator.dfy` | `Calculator` | the bounded evaluator on integers |
| `Prelude.dfy` | `Prelude` | options, results, time, smallest elements |

A **step relation** says what one commit, broker operation, crash or clock tick
can do; a theorem about it holds of every reachable state.  A **program** is the
source's method with its loops and branches, acting on that state; each of its
statements is proved to be an enabled step, and at each of its awaits any number
of steps of others may come first.  Nondeterminism is explicit: `var x := *` is
whatever the network, the clock or another process chooses.
Where a program has a constant named `calm`, `alone` or `reachable`, its contract
also says exactly what happens when the database and the broker work and nobody
else acts meanwhile; what the outside then answers is given to it (`answers`,
`acknowledges`, `built`), failing answers included.

## Hypotheses

- The database clock never goes back.  A unit of work is atomic at its commit,
  and `now()` is read there.  Each statement sees a fresh snapshot of what is
  committed, plus its own transaction's writes.
- An uncommitted insert reserves the active slot of its exception: another
  transaction's insert there waits.
- Identifiers given by `uuid4` and lease tokens are fresh.  Redis loses no data.
- Message payloads are well formed as admission writes them.  The broker removes
  a message only on ack, term or delete, and may drop a publish whose message
  identifier it has already stored.  An advisory names a message that was stored.
- `max_attempts >= 1` and a positive lease; heartbeat, ack wait, lease and the
  AIMD policy satisfy the inequalities that settings loading checks.
- *Single live run* (`CheckpointOrder.SingleLiveRun`), used only where a row says
  so: a worker's claim of an investigation succeeds only while no earlier run of
  it under the same worker identifier is still executing.  A claim that matches
  nothing, as on a redelivery during the run, is allowed; one that is committed
  but whose answer is lost counts as a success.  The fence names the worker and
  not the attempt, so without this the claims are false; `TwoRuns` gives the
  histories.
- For `Leases.NeverTakenOver` only: no other delivery of the same worker commits
  anything but claims, for the same reason.
- The codes target applies a request only at a matching version, and then moves
  to a later one.

## Findings

- `TwoRuns.WithoutSingleLiveRunCodesApplyTwice`: when an old and a new run share
  a worker identifier, two analyses are persisted and the target changes twice.
- `TwoRuns.LostClaimAnswerAppliesTwice`: the same happens although no worker ever
  has two runs, when a claim is committed and its answer lost: an old run of that
  worker finds itself the owner again.
- `ControlContextResolver.HalfASecondTimesOut`: the check that the wait exceeds
  the lease does not make a waiter outlive a dead builder, because Redis rounds
  the lock's time to live up to whole seconds.  `WaitOnDeadBuilder` and
  `WaitOutlivesLeaseExactly` say exactly when it does: wait >= the rounded lease.

## Model

| member | source | states |
|---|---|---|
| `Rows.UpdateKeepsRowOk` | temp/services/worker/src/worker/db/platform/repositories.py:35-163 | every conditional update that matches keeps: processing iff owned iff leased, terminal iff completed_at set, processing rows have been claimed |
| `Rows.UpdateKeepsTheRest` | temp/services/worker/src/worker/db/platform/repositories.py:35-163 | each column is changed by its own updates only; attempt_count moves exactly with claims, started_at is set once |
| `Rows.TerminalAbsorbs` | temp/services/worker/src/worker/db/platform/repositories.py:35-163 | no update of the application matches a terminal row |
| `Rows.DisplacedWorkerChangesNothing` | temp/services/worker/src/worker/db/platform/repositories.py:146-163 | a worker that does not own the row changes nothing until it claims again |
| `Rows.InvestigationRepository.Update` | temp/services/worker/src/worker/db/platform/repositories.py:64-163 | one conditional statement on the table: rowcount is 1 exactly when the row is there and the condition holds, and no other row changes |
| `Rows.InvestigationRepository.ClaimInvestigation` | temp/services/worker/src/worker/db/platform/repositories.py:35-62 | succeeds exactly on a queued row or an expired lease, and returns the row processing, owned, leased from now, with one attempt more and the first start time kept |
| `Rows.InvestigationRepository.ExtendLease` | temp/services/worker/src/worker/db/platform/repositories.py:64-78 | the owner of a processing row, and nobody else, moves its lease and heartbeat to now |
| `Rows.InvestigationRepository.ApplyFailureTransition` | temp/services/worker/src/worker/db/platform/repositories.py:80-93 | matches exactly the owner at the attempt that was read, and releases the row with the status, the time and the error code of the mutation |
| `Rows.InvestigationRepository.PersistAnalysis` | temp/services/worker/src/worker/db/platform/repositories.py:95-113 | the owner stores the checkpoint with its time, and changes nothing else |
| `Rows.InvestigationRepository.RecordWriteBackStep` | temp/services/worker/src/worker/db/platform/repositories.py:115-132 | the owner records the outcome of one step, and its time only if it was written |
| `Rows.InvestigationRepository.CompleteInvestigation` | temp/services/worker/src/worker/db/platform/repositories.py:134-144 | the owner completes the row and releases it |
| `Rows.InvestigationRepository.ApplyMutation` | temp/services/worker/src/worker/db/platform/reconciliation.py:76-106 | matches exactly while status, owner and lease are as observed, missing ones included |
| `Checkpoints.WriteBackCompleteMeansBothDone` | temp/services/worker/src/worker/application/investigation_checkpoints.py:51-91 | the early exit is taken iff both recorded outcomes count as done, although the codes are read only after the comment |
| `Reconciliation.OnlyLiveLeasesAreDeferred` | temp/services/worker/src/worker/application/reconcile.py:102-124 | all four outcomes in terms of the row: missing iff there is none, already terminal iff completed or failed, deferred iff processing with a lease not yet over, failed iff queued or processing with one that is |
| `Reconciliation.QueuedMutationSurvivesARetry` | temp/services/worker/src/worker/db/platform/reconciliation.py:76-106 | of the statement alone: a mutation decided from a queued row fails against the claimed row and matches again once that claim is released (a pass, holding the row lock from its reading on, never gets there) |
| `Reconciliation.OrderedIds` | temp/services/worker/src/worker/application/reconcile.py:60-84 | the investigations of a pass are locked in strictly increasing order, each once |
| `Reconciliation.ReconcilePass.ApplyDecisions` | temp/services/worker/src/worker/application/reconcile.py:87-99 | each investigation gets the outcome its locked row calls for, missing ones included; exactly the queued and the expired ones change, to failed at the time of the read with their checkpoints kept; a cleanup outcome leaves it terminal or gone |
| `Reconciliation.ReconcilePass.DeleteExpired` | temp/services/worker/src/worker/db/platform/reconciliation.py:120-129 | of investigations, retention removes exactly the terminal ones completed before the cutoff: never an active row or a live lease, and nothing else changes |
| `Reconciliation.ReconcilePass.Execute` | temp/services/worker/src/worker/application/reconcile.py:60-84 | all or nothing; every requested investigation is answered by its row, live leases are untouched, what was settled stays settled, every other row left is as it was, and exactly what completed before the cutoff goes; it returns whenever the database works |
| `Delivery.StepKeepsWorldOk` | temp/services/worker/src/worker/application/investigate_exception.py:114-384 | every step of every actor keeps the invariant of the row, the trigger, the observations and the handlers' verdicts |
| `Delivery.AlwaysOk` | temp/services/worker/src/worker/db/platform/repositories.py:35-163 | that invariant holds after every possible history of one investigation |
| `Delivery.NoLostTrigger` | temp/services/worker/src/worker/adapters/nats/handler.py:127-203 | in every reachable state a queued or processing investigation has its unpublished event or a message in the stream |
| `Delivery.MessagesGoOnlyWhenSettled` | temp/services/worker/src/worker/adapters/nats/handler.py:127-203 | whatever removes a message (ack, term, the reconciler's delete) finds the row terminal or gone, and that condition is final |
| `Delivery.SettledRowOnlyDeleted` | temp/services/worker/src/worker/db/platform/repositories.py:146-163 | a terminal row changes only by deletion, whatever effect comes next |
| `Delivery.RetryBudget` | temp/services/worker/src/worker/application/record_investigation_failure.py:51-86 | attempt_count is the number of claims in the history that took the row, and at most max_attempts - 1 of its happenings are recorded retries, however takeovers and releases interleave |
| `Delivery.ReconcilerFence` | temp/services/worker/src/worker/db/platform/reconciliation.py:76-106 | a mutation decided from a processing row succeeds at any later state iff the row is still processing and neither claim nor heartbeat intervened; the lease it fails has expired |
| `Delivery.QueuedFence` | temp/services/worker/src/worker/db/platform/reconciliation.py:76-106 | a mutation decided from a queued row succeeds at any later state iff the row is queued then |
| `Delivery.LiveLeaseNeverFailed` | temp/services/worker/src/worker/application/reconcile.py:102-124 | no observation, however old and of whatever status, lets the reconciler change a row with a live lease |
| `Delivery.EventLifecycle` | temp/services/orchestrator/src/orchestrator/application/publish_outbox.py:32-65 | an event goes from unpublished to published only once the broker has stored it, then to deleted, and never otherwise |
| `PassesAreSteps.PassObservesAndConcludes` | temp/services/worker/src/worker/application/reconcile.py:60-99 | a reconciliation pass is, for each investigation, a reading and its conclusion with nothing in between, and allows the cleanup exactly when its outcome says so |
| `PassesAreSteps.RetentionDeletesRow` | temp/services/worker/src/worker/db/platform/reconciliation.py:120-129 | retention deletes a row exactly when the protocol can |
| `PassesAreSteps.AttemptIsSteps` | temp/services/orchestrator/src/orchestrator/application/publish_outbox.py:32-65 | a committed publishing attempt is the broker storing the message or dropping a duplicate, then the commit if it was acknowledged |
| `PassesAreSteps.RollbackIsSteps` | temp/services/orchestrator/src/orchestrator/application/publish_outbox.py:32-65 | a rolled-back one leaves the row and keeps what the broker stored |
| `CheckpointOrder.AlwaysOrdered` | temp/services/worker/src/worker/application/investigate_exception.py:114-337 | under single live run, the order of the checkpoints and of what each run believes about them holds after every history |
| `CheckpointOrder.CheckpointsWrittenOnceInOrder` | temp/services/worker/src/worker/application/investigate_exception.py:171-337 | under single live run each checkpoint is written at most once, codes after the analysis, comment after the codes are done, and a completed row has all three |
| `CheckpointOrder.CodesAppliedAtMostOnce` | temp/services/worker/src/worker/application/investigate_exception.py:263-300 | under single live run every codes request ever sent carries the one persisted version and codes, and the target changes at most once |
| `TwoRuns.WithoutSingleLiveRunCodesApplyTwice` | temp/services/worker/src/worker/db/platform/repositories.py:146-163 | without single live run there is a history that persists two analyses and changes the target twice |
| `TwoRuns.LostClaimAnswerAppliesTwice` | temp/services/worker/src/worker/adapters/nats/handler.py:127-171 | at most one run per worker at every point is not enough: a claim committed with its answer lost also leads to two analyses and two changes |
| `InvestigationHandler.WorkerProcess.Commit` | temp/services/worker/src/worker/application/investigate_exception.py:366-368 | a checkpoint update is applied or, exactly when its fence does not hold, ownership is reported lost and nothing changes |
| `InvestigationHandler.WorkerProcess.Load` | temp/services/worker/src/worker/application/investigate_exception.py:158-169 | a run goes on only with a row that names its worker, at the completion iff both write-backs are done; it reports ownership lost iff the row names another, and otherwise raises exactly what the loaded checkpoints call for |
| `InvestigationHandler.WorkerProcess.ResolveAnalysis` | temp/services/worker/src/worker/application/investigate_exception.py:171-225 | goes on with the persisted analysis if there is one, else with a new one that is then persisted with its version; an invalid checkpoint never goes on; undisturbed it goes on unless fetching or analysing failed or the checkpoint is invalid, and raises that |
| `InvestigationHandler.WorkerProcess.RecordOutcome` | temp/services/worker/src/worker/application/investigate_exception.py:302-327 | goes on only when the row records the outcome and it counts as done for its step; undisturbed the outcome is recorded in any case, and a rejecting one then raises |
| `InvestigationHandler.WorkerProcess.WriteCodes` | temp/services/worker/src/worker/application/investigate_exception.py:263-300 | goes on only with a codes outcome that counts as done, in the loaded row or recorded now; if the write-back was still to do, a request with the checkpoint's version and the analysis's codes has been sent; undisturbed, what it records, sends and raises is exactly what the loaded outcome and the target's answer call for |
| `InvestigationHandler.WorkerProcess.WriteComment` | temp/services/worker/src/worker/application/investigate_exception.py:227-261 | likewise for the comment, and only after the codes |
| `InvestigationHandler.WorkerProcess.Execute` | temp/services/worker/src/worker/application/investigate_exception.py:114-156 | returns normally only with the row completed; undisturbed it does so exactly when every outcome, loaded or answered, lets the run go on and an analysis is there or can be had, with both outcomes and the analysis recorded, raises the first thing in the way otherwise, and leaves exactly the checkpoints and the codes request of what it got through |
| `RunFate.NothingStops` | temp/services/worker/src/worker/application/investigate_exception.py:114-156 | nothing stops a run iff the codes outcome is written, skipped on a version conflict or disabled, the comment outcome written or disabled, and the analysis readable or obtainable unless both are recorded; only the outside's own failures can be transient |
| `InvestigationHandler.WorkerProcess.RecordFailure` | temp/services/worker/src/worker/application/record_investigation_failure.py:51-86 | a failure is retried only if it is transient with attempts left, and terminal only otherwise; the row is then queued or failed with its error code; undisturbed, at attempt n, it is Retry(n) iff transient and n < max_attempts, and terminal iff not |
| `InvestigationHandler.WorkerProcess.ReleaseInterrupted` | temp/services/worker/src/worker/application/record_investigation_failure.py:88-119 | an interrupted run gives its row back as queued; undisturbed it does so exactly when it is the owner |
| `InvestigationHandler.WorkerProcess.HandleUnclaimed` | temp/services/worker/src/worker/adapters/nats/handler.py:192-203 | an unclaimable delivery is acked only if the investigation is settled, and exactly then when nothing disturbs it; otherwise it is naked for what the lease still runs, by the worker's clock, or for 30 seconds if the database failed |
| `InvestigationHandler.WorkerProcess.HandleDelivery` | temp/services/worker/src/worker/adapters/nats/handler.py:127-171 | acks or terms only settled investigations; undisturbed, a queued row or an expired lease is run: acked and completed iff the run can succeed, else termed and failed, or naked by the retry table and queued again, by its failure and its attempt; anything else is acked or waits for the other lease; the message goes exactly with an ack or a term |
| `InvestigationHandler.WorkerProcess.RetryDelay` | temp/services/worker/src/worker/adapters/nats/handler.py:284-286 | the n-th attempt has the n-th delay of the table, and the last one from then on |
| `Heartbeat.Beat` | temp/services/worker/src/worker/adapters/nats/handler.py:228-251 | gives up at the first tick that finds the row not owned, or that fails when a whole lease has passed since the last extension, and at no other |
| `Heartbeat.LeaseOutlastsNextTick` | temp/services/worker/src/worker/config/settings.py:240-256 | with 2 heartbeats < ack wait < lease, ticks of which no two in a row fail keep the lease beyond the next tick, and the loop going |
| `Leases.LeaseFollowsHeartbeat` | temp/services/worker/src/worker/db/platform/repositories.py:35-78 | after every history the lease of a processing row is its last heartbeat plus the lease length |
| `Leases.StrangersMatchNothing` | temp/services/worker/src/worker/db/platform/repositories.py:35-163 | while a lease is live no other worker's update and nobody's claim matches the row |
| `Leases.EnvironmentKeepsHeldRow` | temp/services/worker/src/worker/db/platform/reconciliation.py:76-147 | nor does retention or a conclusion from however old an observation change it |
| `Leases.OthersKeepHeldRow` | temp/services/worker/src/worker/adapters/nats/handler.py:205-226 | while a worker holds the row, no step but its own handler's changes it, other deliveries of the same worker aside |
| `Leases.NeverTakenOver` | temp/services/worker/src/worker/adapters/nats/handler.py:228-251 | in every history, a run whose heartbeats never miss the database twice in a row holds its row under a live lease at whatever happens next, nobody else changes the row, and no heartbeat finds it not owned |
| `Leases.TimedRunHappens` | temp/services/worker/src/worker/adapters/nats/handler.py:228-251 | such runs exist: claimed at 0, first heartbeat at 10, lease 30 |
| `Heartbeat.FailingRunEnds` | temp/services/worker/src/worker/adapters/nats/handler.py:228-251 | a run whose extensions keep failing gives up within lease + heartbeat of its last success |
| `Admission.SystemStepOk` | temp/services/orchestrator/src/orchestrator/db/repositories/investigations.py:31-101 | every step of the platform keeps slots, inserts, rechecks, memberships and events in order |
| `Admission.PlatformAlwaysOk` | temp/services/orchestrator/src/orchestrator/application/request_filtered_investigations.py:61-102 | so they hold in every state of every run |
| `Admission.OneActiveRowPerException` | temp/libs/platform_db/src/platform_db/models/investigation.py:61-66 | at most one committed active row per exception, although no update rechecks the index |
| `Admission.FilteredAdmissionNeverRepeats` | temp/services/orchestrator/src/orchestrator/db/repositories/investigations.py:84-101 | when a filtered transaction commits an investigation it created, its exception has no completed one, whatever ran between its reads |
| `Admission.MembershipIsUnique` | temp/services/orchestrator/src/orchestrator/db/repositories/requests.py:38-52 | a request's members, by position, are distinct investigations |
| `Admission.RequestStays` | temp/services/orchestrator/src/orchestrator/db/repositories/requests.py:38-52 | a filed request keeps its members, and each of them is an admitted investigation |
| `Admission.OneEventPerInvestigation` | temp/services/orchestrator/src/orchestrator/application/request_investigations.py:94-127 | each committed investigation has had exactly one event, of its own commit and with the event id of its row, which no other row has; attached and excluded admissions write none |
| `Admission.NoInvestigationLosesItsTrigger` | temp/services/orchestrator/src/orchestrator/db/repositories/outbox.py:20-46 | in every state of every run of the platform each active investigation has its event or a message |
| `AdmissionActions.ValidateAndDeduplicate` | temp/services/orchestrator/src/orchestrator/application/request_investigations.py:83-91 | accepts exactly nonempty batches within the limit and without blanks, and returns each stripped identifier once |
| `AdmissionActions.StripMeans` | temp/services/orchestrator/src/orchestrator/application/request_investigations.py:88 | an identifier loses the space at both its ends, all of it and nothing else |
| `AdmissionActions.SpacesAre` | temp/services/orchestrator/src/orchestrator/application/request_investigations.py:88 | the characters stripped are the white space of the language, one by one |
| `AdmissionActions.ForeignStep` | temp/services/orchestrator/src/orchestrator/db/repositories/investigations.py:84-101 | an open transaction is private: no step of anybody else changes it or files its request |
| `AdmissionActions.AdmissionUnit.InsertOrAttach` | temp/services/orchestrator/src/orchestrator/db/repositories/investigations.py:31-68 | in at most two rounds yields an investigation of the exception: created only while none of it is queued or processing, else one that is queued or processing when found, or the transaction's own; otherwise the transaction is rolled back, and never if nobody interferes |
| `AdmissionActions.AdmissionUnit.RequestOne` | temp/services/orchestrator/src/orchestrator/application/request_investigations.py:94-127 | admits the next exception at the next position or, only if filtered and a completed row exists, skips it; undisturbed it is skipped iff so, created iff none is queued or processing, and attached otherwise; a created one that is then excluded leaves no trace |
| `AdmissionActions.AdmissionUnit.AdmitBatch` | temp/services/orchestrator/src/orchestrator/application/request_filtered_investigations.py:61-102 | commits the batch under its request in order or nothing at all; each created investigation is a queued row with one event and, if filtered, no completed one beside it; undisturbed each exception is skipped, created or attached as the rows stood when the batch began |
| `AdmissionActions.AdmissionUnit.Execute` | temp/services/orchestrator/src/orchestrator/application/request_investigations.py:50-81 | the committed request has one distinct member per identifier, in order and of its exception; undisturbed it succeeds exactly on valid batches, and creates or attaches each as the rows stood |
| `AdmissionActions.CommitDelivers` | temp/services/orchestrator/src/orchestrator/application/request_investigations.py:113-127 | a commit turns each insert into a queued row with exactly one event |
| `Outbox.OutboxPublisher.Add` | temp/services/orchestrator/src/orchestrator/db/repositories/outbox.py:20-46 | an added event is a new row that is due at once |
| `Outbox.OutboxPublisher.ClaimPending` | temp/services/orchestrator/src/orchestrator/db/repositories/outbox.py:48-61 | claims due, unlocked events only, smallest identifiers first, and passes a due one over only when the batch is full |
| `Outbox.OutboxPublisher.Execute` | temp/services/orchestrator/src/orchestrator/application/publish_outbox.py:32-65 | on a pass that returns, each claimed event is published at that time iff the broker acknowledged it, and is otherwise put off by 1, 5, 30 or 60 seconds with one more attempt; the counts are those of the acknowledgements; no event is marked without being stored by the broker, none is lost, and an exception puts every held row back |
| `Outbox.RetryDelay` | temp/services/orchestrator/src/orchestrator/application/publish_outbox.py:68-69 | 1, 5, 30 seconds for 0, 1, 2 earlier attempts and 60 from then on, never below an earlier delay |
| `RequestStatus.Summarize` | temp/services/orchestrator/src/orchestrator/application/query_status.py:187-198 | the loop counts each external status |
| `RequestStatus.TotalIsTheSum` | temp/services/orchestrator/src/orchestrator/application/query_status.py:187-198 | total = in progress + completed + failed |
| `RequestStatus.AggregateMeans` | temp/services/orchestrator/src/orchestrator/application/query_status.py:201-206 | a request is in progress iff some member is queued or processing, and completed iff every member still there is completed |
| `RequestStatus.PolledProgressIsMonotone` | temp/services/orchestrator/src/orchestrator/application/query_status.py:187-206 | of what a client polls of a filed request, between any two states of a run without retention deletes of its members: the total stays, in-progress never rises and a terminal aggregate never changes |
| `Selection.QueryAnswersPage` | temp/libs/ctc_database/src/ctc_database/candidates.py:41-63 | the one query with all its predicates answers with the candidates that follow the cursor, up to its limit |
| `Selection.CandidatesAscend` | temp/libs/ctc_database/src/ctc_database/candidates.py:41-63 | rows in key order give strictly ascending candidates, each the key of a row |
| `Selection.CandidatesAre` | temp/libs/ctc_database/src/ctc_database/candidates.py:41-52 | a row gives a candidate iff it is unresolved, not closed, identified, of that name, linked, and not raised before the given time |
| `Selection.KeysetOrder` | temp/libs/ctc_database/src/ctc_database/candidates.py:53-63 | keys are ordered by time, then identifier, then primary key, the latter two at the first place they differ or where the first ends |
| `Selection.PageContinues` | temp/libs/ctc_database/src/ctc_database/candidates.py:53-63 | reading after the n-th candidate yields the next ones, without skip or repeat |
| `Selection.ValidatePage` | temp/services/orchestrator/src/orchestrator/application/request_filtered_investigations.py:146-156 | accepts a page iff it is within its bound and strictly ascends from the cursor |
| `Selection.CursorAdvances` | temp/services/orchestrator/src/orchestrator/application/request_filtered_investigations.py:146-156 | a validated page strictly shrinks what is left to read |
| `Selection.ChosenIsClean` | temp/services/orchestrator/src/orchestrator/application/request_filtered_investigations.py:117-144 | the simple form is bounded, free of duplicates and of completed exceptions |
| `Selection.FirstOccurrencesInOrder` | temp/services/orchestrator/src/orchestrator/application/request_investigations.py:91 | deduplication keeps the order of first occurrence |
| `Selection.ChooseFromPage` | temp/services/orchestrator/src/orchestrator/application/request_filtered_investigations.py:130-140 | what a page adds is not in the history read for it, and follows the simple form as long as the history is the same |
| `Selection.Select` | temp/services/orchestrator/src/orchestrator/application/request_filtered_investigations.py:117-144 | for every page size equals filter, deduplicate, take on a stable source and a fixed history; on any source over a finite universe, with a history read afresh and growing per page, it terminates with distinct exceptions none of which was completed at the start |
| `MaxDelivery.MaxDeliveryCoordinator.Capture` | temp/services/worker/src/worker/adapters/nats/max_delivery_advisories.py:137-145 | a positive sequence is appended to the queue; anything else leaves the queue as it is |
| `MaxDelivery.MaxDeliveryCoordinator.Receive` | temp/services/worker/src/worker/adapters/nats/max_delivery_advisories.py:95-128 | every message captured before has its notice, is gone, or was malformed and deleted; after an exception every captured message still there is queued or pending |
| `MaxDelivery.MaxDeliveryCoordinator.DeleteMessage` | temp/services/worker/src/worker/adapters/nats/max_delivery_advisories.py:130-135 | a failed deletion leaves the sequence pending, and a successful one forgets it |
| `MaxDelivery.MaxDeliveryCoordinator.RunOnce` | temp/services/worker/src/worker/adapters/nats/max_delivery_advisories.py:42-63 | conservation and deletion-after-commit at every point; of what was captured before, a pass that returns leaves only messages whose deletion failed and those of rows it read as processing under a live lease; undisturbed it returns, and deletes exactly the rest |
| `Cache.StepKeepsFleetOk` | temp/services/worker/src/worker/adapters/redis/control_context_cache.py:15-28 | whatever a builder, an expiry or a crash does, no key is published twice and each lease is used by its own builder only |
| `Cache.EachKeyPublishedAtMostOnce` | temp/services/worker/src/worker/adapters/redis/control_context_cache.py:56-81 | each key is published at most once, and a read finds exactly what was published |
| `Cache.ResolversAgree` | temp/services/worker/src/worker/application/resolve_control_context.py:92-148 | all successful resolves of a key return one context, of the key's generation |
| `Cache.OnlyTheLeaseOwnerActs` | temp/services/worker/src/worker/adapters/redis/control_context_cache.py:15-28 | a publication or a removed lock is the act of the builder that holds that lock, unexpired |
| `ControlContextResolver.ResolveControlContext.BuildAndPut` | temp/services/worker/src/worker/application/resolve_control_context.py:109-125 | what is built is published iff the lease is still held at the put, as far as Redis answers; a failed build publishes nothing |
| `ControlContextResolver.ResolveControlContext.Rebuild` | temp/services/worker/src/worker/application/resolve_control_context.py:105-125 | under the lease: what is published already is returned, what is missing is built and published; undisturbed that is what it returns, or the build's error; whenever Redis answers, whatever the outcome, the lease is not held by the builder's token afterwards |
| `ControlContextResolver.ResolveControlContext.Acquire` | temp/services/worker/src/worker/adapters/redis/control_context_cache.py:83-103 | gets the lease exactly when nobody holds it, for the policy's seconds rounded up |
| `ControlContextResolver.ResolveControlContext.Resolve` | temp/services/worker/src/worker/application/resolve_control_context.py:92-132 | returns only the published context; one published before is found whenever Redis answers; the loop ends; beside an idle holder it times out iff that lock is still there a whole wait later, and otherwise, within a poll interval of that lock's end, returns what it builds and publishes, or the build's error |
| `ControlContextResolver.WaitOnDeadBuilder` | temp/services/worker/src/worker/application/resolve_control_context.py:92-132 | beside a builder that took the lock and died, resolve times out iff the wait is below the lock's time to live |
| `ControlContextResolver.HalfASecondTimesOut` | temp/services/worker/src/worker/application/resolve_control_context.py:40-54 | lease 0.2, wait 0.5, poll 0.1 passes the policy check and times out |
| `ControlContextResolver.WaitOutlivesLeaseExactly` | temp/services/worker/src/worker/adapters/redis/control_context_cache.py:83-103 | a valid policy's waiters outlive every dead builder's lock iff wait >= the rounded lease, that is iff a whole number of seconds lies from lease to wait, ends included |
| `Aimd.TargetStaysInEnvelope` | temp/services/worker/src/worker/domain/admission.py:98-121 | any sequence of windows keeps the target between its floor and its cap |
| `Aimd.WindowsDecide` | temp/services/worker/src/worker/domain/admission.py:98-121 | by attempts and failures alone: which windows leave the target, raise, scale or floor it, and that a cooldown is entered iff a large enough window's failures exceed the breaking share |
| `Aimd.DegradedWindowsDecay` | temp/services/worker/src/worker/domain/admission.py:98-121 | after k degraded windows the target is at most its start scaled k times, or at its floor, despite truncation |
| `Aimd.DecayedIsPower` | temp/services/worker/src/worker/domain/admission.py:98-121 | scaled k times is factor^k times the start |
| `Aimd.HealthyWindowsAdd` | temp/services/worker/src/worker/domain/admission.py:98-121 | healthy windows add exactly their steps, up to the cap |
| `Aimd.CapReachedInCeilGapOverStep` | temp/services/worker/src/worker/domain/admission.py:98-121 | the cap is reached after ceil(gap / step) healthy windows and not one earlier |
| `Aimd.FailuresAreAttempts` | temp/services/worker/src/worker/domain/admission.py:35-61 | a window's failure rate lies between 0 and 1 |
| `Aimd.WindowCounters.Record` | temp/services/worker/src/worker/domain/admission.py:35-61 | the counters are those of the attempts recorded since the last snapshot |
| `Aimd.WindowCounters.SnapshotAndReset` | temp/services/worker/src/worker/domain/admission.py:35-61 | each attempt is in exactly one window |
| `Supervisor.AdmissionState.Completed` | temp/services/worker/src/worker/domain/admission.py:64-95 | fails exactly when nothing is in flight |
| `Supervisor.AdmissionSupervisor.Finish` | temp/services/worker/src/worker/bootstrap/supervisor.py:84-89 | a finishing handler always finds itself counted |
| `Supervisor.AdmissionSupervisor.Run` | temp/services/worker/src/worker/bootstrap/supervisor.py:69-82 | the in-flight count is the number of live handlers and within max_per_instance whatever completes or retargets meanwhile; each fetched message gets one handler; undisturbed, one is started at each turn until the target or the instance's bound is reached |
| `Supervisor.AdmissionSupervisor.Drain` | temp/services/worker/src/worker/bootstrap/supervisor.py:117-140 | no handler is left running; each one interrupted has its own message released and naked once, unless a release raises; undisturbed, those are all that were running |
| `Supervisor.AdmissionSupervisor.RunAimd` | temp/services/worker/src/worker/bootstrap/supervisor.py:209-233 | the target is that of all windows so far, within the envelope |
| `Calculator.BitLengthMeans` | temp/services/worker/src/worker/genai/exception_analysis/tools/calculator.py:105-110 | a bit length of at most k means a magnitude below 2^k, and conversely |
| `Calculator.PowerGuardIsSound` | temp/services/worker/src/worker/genai/exception_analysis/tools/calculator.py:96-102 | the guard on base bits times exponent bounds the power before it is computed |
| `Calculator.LiteralsFit` | temp/services/worker/src/worker/genai/exception_analysis/tools/calculator.py:39-40 | a literal of at most 500 characters in any admitted base fits the bit limit |
| `Calculator.EveryResultFits` | temp/services/worker/src/worker/genai/exception_analysis/tools/calculator.py:73-110 | every value returned on the integer fragment has at most 4096 bits |
| `Calculator.RawResultsFit` | temp/services/worker/src/worker/genai/exception_analysis/tools/calculator.py:73-93 | no operator's result exceeds 8192 bits before its bound is checked |
| `Calculator.RawCallsFit` | temp/services/worker/src/worker/genai/exception_analysis/tools/calculator.py:84-92 | nor does any function call on evaluated arguments exceed the limit of its arguments |
| `Calculator.ApplyDenotes` | temp/services/worker/src/worker/genai/exception_analysis/tools/calculator.py:28-37 | each function of integers is computed as it is meant, and exactly where it means something: least, greatest, magnitude, remainder of a power |
| `Calculator.ResultsAreExact` | temp/services/worker/src/worker/genai/exception_analysis/tools/calculator.py:73-110 | a returned value is the expression's mathematical value, with abs, min, max and modular power given by what they mean and not by how they are computed |
| `Calculator.ReturnsExactly` | temp/services/worker/src/worker/genai/exception_analysis/tools/calculator.py:73-110 | an expression is answered with an integer iff it has one and it and all its parts stay within the limits: nothing else is refused |
| `Calculator.FloorModIsBounded` | temp/services/worker/src/worker/genai/exception_analysis/tools/calculator.py:73-93 | a remainder differs from its dividend by a multiple of the divisor, is smaller than it in magnitude, and is zero or has its sign |

## Left out

- Telemetry, logging, metrics and spans: no effect on the protocol.
- HTTP routes, schemas, authentication, settings loading, migrations and wiring.
- Prompts, model calls, S3 storage, SQL repair and the building of a control context: oracles that return anything or raise.
- SQLAlchemy, PostgreSQL, NATS and Redis internals: each is the atomic steps it provides, as listed under Hypotheses.
- Liveness of the broker and delivery of advisories: nothing in the code guarantees them, so safety, bounds and what undisturbed calls do are claimed.
- Text collation: `Selection` orders text by code point; any strict total order would do.
- Rounding of floating-point thresholds, factors and times: reals take their place.
- The jitter added to a retry delay and the cooldown's time to live.
- A request's stored exception identifiers, which equal its members' exceptions.
- Reconciliation.ReconcilePass.DeleteExpired: of retention, the deletes of published outbox rows and of requests with their memberships are left out here; the former is the protocol's ExpireEvent.
- Truncation of comments and error texts, and rendering of reports.
- A fetch that raises out of the admission loop, which then ends without draining.
- Calculator.Evaluate: what leaves the integer fragment (floats, division, square roots, rounding with digits, negative exponents) is not followed; parsing is not modelled.
- Heartbeat.Beat: ticks take no time of their own, so a slow database call is not modelled.
- Supervisor.AdmissionSupervisor.Run: made for a given number of turns instead of until a stop event, so that it terminates.
- InvestigationHandler.WorkerProcess.Execute: an undisturbed run takes no time on the database clock, and a write-back call that fails does so by being unavailable; any other exception belongs to the disturbed runs.
- InvestigationHandler.WorkerProcess.WriteCodes: the answer of the target is arbitrary; that the version sent is the persisted one is CheckpointOrder.CodesAppliedAtMostOnce.
- Outbox.OutboxPublisher.Add: the event's aggregate, subject and payload are left out; that the event carries the identifier of its investigation's row is Admission.OneEventPerInvestigation.
- Admission.RequestStays: the later deletion of old requests, with their memberships, is left out.
- Delivery.ReconcilerFence: the protocol lets a reading and its conclusion come apart, which the row lock of a pass forbids; so it covers more than a pass can do, and PassesAreSteps.PassObservesAndConcludes is the pass itself.
- InvestigationHandler.WorkerProcess.HandleDelivery: cancellation in the middle of a delivery is a step of the protocol and the method ReleaseInterrupted, not a branch of this program.
- Outbox.OutboxPublisher.Execute: the subject and payload of an event are not modelled, and any exception but a publish error is one error.
- MaxDelivery.MaxDeliveryCoordinator.RunOnce: subscription set-up and the wait between passes are not modelled.
