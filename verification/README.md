# A verified model of the batch-dispatch worker

The service takes tasks from a queue, picks a resource that has room for each, reserves room in a
ledger row, asks a provider to create a batch, and deletes the message. Every call it makes on the
way may fail. This project models that worker in Dafny and proves what it conserves, what it never
loses, and where it does not keep its promise.

- `Int64.dfy`, `Domain.dfy`: 64-bit arithmetic with wrap-around; tasks, ledger rows, results.
- `Backend.dfy`: the two tables, the queue and the provider behind the repository. An `Oracle` fixes
  everything the code does not decide: how the n-th external call ends, in which order a map is
  ranged over, what a receive returns, what the codec does. Statements quantify over all oracles. A
  failed write may have had no effect (`Refused`) or have taken effect (`Unacked`).
- `Tasks.dfy`, `Resources.dfy`, `AppContext.dfy`: the services as classes, each method proved
  against a function of the world it started in.
- `Fleet.dfy`: any number of processes, each running the worker loop or submitting tasks one call at
  a time, interleaved by an arbitrary list of actions. `Refinement.dfy`: the code run alone is such a
  run.
- `Delivery.dfy`, `Guards.dfy`: what holds in every interleaving.
- `Ledger.dfy`, `LoadBound.dfy`: what serial dispatches conserve, and when the stored token load stays
  within its bound. `Serial.dfy`: legal histories are exactly those of tasks processed one by one.
- `Conflicts.dfy`: in an arbitrary interleaving, exactly which row writes keep the ledger, the
  concurrency limit and the bound on the token load.
  `Exclusion.dfy`: interleavings whose sections on one key do not overlap are serializable.
  `Overlap.dfy`: the two ways in which overlapping ones go wrong.
- `Selection.dfy`, `Pool.dfy`, `Startup.dfy`, `LoopLaws.dfy`: selection and token estimate, the pool
  as one counter, initialisation, the record loop.
- `Shipped.dfy`: the results for the shipped process, one event loop beside request handlers.
- `Locality.dfy`, `Calm.dfy`: a call depends on its own outcomes only; a backend on which nothing fails.

`dafny verify dfyconfig.toml` checks everything.

What is assumed of the outside: a call that reports success took effect; a table row is stored under
its own `ResourceInstanceId`; a deleted message is not delivered again; a map range visits each key
once. Go's `int` is 64 bits wide. Identifiers that are generated are not empty. The wiring of the
resource service, commented out in `pkg/api/adapters/appcontext/appcontext.go:166-207`, is modelled as
if it were in force.

## Where the code falls short

- A store without rows stays without rows. `AddResource` creates a row only when the read fails, but
  the repository answers "not found" without an error. After initialisation a row exists if and only if
  it did before or its read failed (`Startup.RowAppearsExactlyOnFailedRead`); from an empty table no task
  is ever dispatched (`Startup.EmptyTableNeverDispatches`). Conversely, a failed read of an existing row
  erases its ledger (`Startup.FailedReadErasesLedger`).
- The token check lets through a task whose estimate and token limit overflow when added, and turns
  away one for which they underflow, under exact conditions (`Selection.GuardMissesExactlyOnOverflow`,
  `Selection.GuardRejectsExactlyOnUnderflow`). So a task can become admissible by growing
  (`Selection.OverflowIsAdmitted`, exactly when: `Selection.GrowingAdmitsExactlyOnOverflow`).
- Large negative costs wrap the stored load past token limit times active count: three tasks with
  `max_tokens` of -2^62 and one tick suffice (`LoadBound.NegativeCostsWrap`). The bound holds along a
  history if and only if every reservation that stays fits when it is made
  (`LoadBound.LoadHoldsExactlyWhenReservesFit`), and in an arbitrary interleaving if and only if every
  effective reserve fits on the row as re-read (`Conflicts.LoadHoldsExactlyWhenWritesFit`).
- Two workers on one key can lose a reservation (`Overlap.LostReservationIsReachable`) and, even when no
  write is stale, exceed the concurrency limit (`Overlap.ExceededLimitIsReachable`), because a dispatch
  writes what it re-read without checking again. The ledger survives an interleaving if and only if each
  effective row write finds the active count as its writer last saw it, which a put conditional on
  `ActiveBatches` would test (`Conflicts.LedgerHoldsExactlyWhenWritesAreFresh`); the limit survives if and only if
  each effective reserve comes from a re-read that still had room
  (`Conflicts.LimitHoldsExactlyWhenWritesHadRoom`).
- One undecodable body makes the whole receive fail and stops the event loop
  (`LoopLaws.OneBadBodyStopsTheLoop`).

## Model

| member | source | states |
|---|---|---|
| Shipped.TableIsSerial | cmd/serve/main.go:23-64 | with the event loop and any number of request handlers interleaved, at every step and under any faults, the table is the replay of a legal serial history plus at most the one reservation the loop has open, and no process has died of a missing row |
| Shipped.LimitsHold | cmd/serve/main.go:23-64 | there, rows that started within their limits are within them at every step, and the batches of the run fit the slots free at its start |
| Shipped.NoTaskLost | cmd/serve/main.go:23-64 | there, every message accepted before or meanwhile is queued or batched, none is batched more often than one plus its failed deletes, and one that no resource admits, whenever it was submitted, is still queued and has no batch |
| Shipped.ServeKeepsTheLedger | cmd/serve/main.go:44-64 | after any number of ticks, under any faults, the resource table is exactly the replay of a legal serial sequence of dispatches; the loop has not died of a missing row; from within limits it stays within limits, and batches created fit the slots free at the start |
| Shipped.ServeKeepsTheLoad | cmd/serve/main.go:44-64 | over any ticks and faults, the stored load of a row stays within token limit times active count after every dispatch if and only if every reservation that stayed fitted |
| Shipped.ServeLosesNoTask | cmd/serve/main.go:44-64 | after any number of ticks every message is queued or batched, none is batched more often than one plus its failed deletes, and one that no resource admits is untouched |
| Exclusion.Serializable | pkg/api/business/resources/service.go:166-299 | in every interleaving without overlapping sections on one key, the history is a legal serial run and the table is what that run leaves plus the one open reservation per key |
| Conflicts.LedgerHoldsExactlyWhenWritesAreFresh | pkg/api/business/resources/service.go:263-293 | for any number of interleaved workers, no exclusion assumed: active count = initial + batches + leaked + open reservations after every action if and only if it held at the start and every effective row write finds the active count its writer last saw |
| Conflicts.ReserveKeepsLimitExactly | pkg/api/business/resources/service.go:263-281 | an effective reserve write keeps its row within the concurrency limit if and only if the row its dispatch re-read still had room |
| Conflicts.LimitHoldsExactlyWhenWritesHadRoom | pkg/api/business/resources/service.go:263-293 | for any number of interleaved workers: a row stays within its limit after every action if and only if it was at the start and every effective reserve comes from a re-read that had room |
| Conflicts.LoadHoldsExactlyWhenWritesFit | pkg/api/business/resources/service.go:263-293 | for any number of interleaved workers: a row's stored load is within token limit times active count after every action if and only if it was at the start and every effective reserve fits on the row as its dispatch re-read it |
| Exclusion.ExclusiveWritesAreFresh | pkg/api/business/resources/service.go:166-299 | a run without overlapping sections on one key has only writes that meet both conditions |
| Exclusion.LedgerUnderExclusion | pkg/api/business/resources/service.go:182-299 | at every step, active count = initial + batches + leaked reservations + 1 if one is open, and never above the limit |
| Exclusion.CapacityUnderExclusion | pkg/api/business/resources/service.go:187-191 | batches of a whole run are at most the free slots of the registered rows at its start |
| Exclusion.OneWorkerIsExclusive | cmd/serve/main.go:44-64 | with one worker, whatever submitters do, sections never overlap |
| Overlap.OverlapLosesAReservation | pkg/api/business/resources/service.go:263-284 | from any state of any number of processes in which two passed the check on a key, these two running in step, with no call failing, creates two batches and raises the active count by one |
| Overlap.LateReserveExceedsLimit | pkg/api/business/resources/service.go:263-281 | from the same situation with a slot free, one re-read and reserve after the other has only fresh writes and leaves the row two reservations higher, which is past its limit if and only if just one slot was free |
| Overlap.LostReservationIsReachable | pkg/api/business/resources/service.go:263-284 | from rest, on a backend that never fails, enumerates fairly and keeps ids, a row with one slot ends with two batches and an active count of one |
| Overlap.ExceededLimitIsReachable | pkg/api/business/resources/service.go:263-281 | from the same start, a row with a limit of one ends with an active count of two |
| Delivery.NoTaskIsLost | pkg/api/business/tasks/service.go:126-216 | in every interleaving and under every fault, each message ever accepted is still queued or has a batch |
| Delivery.BatchesAreDeletes | pkg/api/business/tasks/service.go:174-189 | in every run the batches of a message equal its delete calls plus those between success and delete |
| Delivery.DuplicatesAreFailedDeletes | pkg/api/business/tasks/service.go:183-189 | with one worker and distinct messages per receive, batches of a message are at most one plus its failed deletes |
| Guards.DereferenceIsSafe | pkg/api/business/resources/service.go:263-270 | in every interleaving rows and limits stay, and the unchecked dereference of a re-read row never meets a missing one |
| Guards.OversizedIsNeverServed | pkg/api/business/resources/service.go:182-185 | in any interleaving, a message whose price exceeds every registered limit is queued and has no batch at the end, be it sent before the run and unbatched then, or submitted in its course |
| Guards.SaturationIsAbsorbing | pkg/api/business/resources/service.go:188-207 | once all registered rows are at their limit and no dispatch is under way, no later step creates a batch, writes a row or deletes a message |
| Guards.StatusBeforeMessage | pkg/api/business/tasks/service.go:96-131 | in every run each message decodes to a non-empty task id that has a status row |
| Refinement.ServeIsARun | cmd/serve/main.go:44-64 | whatever the event loop does from a world is a run of a fleet with one process |
| Refinement.TickIsSolo | pkg/api/adapters/appcontext/appcontext.go:239-253 | a tick is what one process does from idle when nobody else is scheduled, to the same world and outcome |
| Refinement.SubmissionIsARun | pkg/api/business/tasks/service.go:91-132 | submitting a task is a fleet run with the same effect |
| Ledger.ActiveConserved | pkg/api/business/resources/service.go:263-299 | over a legal serial run the active count is initial + batches + leaked reservations, without wrap-around, and limits never change |
| Ledger.LoadConserved | pkg/api/business/resources/service.go:271-289 | the load is the initial one plus the exact costs of those attempts, modulo 2^64 |
| Ledger.VersionConserved | pkg/api/business/resources/service.go:269-293 | the version is the initial one plus the row writes that took effect, modulo 2^64 |
| Ledger.CapacityKept | pkg/api/business/resources/service.go:188-191 | a legal serial run from within the concurrency limits ends within them |
| LoadBound.ExactLoadBounded | pkg/api/business/resources/service.go:182-185 | the exact load never exceeds the token limit times the active count, negative costs included |
| LoadBound.ExactInRangeIsWithin | pkg/api/business/resources/service.go:271 | as long as the exact load is not below the 64-bit range, the stored load is at most token limit times active count |
| LoadBound.ReserveKeepsLoadExactly | pkg/api/business/resources/service.go:182-185 | an admitted reservation on a row within that bound keeps it there if and only if the sum does not underflow or comes out within the bound all the same |
| LoadBound.LoadHoldsExactlyWhenReservesFit | pkg/api/business/resources/service.go:271-289 | along a legal history the stored load is within the bound after every dispatch if and only if it was at the start and every reservation that stays met that condition |
| LoadBound.StoredLoadIsExact | pkg/api/business/resources/service.go:271 | where the most a row can hold fits in 64 bits, the stored load equals the exact one if and only if the exact one has not gone below the 64-bit range |
| LoadBound.NegativeCostsWrap | pkg/api/business/resources/service.go:271 | one tick of the event loop over three tasks with a token limit of -2^62 leaves a fresh row with three batches and a stored load of 2^62, where 3000 is the bound |
| Ledger.ActiveNeverDrops | pkg/api/business/resources/service.go:269-294 | between dispatches the active count of a row never decreases |
| Ledger.BatchesFitFreeSlots | pkg/api/business/resources/service.go:188-191 | the batches of a legal serial run are at most the free slots at its start |
| Ledger.SlotsConserved | pkg/api/business/resources/service.go:269-293 | kept reservations plus free slots is constant along a legal serial run |
| Ledger.DispatchIsApply | pkg/api/business/resources/service.go:263-306 | a dispatch that runs alone changes nothing, or logs one entry and changes one row as that entry says |
| Serial.SerialIsLegal | pkg/api/business/resources/service.go:332-385 | processing any tasks one after the other, under any faults, writes a legal history and leaves its replay |
| Serial.LegalIsSerial | pkg/api/business/resources/service.go:332-385 | conversely, every legal history over registered keys is written by processing some tasks one after the other against some backend |
| Serial.ExclusiveIsSerial | pkg/api/business/resources/service.go:166-299 | an interleaving without overlapping sections writes the history of some serial processing of the code, and leaves its row wherever no reservation is open |
| Ledger.FailedDispatchRestores | pkg/api/business/resources/service.go:285-298 | after a refused batch and a rollback that took effect every row is what it was, save the version of one, which is two higher |
| Ledger.RollbackCancels | pkg/api/business/resources/service.go:269-292 | rollback undoes reserve exactly for all inputs, wrap-around included |
| Pool.PoolIsOneCounter | pkg/api/business/resources/service.go:166-202 | without faults, task i is admitted if and only if it fits the token limit and fewer than slots times keys were admitted before it, whatever the map orders |
| Pool.FreshPoolIsOneCounter | pkg/api/business/resources/service.go:90-100 | K freshly initialised resources admit the first 8·K tasks of cost at most 1000 and no other |
| Selection.SelectIsFirstFit | pkg/api/business/resources/service.go:166-207 | the selected key is the first readable one that passes both checks; none is selected exactly when none passes |
| Selection.SelectionIgnoresOrder | pkg/api/business/resources/service.go:166-207 | whether a selection succeeds depends on which rows are readable and have room, not on the map order |
| Resources.BytesAreText | pkg/api/business/resources/service.go:144-147 | the byte count is the length of the contents of all messages put together |
| Selection.OneMessage | pkg/api/business/resources/service.go:144-147 | one message counts the bytes of its content, none counts zero |
| Selection.EstimateIgnoresRoles | pkg/api/business/resources/service.go:144-148 | lists whose contents have equal lengths one by one have equal estimates, whatever the roles |
| Selection.EstimateIsAQuarter | pkg/api/business/resources/service.go:144-148 | 4·estimate ≤ bytes < 4·estimate + 4 if and only if the byte count fits in 64 bits |
| Int64.QuarterTruncates | pkg/api/business/resources/service.go:148 | the division by four cuts the fraction off on either side of zero, a wrapped byte count included |
| Selection.EstimateConcat | pkg/api/business/resources/service.go:144-148 | estimating two lists apart loses at most one token |
| Selection.GuardMissesExactlyOnOverflow | pkg/api/business/resources/service.go:182 | for any limit, the token check admits a task whose true total exceeds it if and only if the sum overflows and wraps to at most the limit; for limits of zero or more, if and only if it overflows |
| Selection.GuardRejectsExactlyOnUnderflow | pkg/api/business/resources/service.go:182 | for any limit, it turns away a task whose true total is within it if and only if the sum underflows and wraps past the limit |
| Selection.AppendingLowersCostExactlyOnOverflow | pkg/api/business/resources/service.go:156-182 | appending messages lowers a task's cost if and only if the longer sum overflows and the shorter does not |
| Selection.GrowingAdmitsExactlyOnOverflow | pkg/api/business/resources/service.go:156-185 | appending messages makes a rejected task admissible if and only if the shorter sum is over the limit and in range and the longer one overflows to at most the limit |
| Selection.OverflowIsAdmitted | pkg/api/business/resources/service.go:182 | a task that becomes admissible by growing |
| Selection.PreparingKeepsWeight | pkg/api/business/resources/service.go:156-159 | writing the estimate back does not change a task's cost, so every redelivery costs the same |
| Startup.InitSucceedsExactlyWhen | pkg/api/business/resources/service.go:56-127 | initialisation succeeds if and only if every enabled key has a known provider and every fresh row it has to write is acknowledged |
| Startup.InitSucceedsWithoutFaults | pkg/api/business/resources/service.go:56-127 | when no call fails and the providers are known it succeeds, with every row as it was |
| Startup.InitEndState | pkg/api/business/resources/service.go:56-136 | a successful initialisation registers exactly the enabled keys, resets exactly the rows whose read failed, and leaves all else as it was |
| Startup.RowAppearsExactlyOnFailedRead | pkg/api/business/resources/service.go:85-109 | after a successful initialisation a row exists if and only if it existed before or its enabled key could not be read; a new row is a fresh one |
| Startup.InitIgnoresOrder | pkg/api/business/resources/service.go:121-127 | initialisations that fail to read the same rows end alike in any map order |
| Startup.InitEstablishesLimits | pkg/api/business/resources/service.go:85-109 | if the readable rows were within limits, all rows are afterwards |
| Startup.FailedReadErasesLedger | pkg/api/business/resources/service.go:86-102 | an existing row survives initialisation if and only if its read succeeded or it was fresh anyway |
| Startup.EmptyTableNeverDispatches | pkg/api/business/resources/service.go:85-102 | with no rows and no read failing, initialisation creates none, and no run of any fleet dispatches anything |
| LoopLaws.LoopLaw | pkg/api/business/tasks/service.go:144-227 | for an arbitrary callback, which may itself update statuses and delete messages: the loop deletes for exactly the records answered without error and not with a temporary failure, each record has its own status trace, and the records are attempted once each, in order |
| LoopLaws.LoopFaultsStayLocal | pkg/api/business/tasks/service.go:148-225 | how the loop's own calls end, in effect its deletes, changes nothing but the queue: same table, same history, same answers, for any callback that cannot see the queue |
| LoopLaws.ProcessIsBlind | pkg/api/adapters/appcontext/appcontext.go:240-248 | the callback of Tick cannot see the queue |
| LoopLaws.TickFaultsStayLocal | pkg/api/adapters/appcontext/appcontext.go:239-253 | two ticks on backends that answer the receive and the callback alike, and the loop's own calls in any way, have the same table, history and result; only the queue can differ |
| LoopLaws.ProcessDeletesWhatItBatches | pkg/api/adapters/appcontext/appcontext.go:240-248 | the callback of Tick answers success, or a permanent failure with an error whatever the service's result code was; its answer leads to a delete exactly when a batch was created for that record |
| LoopLaws.ServeDeletesWhatItBatches | pkg/api/adapters/appcontext/appcontext.go:239-253 | over any ticks and faults, delete calls and batches name the same messages in the same order |
| LoopLaws.OneBadBodyStopsTheLoop | pkg/api/adapters/repository/repository_tasks.go:48-61 | a tick fails before its first record if and only if the receive fails or one body does not decode; then nothing is attempted and the loop stops |
| Fleet.PickedAreDelivered | pkg/api/adapters/repository/repository_tasks.go:35-64 | a pick pairs every visible message, in order, with the next unused receipt and its decoded task, and removes none |
| Backend.Repository.GetResourceInstanceState | pkg/api/adapters/repository/repository_resource_instances.go:10-26 | three answers, each under its own condition: the row, nothing without an error, or an error; nothing changes |
| Backend.Repository.PutResourceInstanceState | pkg/api/adapters/repository/repository_resource_instances.go:28-39 | unless refused, the row under the state's own key is that state, whatever it was; all other rows and everything else are unchanged; an error does not tell whether it took effect |
| Backend.Repository.CreateBatchWithProvider | pkg/api/business/resources/service.go:284-299 | a batch counts as created exactly when the provider acknowledges it; the call touches no table and no queue |
| Backend.Repository.PutTaskStatus | pkg/api/adapters/repository/repository_task_statuses.go:31-42 | success means the task's status row is stored, refusal that none changed; no other row ever changes |
| Backend.Repository.UpdateTaskStatus | pkg/api/adapters/repository/repository_task_statuses.go:45-121 | changes no table and no queue |
| Backend.Repository.EnqueueTask | pkg/api/adapters/repository/repository_tasks.go:20-33 | adds one encoded message unless refused |
| Backend.Repository.PickTaskFromQueue | pkg/api/adapters/repository/repository_tasks.go:35-64 | the decode loop returns all records in order, or nothing if one body does not decode |
| Backend.Repository.DeleteTaskFromQueue | pkg/api/adapters/repository/repository_tasks.go:66-73 | removes the message the receipt stands for unless refused |
| Tasks.TasksService.Init | pkg/api/business/tasks/service.go:58-62 | records the queue url |
| Tasks.SubmissionAnswers | pkg/api/business/tasks/service.go:96-131 | which of the three answers is given follows from how the two calls end; the message is sent exactly when the first succeeded and the second was not refused, under a stored status row, with id and token limit filled in |
| Tasks.TasksService.DispatchTask | pkg/api/business/tasks/service.go:91-132 | fails before init; otherwise fills in id and limit, stores the status, and sends only if that was acknowledged; success is answered exactly when both calls succeed; a sent task has a status row |
| Tasks.TasksService.PickUpNextAvailableTask | pkg/api/business/tasks/service.go:134-229 | the record loop is the left fold of one attempt per record, for an arbitrary callback |
| Tasks.TasksService.Settle | pkg/api/business/tasks/service.go:164-225 | after the callback's answer: the delete and the final status that this answer calls for, in that order |
| Resources.ResourcesService.AddProvider | pkg/api/business/resources/service.go:44-54 | adds one provider name |
| Resources.RegisterAnswers | pkg/api/business/resources/service.go:56-109 | a disabled resource is skipped, one with an unknown provider turned away; any other is registered, and that fails exactly when both its read and the write of its row do; the row written is given field by field |
| Resources.ResourcesService.AddResource | pkg/api/business/resources/service.go:56-112 | skips, rejects, registers, or registers and resets: when it succeeds, the effect on both maps, and the fields of the row it writes, the provider of the configuration among them |
| Resources.ResourcesService.Init | pkg/api/business/resources/service.go:114-136 | registers the configured resources in the order of the range, up to the first failure |
| Resources.ResourcesService.EstimateTokens | pkg/api/business/resources/service.go:140-151 | the loop over messages computes a quarter of the wrapped length of their joined contents |
| Resources.ResourcesService.FindBestAvailableResource | pkg/api/business/resources/service.go:153-210 | fills in the estimate and returns the first fit in the order of the range |
| Resources.ResourcesService.DispatchTask | pkg/api/business/resources/service.go:212-307 | re-read, reserve, create, and on refusal roll back, with the effect on table and history |
| Resources.TryProcessAnswers | pkg/api/business/resources/service.go:332-385 | there are two answers: success, exactly when a batch was created for the message, which takes a selected key and three calls that succeed, and otherwise a temporary system failure with an error |
| Selection.NoRoomIsTemporaryFailure | pkg/api/business/resources/service.go:346-350 | when no registered readable row admits the cost, the answer is a temporary system failure with an error, and nothing changes |
| Resources.ResourcesService.TryProcessTask | pkg/api/business/resources/service.go:332-385 | selection then dispatch; success exactly when a batch was created for the message, and any failure is a temporary system failure with an error |
| AppContext.AppContext.Tick | pkg/api/adapters/appcontext/appcontext.go:239-253 | the record loop run with the resource service's own method as callback, an error turned into a permanent result code plus error, is one tick; before init it fails and does nothing |
| AppContext.AppContext.EventLoop | cmd/serve/main.go:44-64 | ticks until one fails or the context is cancelled |

## Left out

- Timestamps (`CreatedAt`, `UpdatedAt`, `LastActivityTime`) and task fields no modelled code reads.
- The text of the batch request and its JSON: it is only logged. The codec is an arbitrary pair of functions; where an encoded task must decode to its own identifier, the lemma says so.
- A body that decodes to no task at all (JSON `null`), which would stop the process at the first use of the task.
- CreateBatch: a batch the provider made although the call reported an error is not counted as created; the code cannot tell it from a refused one.
- A task is a value here; methods return the filled-in task instead of changing the caller's. Aliasing is not captured.
- PickUpNextAvailableTask takes its callback as a function of the world and the record, since a method cannot be passed; `Tick` therefore repeats its loop around the call of `TryProcessTask`, and both are proved against one function. The record also names its message, so that the history can.
- Context cancellation inside a call, and the bound on the number of messages per receive.
- AddProvider: a provider factory is known by its name alone, because no modelled code looks inside it.
- Task buckets, the HTTP server, provider clients, table and queue creation, logging, configuration loading.
- Batch completion, optimistic locking, rate limits and retry counts: comments in the source, not code.
