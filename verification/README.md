# A verified model of SelfModelSwitch

SelfModelSwitch keeps several local models on one machine: it decides which ones are resident, stops
some to make room for others, lends them out under leases, grants exclusive sessions, runs executions
on them and stores their inputs and outputs as blobs. This project models the four state machines at
its heart in Dafny and proves what they guarantee over whole runs.

* **Residency book and scheduler.** `BookModel` holds the book as a value, one function per call. `BookRuns` is
  every run of it: calls in any order, accepted or refused, with `uuid4` as identifiers that never repeat.
  `BookAnswers` says what every call does to each field of each model. `BookObject.Book` is the object updated
  in place, proved call by call against the functions. `EvictionPolicy`, `RequestQueue`, `SessionManager` and
  `Lifecycle` model the policy, the aged queue, the session phases and the tasks that finish loads and stop
  batches. `Scheduler` is the machine whose steps are the blocks run under the one condition; `SchedulerRuns`
  and `SessionRuns` prove what every schedule keeps, `SessionFindings` what goes wrong when a session ends while
  it is being prepared; `SchedulerAnswers` and `SessionAnswers` say who gets a lease, who is let in, what starts
  a load or a switch, and what moves a session.
* **Blob store.** `BlobModel` holds the durable tables and files and recovery step by step, `BlobRuns` the
  machine of uploads, deletes, reads, crashes and recoveries, `BlobQuota`, `BlobAtomic` and `BlobLeases` its
  guarantees, `BlobFindings` the events they exclude, `BlobAnswers` what every event does to each row and file,
  `BlobStoreObject.BlobStore` the object with the receive and recovery loops. SHA-256 is a function parameter.
* **Execution service.** `ExecutionModel` is one record and its lock-held blocks, `ExecutionRecords` what each
  block keeps, `ExecutionRuns` the service with the book and the quiescer of each model, `ExecutionAnswers` what
  every block answers, field by field, and `ExecutionFindings` the promises it breaks.
* **Smaller pieces.** `Startup` (startup reconciliation), `Jpeg` (the frame-header walk), `Protocol` (fences),
  `LedgerArithmetic` (the 15 percent ceiling).

Time is `real`, byte figures are unbounded integers, identifiers are wrapped numbers, and heat is any table of
reals. Backend answers, docker answers, samples and the clock are arguments. Where a promise turned out not to
hold as stated there is a lemma with the failing input and one with the exact condition:
`EvictionPolicy.LoadedV2Trips` with `Candidates`, `EvictionPolicy.LargerReleaseFirstIff`,
`BookAnswers.CleanupRevivesFailed` with `Lifecycle.RollbackRestoresIffReady`, `SchedulerRuns.OwnerLostIffCut`,
the lemmas of `SessionFindings` and `BlobFindings`, `BlobAnswers.CrashKeepsRetiredFile`,
`BlobLeases.LeaseProtects`, the lemmas of `ExecutionFindings` with `ExecutionRuns.EffectsHappenOnce`,
`SuccessIsHonest` and `ViewsAreValid`, and `Jpeg.FillByteHidesFrame` and `RestartHidesFrame` with
`FoundIffLaidOut`. Four comments in the source say more than the code does: the larger release is not always
preferred (`eviction_policy.py:37`), the teardown after admission (`execution_service.py:572`) does not release
a lease granted to a settled execution, the handler of unexpected failures (`execution_service.py:600`) does
strand a record and its lease, and the walk over JPEG markers does not know fill bytes or restart markers. The
model follows the code.

## Model

| member | source | states |
|---|---|---|
| `LedgerArithmetic.ReservedIsExactCeiling` | model_scheduler/contracts_v2.py:291-304 | the integer formula is the exact ceiling of the peak times 1.15: the least integer that covers it |
| `LedgerArithmetic.MarginsAddUp` | model_scheduler/contracts_v2.py:301-304 | if every figure is a ceiling with margin, the sum of the figures covers 1.15 times the sum of the peaks |
| `BookModel.VetMeaning` | model_scheduler/model_registry.py:289-298 | a batch passes validation exactly when every member is registered and passes the state test; it never answers stale |
| `BookModel.BootedInv` | model_scheduler/model_registry.py:102-119 | a freshly built book satisfies the whole invariant |
| `BookRuns.CallKeepsInv` | model_scheduler/model_registry.py:165-383 | every call, accepted or refused, keeps the book invariant: exact reservations, sound leases, token exactly while loading or evicting, blocked admission |
| `BookRuns.RunKeepsWorld` | model_scheduler/model_registry.py:99-383 | in every state of every run the invariant holds, operation ids are distinct and drawn, and every token names a registered model and an epoch not in the future |
| `BookRuns.TokensActOnce` | model_scheduler/model_registry.py:206-220 | over a whole run `loaded`, `failed`, `stopped` and `rollback_unsent` together accept each operation id at most once |
| `BookRuns.EpochsOnlyGrow` | model_scheduler/model_registry.py:363-372 | the recovery epoch never decreases along a run |
| `BookRuns.RecoveryVoidsTokens` | model_scheduler/model_registry.py:206-210 | after `begin_recovery` closes an open book, every token handed out before it is rejected for ever |
| `BookRuns.RecoveryFreezesLedgers` | model_scheduler/model_registry.py:363-383 | while recovering, no entry of either ledger changes until a `finish_recovery` is accepted |
| `BookRuns.RecoveryEndsOnlyByProof` | model_scheduler/model_registry.py:374-383 | recovery ends only by a call that confirms exactly all registered models while no lease is held |
| `BookRuns.OperatingModelIsOwned` | model_scheduler/model_registry.py:206-220 | while a model operates under a token, no other call except a recovery changes any of its fields |
| `BookRuns.TokenHolderIsUndisturbed` | model_scheduler/scheduler.py:247-280 | over a whole run, until its token is used or a recovery starts, an operating model is exactly as it was, whatever interleaves |
| `BookRuns.ReservationMoves` | model_scheduler/model_registry.py:197-204 | a reservation changes only by an accepted load taking the whole figure, or by returning to zero on an unloaded model without leases |
| `BookRuns.ReservationsAreExact` | model_scheduler/model_registry.py:133-204 | in every reachable state a reservation is zero exactly when the model is unloaded and otherwise its required bytes; it returns to zero only from a model without leases |
| `BookRuns.LedgersStayWithinBudget` | model_scheduler/model_registry.py:183-204 | along any run both ledgers stay at or below the larger of the budget and where they stood: once within budget, always within |
| `BookRuns.PhysicalPeaksFit` | model_scheduler/model_registry.py:137-158 | when every model is measured and the physical ledger is within budget, the raw peaks of all models not stopped, times 1.15, fit the budget together |
| `BookRuns.LeasesAreSound` | model_scheduler/model_registry.py:232-287 | in every reachable state leases carry the current generation, concurrency is respected, cancelling leases are held leases and no request owns two leases |
| `BookRuns.OnlyFreezeBlocksReady` | model_scheduler/model_registry.py:303-318 | no call but `freeze_for_switch` leaves a ready model blocked |
| `BookRuns.UnfreezeReopens` | model_scheduler/model_registry.py:320-325 | `unfreeze_switch` leaves no ready model of its list blocked |
| `BookRuns.HeldUntilReleased` | model_scheduler/model_registry.py:250-268 | no call but the release of exactly this lease ends it: not another release, a batch, a token, a load or a recovery |
| `BookAnswers.AdmissibleIff` | model_scheduler/model_registry.py:171-195 | a load is admissible exactly when the book is open, the model stopped, unleased and unblocked, the sample fresh, plausible and no older than the last proven stop, the whole reservation free above the floor, and both ledgers have room |
| `BookAnswers.AcceptedIff` | model_scheduler/model_registry.py:165-383 | for every call, exactly when it is accepted, and which of the others are told of an unknown model or a stale token |
| `BookAnswers.CallAnswers` | model_scheduler/model_registry.py:165-383 | every call on every book: the state, leases, cancel marks, block, token, reservation, idle time, generation and stop time of every model afterwards, each given by what that field depends on; a release by outcome among them |
| `BookAnswers.StatesMoveOnlySo` | model_scheduler/model_registry.py:165-383 | the whole life of a model in every run: each change of state happens if and only if the one call for it is accepted, and there is no other arrow |
| `BookAnswers.LentIsNotIdle` | model_scheduler/model_registry.py:240-268 | in every run from a book without leases a model that is lent out is never counted as idle |
| `BookAnswers.CleanupRevivesFailed` | model_scheduler/model_registry.py:327-346 | from every sound book with an idle and an idle failed model three calls leave the failed model ready and open to leases: clean up both, fail to prove the first stop, roll back the second |
| `BookObject.Book.constructor` | model_scheduler/model_registry.py:102-119 | the new book is the booted state over the given registration and satisfies the invariant |
| `BookObject.Book.CommittedBytes` | model_scheduler/model_registry.py:133-136 | the loop over the registration sums exactly the reservations |
| `BookObject.Book.PhysicalFits` | model_scheduler/model_registry.py:146-158 | true exactly when the physical gate is off, or the target is measured and its figure fits beside the others |
| `BookObject.Book.CanLoadNow` | model_scheduler/model_registry.py:183-195 | true exactly when every condition of a load holds: open, unloaded, settled sample, memory floor, budget and physical gate |
| `BookObject.Book.BootstrapStopped` | model_scheduler/model_registry.py:165-169 | the reply and the new state are those of the call; only an unknown, idle, unleased model becomes unloaded |
| `BookObject.Book.BeginLoad` | model_scheduler/model_registry.py:197-204 | accepted exactly when a load is possible; hands out a token that is current for the new generation |
| `BookObject.Book.Loaded` | model_scheduler/model_registry.py:212-216 | a current token of a loading model makes it ready; stale, conflicting and unknown tokens change nothing |
| `BookObject.Book.Failed` | model_scheduler/model_registry.py:218-220 | a current token puts its model in error and keeps the reservation |
| `BookObject.Book.RollbackUnsent` | model_scheduler/model_registry.py:342-346 | a current token of an evicting, unleased model returns it to ready and open |
| `BookObject.Book.Stopped` | model_scheduler/model_registry.py:348-355 | a current token of an evicting, unleased model unloads it and returns its reservation |
| `BookObject.Book.AcquireReady` | model_scheduler/model_registry.py:232-242 | grants a lease exactly when the model is ready, open, below its concurrency and the request owns none; the lease is then held |
| `BookObject.Book.Release` | model_scheduler/model_registry.py:250-268 | frees the lease exactly when it is held and the token count is not negative; a negative count on a held lease is refused and the lease stays; an abort puts the model in error |
| `BookObject.Book.BeginCancel` | model_scheduler/model_registry.py:270-281 | marks the lease cancelling exactly when it is held, and keeps it held |
| `BookObject.Book.BeginEviction` | model_scheduler/model_registry.py:289-301 | all or nothing: either every member is marked evicting with one fresh token each, or the book is unchanged |
| `BookObject.Book.BeginCleanup` | model_scheduler/model_registry.py:327-340 | the same for ready or failed models without leases |
| `BookObject.Book.FreezeForSwitch` | model_scheduler/model_registry.py:303-318 | all or nothing: closes admission of every listed model or of none |
| `BookObject.Book.UnfreezeSwitch` | model_scheduler/model_registry.py:320-325 | reopens exactly the listed models that are ready and not operating; an unregistered id is an error, raised with exactly the models before it reopened |
| `BookObject.Book.BeginRecovery` | model_scheduler/model_registry.py:363-372 | fences every model once, keeps every reservation, and answers the epoch; a second call changes nothing |
| `BookObject.Book.FinishRecovery` | model_scheduler/model_registry.py:374-383 | clears the book exactly for the current epoch, all models confirmed and no lease held; otherwise nothing changes |
| `RequestQueue.BoundedOvertaking` | model_scheduler/request_queue.py:123-125 | an earlier request stays ahead of a later one at every later instant if and only if the later one arrives at least one aging interval per priority step after it |
| `RequestQueue.OneStepPerInterval` | model_scheduler/request_queue.py:123-125 | a waiter is n above its own priority at an instant if and only if it has waited n whole aging intervals and not n plus one |
| `RequestQueue.OnlyWindowArrivalsPass` | model_scheduler/request_queue.py:89-101 | a waiting eligible request loses the head only to earlier arrivals and to arrivals inside a finite window after it |
| `RequestQueue.HeadIsUnique` | model_scheduler/request_queue.py:89-97 | there is at most one head |
| `RequestQueueObject.WaitQueue.Enqueue` | model_scheduler/request_queue.py:47-56 | expires due waiters, then refuses a duplicate or a full queue without change, or appends the waiter with the next sequence number; size never exceeds capacity |
| `RequestQueueObject.WaitQueue.Requeue` | model_scheduler/request_queue.py:58-71 | puts any item back with its sequence, arrival and deadline unchanged, or refuses without change; the order of waiters stays strict if the sequence was handed to it by this queue |
| `RequestQueueObject.WaitQueue.ExpireDue` | model_scheduler/request_queue.py:76-81 | removes exactly the waiters past their deadline and returns them as expired |
| `RequestQueueObject.WaitQueue.Remove` | model_scheduler/request_queue.py:83-87 | removes exactly that waiter and returns it with the given state |
| `RequestQueueObject.WaitQueue.Head` | model_scheduler/request_queue.py:89-97 | expires due waiters and returns the contender ahead of every other, or none exactly when nobody contends |
| `EvictionPolicy.Candidates` | model_scheduler/eviction_policy.py:28-41 | raises if and only if some v2 model is ready, unblocked and idle (or busy ones count); otherwise lists exactly the eligible models, each with its own figures, in strict score order |
| `EvictionPolicy.LoadedV2Trips` | model_scheduler/eviction_policy.py:30-34 | the failing family, reached by a run: load any single v2 model that fits, and from then on asking for candidates raises |
| `EvictionPolicy.RankingIsUnique` | model_scheduler/eviction_policy.py:28-41 | there is only one such list for a book and a heat table |
| `EvictionPolicy.ListedIff` | model_scheduler/eviction_policy.py:28-41 | exactly the ready, open, evictable, unpinned and (unless busy ones count) idle models are listed, each with the bytes its eviction gives back |
| `EvictionPolicy.EarlierIsWorthLess` | model_scheduler/eviction_policy.py:35-41 | whoever comes earlier has less heat and priority per reserved byte, or the same and the smaller id |
| `EvictionPolicy.LargerReleaseFirstIff` | model_scheduler/eviction_policy.py:37-41 | between two candidates of equal worth the larger release goes first if and only if that worth is positive, or zero and its id is smaller |
| `EvictionPolicy.DeficitIsLeast` | model_scheduler/scheduler.py:339-342 | the deficit is the least number of bytes that, freed and taken off the ledger, would pass both the memory and the budget test of the load |
| `EvictionPolicy.Choose` | model_scheduler/eviction_policy.py:43-55 | answers nothing when nothing is needed, raises exactly when something is needed and asking for candidates raises, and otherwise answers the shortest prefix of the ranking that covers the need within the limit, or nothing when none suffices |
| `EvictionPolicy.ChoiceIsUnique` | model_scheduler/eviction_policy.py:43-55 | that description determines the answer: two lists that meet it are equal |
| `EvictionPolicy.EvictionMakesRoom` | model_scheduler/scheduler.py:339-342 | over any run from boot: once a chosen batch for the load deficit is stopped and no load was accepted meanwhile, the target passes both the budget test and the physical gate |
| `EvictionPolicy.BootedIsMeasured` | model_scheduler/model_registry.py:102-119 | in a freshly built book with the physical gate on no model without a figure is loaded or leased |
| `EvictionPolicy.RunKeepsMeasured` | model_scheduler/model_registry.py:146-158 | with the physical gate on, a model without a figure is never loaded and never leased, in any state of any run |
| `EvictionPolicy.ChoiceMeansUnmeasured` | model_scheduler/eviction_policy.py:28-55 | in no such state with the gate on does `choose` name a victim: it raises or answers nothing |
| `EvictionPolicy.PhysicalGateAfterEviction` | model_scheduler/model_registry.py:146-158 | once exactly the named models are stopped, the physical gate opens if and only if the remaining physical figures and the target's fit the budget |
| `Lifecycle.FinishEviction` | model_scheduler/scheduler.py:352-379 | for any backend answers, and any calls other tasks make during each wait, the book ends as the batch function says, and exactly the accepted stops are reported, in order |
| `Lifecycle.RollbackPending` | model_scheduler/scheduler.py:1046-1051 | rolls back the pending tokens in order, skipping stale ones |
| `Lifecycle.MemberFate` | model_scheduler/scheduler.py:352-379 | in any run, whatever interleaves short of a recovery or another use of the token: each call of a batch is accepted, finds its member as the batch left it, and takes it to its fate: a stopped prefix, at most one failed member keeping its reservation, a suffix rolled back to ready |
| `Lifecycle.BatchIsLocal` | model_scheduler/scheduler.py:352-379 | each of these calls leaves every other model, the policy and the epoch as they are |
| `Lifecycle.StoppedModelsArePrefix` | model_scheduler/scheduler.py:353-379 | in such a run the task makes exactly those calls, its end state is the state of the run, and the models it reports are exactly the stopped prefix |
| `Lifecycle.BatchConservesLedger` | model_scheduler/scheduler.py:352-379 | in any such run the calls of the batch lower the committed bytes by exactly the reservations of the stopped prefix, whatever other calls do to the ledger in between |
| `Lifecycle.VoidBatchMovesNothing` | model_scheduler/scheduler.py:352-379 | a batch whose tokens a recovery has voided moves nothing and reports nothing, whatever the backend answers |
| `Lifecycle.RollbackUndoesEviction` | model_scheduler/model_registry.py:342-346 | rolling an unsent member of an eviction batch back restores every field, with a freeze lifted |
| `Lifecycle.RollbackRestoresIffReady` | model_scheduler/model_registry.py:327-346 | a rollback gives a member of a cleanup batch its state back if and only if it was ready; a failed one comes back ready and open |
| `Lifecycle.FinishLoad` | model_scheduler/scheduler.py:247-280 | a late result moves nothing; for a current token the model is ready, open and idle from now if and only if the answer is healthy and it was loading, otherwise in error and blocked; token, generation, leases, reservation and every other model as stated, and recovery starts exactly in the second case if there is one and none runs |
| `SessionRuns.SessionsFollow` | model_scheduler/session_manager.py:164-224 | between any two moments of any schedule a session keeps its identity and all its deadlines, a closed record is final, and it is active or preparing later only if it was on its way there before |
| `SessionRuns.ActivationIsPrepared` | model_scheduler/session_manager.py:174-184 | in any schedule a session becomes active only from preparing, at the moment the worker that prepared exactly it finds the model ready |
| `SessionRuns.HeartbeatNeverRevives` | model_scheduler/session_manager.py:158-172 | in any schedule with a clock that does not run backwards, an active session that is past its deadline at one instant is never live at any later one |
| `SessionAnswers.SessionsAnswer` | model_scheduler/scheduler.py:784-984 | every step: what becomes of each session's record, of a new one's deadlines, of the freeze, of the active id and of the worker, each given by what it depends on |
| `SessionAnswers.ClosedIff` | model_scheduler/scheduler.py:915-984 | in every schedule a session becomes closed if and only if its own worker reports a confirmed stop, has cleaned up after a session that ended while loading, or finds its preparation out of time |
| `SessionAnswers.UnconfirmedStopBlocks` | model_scheduler/scheduler.py:977-983 | after an unconfirmed stop a session is blocked until the next reconciliation and not active, and the freeze is where it was |
| `SessionAnswers.FreezeMovesOnlySo` | model_scheduler/scheduler.py:770-774 | the exact list of steps that release the freeze of a session, and the only one that takes it over |
| `SessionAnswers.PlansInOrder` | model_scheduler/scheduler.py:894-913 | the idle worker takes up a session that ran out, then a blocked one that is due, then the first that may prepare with nobody active, draining or blocked, then a draining one |
| `SessionManagerObject.Manager.MarkActive` | model_scheduler/session_manager.py:174-184 | only a preparing session while nobody else is active becomes active; `active_id` keeps naming exactly the active session |
| `SessionManagerObject.Manager.BeginDrain` | model_scheduler/session_manager.py:186-194 | any open session starts draining and stops being active; a closed one is unchanged |
| `SessionManagerObject.Manager.MarkClosed` | model_scheduler/session_manager.py:196-206 | idempotent close that clears `active_id` only for that session |
| `SessionManagerObject.Manager.MarkBlocked` | model_scheduler/session_manager.py:208-216 | blocks any session that is not closed and schedules the retry |
| `SessionManagerObject.Manager.YieldPrepare` | model_scheduler/session_manager.py:218-224 | accepted exactly while preparing; afterwards this session may not prepare before the backoff has passed, and when any other session may prepare is unchanged |
| `SessionManagerObject.Manager.Heartbeat` | model_scheduler/session_manager.py:164-172 | accepted exactly for a preparing or live session; a live one is afterwards live exactly until the hard deadline or a full TTL from now, whichever is first, and every other session as long as before |
| `SchedulerRuns.ScheduleKeeps` | model_scheduler/scheduler.py:96-1044 | every block of the scheduler, under every interleaving, keeps the switch and session invariants |
| `SchedulerRuns.ScheduleIsBookRun` | model_scheduler/scheduler.py:96-245 | between any two moments of a schedule the book makes a run of its own calls, so every book theorem applies |
| `SchedulerRuns.ScheduleStaysWithinBudget` | model_scheduler/scheduler.py:163-183 | under every schedule neither ledger leaves the budget once within it |
| `SchedulerRuns.NoLostFreeze` | model_scheduler/scheduler.py:202-245 | in every reachable state a ready model that refuses admission belongs to the current switch intent, and its owner is still there to reopen it unless an `acquire` of that request was cut before it could clean up |
| `SchedulerRuns.LeavingReopens` | model_scheduler/scheduler.py:185-245 | a switch intent ends if and only if its owner leaves and cleans up, a look finds it expired or its owner not queued, or its owner finds the frozen models drained and asks for the eviction, accepted or refused; however it ends every ready model is open |
| `SchedulerRuns.OwnerLostIffCut` | model_scheduler/scheduler.py:185-189 | a step leaves a standing intent without an owner if and only if it is a cancellation that cuts the clean-up of the only `acquire` of its request before it holds the lock |
| `SchedulerRuns.OrphanedUntilLook` | model_scheduler/scheduler.py:240-245 | without an owner an intent stands, unchanged, in every schedule until the request comes back or another request's look finds it expired or its owner not queued |
| `SchedulerRuns.V2NeverSwitches` | model_scheduler/scheduler.py:202-219 | where only v2 models are registered no schedule ever establishes a switch |
| `SchedulerRuns.RoomForV2Raises` | model_scheduler/scheduler.py:163-189 | what the waiting request sees instead: with a v2 model ready and open, the block that finds no room for its own model ends the call and leaves the book alone |
| `SchedulerRuns.FreezeFiltersInteractive` | model_scheduler/scheduler.py:191-200 | while a session holds the freeze no interactive waiter can be the head |
| `SchedulerAnswers.LentIffFirst` | model_scheduler/scheduler.py:128-160 | in every schedule a lease is out after a step that was not before if and only if the step is the look of a call whose own request is queued in time and first of all that could be served (higher aged priority, or equal and earlier), with the guard, a fresh sample above the floor and a free slot; the lease is that request's on that model, and no interactive one under a session's freeze |
| `SchedulerAnswers.GrantsPassOnlyTheWindow` | model_scheduler/request_queue.py:89-125 | bounded overtaking of the leases themselves: whoever gets one while another request could be served came earlier, or less than one aging interval per priority step later |
| `SchedulerAnswers.CallGoes` | model_scheduler/scheduler.py:128-160 | a look ends the call if and only if it is too late, served, or first with a failed model; it asks for a sample if and only if it is first and its stopped model may be started now |
| `SchedulerAnswers.QueueGoes` | model_scheduler/scheduler.py:135-160 | a look takes out of the queue exactly those past their deadline and the request itself once served or too late |
| `SchedulerAnswers.EntersIff` | model_scheduler/scheduler.py:96-126 | a call joins the queue if and only if the model is known, it is in time, the service is up, its session is alive with a slot to come or none holds the freeze, and it is neither a duplicate nor one too many; it joins with its model's priority and the next number, and nobody else's place changes |
| `SchedulerAnswers.LeavesQueueIff` | model_scheduler/scheduler.py:128-189 | for every step exactly which waiters it takes out of the queue |
| `SchedulerAnswers.AdvanceAnswers` | model_scheduler/scheduler.py:161-232 | the block of a call that asked for a sample: when the load starts, when a switch begins and over which models and until when, when its owner finds it drained and the batch goes out or is released, when choosing raises, and the book after each |
| `SchedulerAnswers.SwitchBeginsIff` | model_scheduler/scheduler.py:202-232 | in every schedule a switch begins if and only if such a block can freeze all victims it chose and some are still lent out |
| `SchedulerRuns.SessionExclusivity` | model_scheduler/scheduler.py:928-984 | in every reachable state an active session is the only one, is named by `active_id`, owns the freeze, and no interactive lease is out on any model |
| `SessionFindings.YieldReleasesIffPreparing` | model_scheduler/scheduler.py:938-944 | when the drain window has run out the freeze is released if and only if the session is still preparing; otherwise no worker is left and the freeze stays |
| `SessionFindings.DrainWaitIsReached` | model_scheduler/scheduler.py:928-944 | from every fresh scheduler that takes sessions, over a booted book with one model that fits, nine steps reach the drain wait of a session with a lease outstanding: load, interactive grant, register, plan, claim |
| `SessionFindings.EndedDuringDrainStrands` | model_scheduler/scheduler.py:938-996 | from every drain wait of a session still preparing with a lease held, ending the session and letting the window run out leaves the freeze set with the worker gone |
| `SessionFindings.StrandedIsReached` | model_scheduler/scheduler.py:928-996 | the two together: thirteen steps from a fresh scheduler strand it |
| `SessionFindings.StrandedRefuses` | model_scheduler/scheduler.py:115-117 | from then on in every schedule, until a session is registered or ended or the service shuts down, the freeze stays, no interactive lease is granted and every interactive request is refused |
| `BlobModel.RecoveredIsSettled` | model_scheduler/blob_store.py:379-422 | from any durable state a full pass leaves no unfinished row and no `.part` file, and every published row has a file of its size and hash |
| `BlobModel.MoveKeepsOutcome` | model_scheduler/blob_store.py:390-415 | no single durable step of recovery changes which blob any id will end as |
| `BlobModel.RecoveryConverges` | model_scheduler/blob_store.py:379-422 | cut short any number of times at any durable step and run again, recovery ends with the same published blobs and files as one uninterrupted pass |
| `BlobStoreObject.BlobStore.Recover` | model_scheduler/blob_store.py:379-422 | the three loops end in exactly the recovered state, every durable step on the way is a recovery step, the report names exactly the verified, unreadable, purged and protected ids, and with instances running every published blob is under the restart lease |
| `BlobStoreObject.BlobStore.VerifyOne` | model_scheduler/blob_store.py:186-211 | answers whether the file matches its row; a mismatch ends as an empty tombstone |
| `BlobStoreObject.BlobStore.ResolveOne` | model_scheduler/blob_store.py:402-414 | finishes an interrupted publish exactly when the renamed file matches the journal, and otherwise removes part, file and row |
| `BlobStoreObject.BlobStore.SweepOrphans` | model_scheduler/blob_store.py:461-466 | removes every `.part` file and nothing else |
| `BlobStoreObject.BlobStore.Receive` | model_scheduler/blob_store.py:266-276 | accepts the stream exactly when it fits the reservation, and the part then holds exactly the received bytes |
| `BlobStoreObject.BlobStore.PublishReceived` | model_scheduler/blob_store.py:288-315 | journal, rename, publish and clear end with row and file together; a failed rename or publish ends with neither, recoverable at every step, unless the failed step happened all the same, and then with exactly one of them |
| `BlobStoreObject.BlobStore.ReceiveAndPublish` | model_scheduler/blob_store.py:247-315 | publishes exactly the received bytes when they fit, match the declaration and nothing fails; too long, mismatching and broken streams leave only the staging journal row; a failed rename or publish leaves no row and no file except for the step that happened all the same |
| `BlobQuota.PublishAccounts` | model_scheduler/blob_metadata.py:194-215 | a publish trades the reservation of its own open row for the published size, changes no other account and no other row, and succeeds exactly when the row was open or published |
| `BlobQuota.AbortAccounts` | model_scheduler/blob_metadata.py:217-220 | an abort gives the owner back exactly the reservation, leaves published rows and tombstones alone, and undoes a reservation completely |
| `BlobQuota.ReleaseMissingAccounts` | model_scheduler/blob_metadata.py:360-371 | a missing file stops counting for its owner at once, with or without a tombstone, nobody can open the blob again, and no other row changes |
| `BlobQuota.QuotaNeverOversold` | model_scheduler/blob_metadata.py:135-220 | in every run, at every moment, each owner's and the global published, staged and reserved bytes are within quota |
| `BlobQuota.ReserveKeepsQuota` | model_scheduler/blob_metadata.py:155-181 | an admitted reservation keeps every owner and the total within quota |
| `BlobQuota.PublishShrinks` | model_scheduler/blob_store.py:266-315 | a publish never counts more than the row had reserved, because the received size never exceeds it |
| `BlobQuota.RecoveryShrinks` | model_scheduler/blob_store.py:428-441 | a publish finished by recovery never counts more than the row had reserved, because the journalled size never exceeds it |
| `BlobAtomic.CrashAtomicity` | model_scheduler/blob_store.py:247-315 | stop an undisturbed run anywhere and recover: each id is either published with its file or has no row, part or file, and which one is decided by whether the rename was journalled and done |
| `BlobAtomic.CommittedStaysReadable` | model_scheduler/blob_store.py:296-315 | once its publish transaction committed, an undisturbed blob stays published, readable and unchanged through every later crash and recovery |
| `BlobAtomic.CleanUpKeeps` | model_scheduler/blob_store.py:282-309 | the failure handlers walk an upload back through recoverable shapes to nothing |
| `BlobLeases.LeaseProtects` | model_scheduler/blob_store.py:497-533 | in every run a readable blob under a read lease keeps its row and its file through the next event if and only if that event is not the abandonment of that output, a read error on its file, or the handler of a publish reported failed although it committed |
| `BlobAnswers.RowsFollow` | model_scheduler/blob_metadata.py:155-371 | every event on every store: the row it leaves for each id, given by what made or changed it |
| `BlobAnswers.FilesFollow` | model_scheduler/blob_store.py:148-184 | every event: the file it leaves under each name, the unlinks it leaves to do and the read leases |
| `BlobAnswers.RetiredIff` | model_scheduler/blob_metadata.py:246-288 | in every history a published blob becomes a tombstone outside recovery if and only if its own owner deletes it or the sweep comes at or after its expiry, with nobody reading it; every other row stays |
| `BlobAnswers.RowsAppearIff` | model_scheduler/blob_metadata.py:155-181 | in every history a row appears if and only if a positive reservation was admitted for a new id, with the reserve of free disk space left and within both quotas |
| `BlobAnswers.PublishedAsDeclared` | model_scheduler/blob_store.py:247-315 | in every history what is published has the declared size and digest, fits the reservation, and its retention runs from that moment |
| `BlobAnswers.BlobStaysIff` | model_scheduler/blob_store.py:497-533 | a readable blob keeps row and bytes through the next event if and only if that event does not retire it and is none of the three that ask for no leases |
| `BlobAnswers.KeptUntilItsTime` | model_scheduler/blob_metadata.py:271-288 | in every history a readable blob keeps row and bytes until its owner deletes it, a sweep comes at or after its expiry, or one of those three events takes it |
| `BlobAnswers.RecoveredRows` | model_scheduler/blob_store.py:379-441 | what a full recovery pass makes of each row, tombstone time and retention included |
| `BlobAnswers.CrashKeepsRetiredFile` | model_scheduler/blob_store.py:516-533 | a crash between a deletion and its unlink leaves the tombstone with the bytes on disk, and recovery keeps both |
| `BlobFindings.FailedRenameLeavesNothing` | model_scheduler/blob_store.py:291-297 | the handler of a failed rename leaves nothing behind if and only if the file had not moved |
| `BlobFindings.FailedPublishLeavesNothing` | model_scheduler/blob_store.py:300-309 | the handler of a failed publish leaves nothing behind if and only if the transaction had not committed; otherwise a published row without a file, which recovery turns into a tombstone |
| `BlobFindings.RenameThenCrash` | model_scheduler/blob_store.py:390-415 | after a rename and a crash recovery publishes the file if and only if the row is still unfinished; with a deleted row the file stays as an orphan |
| `BlobFindings.AbandonLeavesNothing` | model_scheduler/blob_store.py:370-375 | from every durable shape an upload passes through, abandoning the output leaves no row, part or file if and only if it was not published; a published one keeps a row without a file that nobody can read and that recovery turns into a tombstone |
| `BlobFindings.PublishedThenAbandoned` | model_scheduler/execution_service.py:494-501 | every undisturbed run that has published a blob can go on in four steps to abandon it, which ends with a published row and no file |
| `BlobFindings.UploadRunsThrough` | model_scheduler/blob_store.py:247-315 | on an empty store an upload that fits runs through in eight durable steps and publishes exactly the received bytes |
| `BlobFindings.AbandonedIsReached` | model_scheduler/blob_store.py:370-375 | so twelve steps from the empty store end with a published row without a file |
| `BlobFindings.ReadErrorKeepsFile` | model_scheduler/blob_store.py:196-210 | a failed verification of a published blob leaves a corrupt row nobody can read and keeps the file, and recovery changes neither |
| `BlobFindings.RetiredLeavesTombstone` | model_scheduler/blob_metadata.py:246-288 | a delete, or an expiry once due, of a readable blob without leases and the unlink it asks for leave a tombstone and no file |
| `Protocol.AcceptanceIsAnOrder` | model_scheduler/control_protocol_v1.py:370-392 | write-back acceptance is reflexive, transitive and antisymmetric on the fences of an execution |
| `ExecutionRecords.StepKeeps` | model_scheduler/execution_service.py:313-471 | every block, a cancel cut short before its evaluation and an unexpected exception of the task before dispatch included, keeps the record invariant and only moves the record forward |
| `ExecutionRecords.EvaluateKeeps` | model_scheduler/execution_service.py:385-403 | evaluation settles, publishes or waits so that evidence plus a cancel or a reason means settled, unless a cut left it so |
| `ExecutionAnswers.TerminalStoredIff` | model_scheduler/execution_service.py:360-383 | a terminal report becomes evidence if and only if there is none yet, its boot, model, generation, operation and execution are the fence's own and its attempt is no older, and it does not deny a recorded dispatch; any other report changes nothing |
| `ExecutionAnswers.ReportsMatched` | model_scheduler/execution_service.py:360-383 | in every run reported evidence on record matched the execution's fence at the moment it was stored |
| `ExecutionAnswers.BlockFollows` | model_scheduler/execution_service.py:313-471 | every block: evidence, reason and cancel, output, fence, lease, claim and start, the wait for a stop, and the verdict (when it settles, as cancelled or failed and with which error, when it publishes and how that ends), each given by what it depends on |
| `ExecutionAnswers.BlockKnows` | model_scheduler/execution_service.py:503-784 | every block: where the execution's task goes next and which instance is on record or expected |
| `ExecutionAnswers.ExecutionsAnswer` | model_scheduler/execution_service.py:313-858 | every move of every run touches a record only by such a block of its own |
| `ExecutionAnswers.StartedUnderItsLease` | model_scheduler/execution_service.py:562-590 | in every run a computation starts only under a recorded lease, and its fence names that lease's generation from then on |
| `ExecutionAnswers.OutputIsKept` | model_scheduler/execution_service.py:339-357 | in every run the output being published is not replaced while it is, unless a cancel throws it away |
| `ExecutionAnswers.ScanAnswers` | model_scheduler/execution_service.py:801-820 | a scan keeps dispatch frozen exactly while somebody is busy on the model or waits for the proof of a stop, takes up exactly those who wait once nobody is busy, and otherwise ends |
| `ExecutionRuns.ExecutionsOnlyMoveForward` | model_scheduler/execution_service.py:313-471 | over any run a settled view never changes, the state rank never falls, and a cancel, a reason, a dispatch and an ended response are never taken back |
| `ExecutionRuns.SuccessIsHonest` | model_scheduler/execution_service.py:436-471 | success has evidence, a published result and no error; it carries a cancel or a failure reason if and only if a cancel was cut short after the evidence had arrived, and without such a cut there was none at any moment before |
| `ExecutionRuns.ViewsAreValid` | model_scheduler/control_protocol_v1.py:738-800 | at every moment every view obeys the cross-field rules, and evidence plus a cancel or a reason means settled if and only if no cancel was cut short after the evidence, or it is settled all the same |
| `ExecutionRuns.EffectsHappenOnce` | model_scheduler/execution_service.py:425-501 | the recorded lease is released at most once; without a publisher killed inside it `write_output` is called at most once; and a publisher about to call it makes a second call if and only if one was killed |
| `ExecutionRuns.UnrecordedStaysUnrecorded` | model_scheduler/execution_service.py:562-573 | over any run, for a task that ended without a recorded lease nothing is ever released |
| `ExecutionRuns.QuietStaysQuiet` | model_scheduler/execution_service.py:801-814 | no block except a claim, which the quiescer freezes, puts a quiet execution back in flight |
| `ExecutionRuns.QuiescerIsSound` | model_scheduler/execution_service.py:795-858 | an execution settled by an independent stop had its response ended when the stop was requested, with no sibling in flight, and after that the book showed its model unloaded with nothing reserved |
| `ExecutionRuns.StopShows` | model_scheduler/scheduler.py:693-709 | both ways `unload` returns, the book shows the model unloaded with zero reservation |
| `ExecutionFindings.CancelledPublisherWritesTwice` | model_scheduler/execution_service.py:425-434 | a publisher cancelled inside `write_output` followed by a cancel of the execution makes a second call |
| `ExecutionFindings.GrantIsRecordedIffUnsettled` | model_scheduler/execution_service.py:562-573 | a lease granted after the wait is recorded, and so released, if and only if the execution is not settled |
| `ExecutionFindings.CancelledWhileWaitingLeaks` | model_scheduler/execution_service.py:536-573 | in any service state in which the model could be leased, seven moves later a cancel during the wait has left the lease held in the book with the execution settled, its task over and no record of the lease |
| `ExecutionFindings.LeakedLeaseStays` | model_scheduler/execution_service.py:562-573 | from then on in every run the book holds that lease, the model is never unloaded and no recovery can be finished, until exactly it is released from outside; the service itself never does |
| `ExecutionFindings.ReadyIsReached` | model_scheduler/execution_service.py:503-640 | the record the next input and `CancelledPublisherWritesTwice` start from is reached by the blocks of one execution |
| `ExecutionFindings.CutCancelSucceeds` | model_scheduler/execution_service.py:330-335 | a cancel cut short while a publisher is inside `write_output` leaves evidence and cancel unsettled and ends as a success that carries both the cancel and its reason |
| `ExecutionFindings.CutKeepsIffNoEvidence` | model_scheduler/execution_service.py:330-335 | a cut keeps "evidence plus a cancel means settled" if and only if no evidence had arrived |
| `ExecutionFindings.RaiseStrandsIffNoEvidence` | model_scheduler/execution_service.py:600-601 | an unexpected exception before dispatch leaves the execution unsettled, its task over and its lease as it was, if and only if it was unsettled and no terminal had been reported |
| `ExecutionFindings.RaisedStays` | model_scheduler/execution_service.py:765-784 | in every run it stays so, with its lease neither changed nor released, until a cancel, the end of its session or a terminal report reaches it |
| `Startup.VerifiedStop` | model_scheduler/control_recovery.py:241-257 | proves a container stopped exactly when it is gone, or is this deployment's own and not running, or was stopped and seen not running; otherwise names the first thing that went wrong; sends a stop only to an inspected running one of its own |
| `Startup.Reconcile` | model_scheduler/control_recovery.py:193-216 | good exactly when, in time, every listed container is proven stopped, and otherwise reports the failure of the first that is not; stops go exactly to the running containers of this deployment |
| `Startup.StopsOnlyItsOwn` | model_scheduler/control_recovery.py:241-250 | every stop went to a listed container inspected in time, under its own id, with this deployment's label, running |
| `Startup.ReconcileStartup` | model_scheduler/runtime.py:95-124 | ends with all models unloaded and zero ledgers if and only if every registered model was observed stopped, every listed container proven stopped and no lease held; otherwise the book stays recovering with every reservation unchanged |
| `Jpeg.JpegSize` | model_scheduler/envelope_validator.py:84-104 | the loop ends on every byte string with the result of the marker walk |
| `Jpeg.FindsTheFrame` | model_scheduler/envelope_validator.py:84-104 | for any segments, payloads free to contain frame markers, followed by SOF0 to SOF2, the result is exactly that header's dimensions, or an error exactly when one is zero |
| `Jpeg.FoundIffLaidOut` | model_scheduler/envelope_validator.py:84-104 | the walk answers these dimensions if and only if the bytes are a start marker, segments (impossible lengths 0 and 1 included), a frame header with them, and anything after it |
| `Jpeg.FillByteHidesFrame` | model_scheduler/envelope_validator.py:94-103 | after any segments a fill byte before the frame marker makes the walk go on behind the frame marker read as a length, and with less than 48 KiB of further data find nothing |
| `Jpeg.RestartHidesFrame` | model_scheduler/envelope_validator.py:94-103 | so does a restart marker before the frame marker |

## Left out

- Liveness: poll intervals, fairness and wake-ups; the claims are about safety, plus the queue's ordering bound and the termination of every loop.
- The idempotency store (`idempotency.py`), session tokens and the submit checks before a record exists; they would only add easy members.
- HTTP, sockets, proxies, configuration parsing, status documents and error-code tables.
- Heat decay and floating-point rounding: heat is any table of reals and time is `real`.
- The usage counters, heat values and last-error texts of a runtime.
- Scheduler blocks for load and stop completion, unload, preload, reclaim, TTL sweep, recovery, storage loss and the later part of shutdown appear as the book calls they make, in any order and at any time; what each of them decides is not modelled.
- The order in which the session worker picks among several expired, blocked or draining sessions is free.
- Interactive and session identifiers: session ids and the request ids of session acquires are taken as never equal to a waiting interactive request's id, as `uuid4` makes them.
- BookObject.Book.Release: the token total, the count of requests of unknown usage and the heat that a release adds are not part of the book state.
- Lifecycle.MemberFate: after a recovery has started, a token of the batch is only ever refused; `BookRuns.RecoveryVoidsTokens` is the statement for that case.
- BlobStoreObject.BlobStore.Recover: the report holds sets of ids, not their order.
- BlobAtomic.CrashAtomicity: it does not cover a delete, expiry or abandonment of the in-flight blob, a read error on it, or a rename or publish transaction that is reported failed although it happened; `BlobFindings` states the outcome of each.
- BlobAtomic.CommittedStaysReadable: the same events are excluded; `BlobFindings` states the outcome of each.
- Short writes are not modelled. A cancelled wait whose thread still completes is modelled for the rename and the publish transaction of an upload; every other transaction, rename and unlink either happens and returns or does not happen.
- ExecutionRuns.EffectsHappenOnce: a lease granted to an already settled execution is never recorded and is outside the claim.
- What the cancel side effects do to the lease and the output reservation; that the call can be cut short inside them is modelled. Input read leases and the pending-cleanup set of the execution service.
- Evidence accepted under one generation can settle an execution whose fence was restamped since; acceptance is judged at the moment of the report.
- Jpeg.FindsTheFrame: fill bytes and restart markers are not among the segments; `FillByteHidesFrame` and `RestartHidesFrame` say what they do.
