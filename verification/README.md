# Verified models of the stateful components

This project models the parts of the service whose correctness depends on the order of events, and
proves properties of the models with Dafny 4.11. `dafny verify dfyconfig.toml` checks everything.

## How the models are built

**Concurrent components.** The idempotency protocol, singleflight, the worker pool and the task group
are each modelled in three layers:

- a state value, an `Enabled` predicate and an `Apply` function over events; one event is one section
  under a mutex, one channel, atomic or wait-group operation, or one return of the caller's function;
- runs: `Legal(es)` says that an event sequence is possible and `After(es)` is the state it leads to.
  The theorems hold for every legal run, hence for every interleaving of any number of callers.
  A blocking operation is an event that is enabled only when it is ready;
- a class with the source's object as its fields, whose methods perform the same events as statements. What
  Go reaches by pointer or keeps on a goroutine's stack (call records and channels, submissions, a group's
  tasks) is held in maps beside the source's own fields. Each method of one atomic section states that its
  new state is `Apply` of its old one. The remaining methods chain those sections without interference (a
  whole `Submit`, a worker's loop, `Stop`, `execute`).

**Sequential components.** Token rotation, the sort parser, pagination and retry are methods in the
source's form, proved equal to specification functions, and lemmas about those functions. Token rotation has
a second model, in which any number of refreshes interleave statement by statement over one committed table.

**Inputs.** Clock readings, jitter, the scheduler's and `select`'s choices, contexts, database failures
and the results of user functions are event contents or parameters. JSON is a codec of which only
"decoding undoes encoding" is assumed (`Faithful`), and only where it is needed. Pointers to call records
and channels are identifiers. History that the source does not keep (accepted and finished sequences,
channel logs, token lineages) is carried beside the source's state and never read by it.

| file | component |
|---|---|
| MemoryStore.dfy | the expiring in-memory store, and its refinement of an eagerly purging one |
| IdempotencyExecutor.dfy | `Execute` as a caller's program, its configuration, the straight-line method |
| IdempotencyProtocol.dfy | any number of callers over one store and a clock |
| Singleflight.dfy | calls, followers, panics, cancellation, `Forget` |
| Pool.dfy | bounded queue, workers, `Submit` and the two steps of `Stop` |
| Group.dfy | wait group, semaphore, once-only error, cancellation |
| TokenStore.dfy, TokenUsecases.dfy, TokenRuns.dfy | token table and transactions, the three use cases, whole serial runs |
| TokenInterleavings.dfy | overlapping refreshes and revoke-alls under READ COMMITTED, and their agreement with the serial model |
| GoStrings.dfy, SortParser.dfy, OrderBy.dfy | string functions, `ParseSort`, `Sort.SQL` |
| Integers.dfy, Pagination.dfy, Retry.dfy | 64-bit arithmetic, page windows, the retry loop and its schedule |

## Where the code and its documentation differ

The model follows the code. Each difference has a lemma with a concrete run, or the exact condition
under which the documented property holds.

- Idempotency is documented as "exactly once". Without a fencing token, a key needs each of its holders to finish
  before its lease ends: `OverlapExactlyAtOverrun`, `OverrunLetsTwoRun`. In runs that keep this, fn runs again after
  a value was returned exactly from completeTTL after a Set that took effect, and already from the lock's expiry if
  nothing was saved, because of an encoding failure or a lost Set: `KeyReopens`, `NextRunWaits`,
  `LostSetRunsAgain`.
- A failed fn's lock is documented to be removed. A panic leaves it until it expires, and so does a Delete that is
  lost, whose error is dropped: `AbandonedLockRunsOut`. A Lock that reports an error after taking effect leaves one
  for which no fn ever ran: `LateLockRunsOut`.
- Singleflight is documented to run one execution per key at a time. Any `Forget` of a key in flight allows a
  second: `ForgetLetsTwoRun`. Because a forgotten call's completion deletes by key, it can also evict a newer
  call, so that one `Forget` costs more than one overlap: `TrackLostExactlyWhen`,
  `ForgottenCompletionEvictsNewerCall`. Until the first `Forget` nothing else does: `FirstLossIsForget`.
- `Pool.Submit` is documented to return `ErrPoolClosed` on a stopped pool. That holds when its closed check
  comes after the flag is set; a submitter between the check and the send panics instead:
  `LateSubmitIsRefused`, `SendPanicsExactlyInTheRace`, `SubmitRacingStopPanics`.
- `Retry` documents `MaxInterval` as a cap on every delay. The first delay is never capped
  (`FirstDelayIsNotCapped`), and jitter is added after the cap (`JitterPassesTheCap`). `CapIsSafeExactlyWhen` and
  `CapIsSafeByLastDelay` say for which configurations no call, whatever it meets, has a longer delay.
- `Retry` documents exponential backoff. An interval times the factor that exceeds 64 bits is converted in an
  implementation-dependent way: where it turns negative, as on amd64, the delays collapse to nothing instead of
  growing. `BaseGrows` has the exact condition for the endless schedule, `CallGrowsExactlyWhen` for the steps of
  one call, `LargeFactorCollapses` a run.
- `Group.Submit` is documented to return `ctx.Err()` when the group is cancelled. It returns nothing: a task that is
  dropped or skipped leaves no trace, and Wait can return nil without its fn having run: `EarlyEndSkipsSilently`,
  `NilMeansNoneFailed`.
- `ParseSort`'s comment lists `field_desc` as a direction suffix. The code splits only at `:`, `.` and
  blank, so this is a bare field: `SuffixNeedsSeparator`, `UnderscoreIsNoSuffix`. A lone `-` or `+` is a field
  too: `SignNeedsField`.
- A failed `Refresh` rolls back only when it owns its transaction: `NestedFailureKeepsItsRevocation`.
  If revoking all tokens fails after a detected reuse, the error is dropped: `SwallowedRevokeAll`.
- Revoking all tokens after a detected reuse is documented to run outside the aborted transaction. Inside an
  enclosing one it runs there, and is lost when its owner rolls back on the returned error:
  `NestedReuseNeedsItsOwner`.
- `Refresh` is documented as an atomic, safe rotation. At PostgreSQL's default isolation level two overlapping
  ones can both rotate one token (`ForkExactlyOnOverlap`, `OverlapCanFork`), and one that overlaps a
  revoke-all can leave its user a live token (`LockoutUnlessStraddled`, `StraddlerUnlocks`, `CommitEscapesSweep`).
- `NewResult`'s page count is a ceiling only while the sum in front of the division fits in 64 bits:
  `TotalPagesIsCeiling`.

## Model

| member | source | states |
|---|---|---|
| MemoryStore.MemoryStorage.Lock | pkg/idempotency/memory.go:29-49 | acquires unless an item is there and the time is strictly before its expiry; replaces it by a fresh in-progress item, else changes nothing |
| MemoryStore.MemoryStorage.Set | pkg/idempotency/memory.go:52-62 | overwrites the item with the record and its expiry, other keys untouched |
| MemoryStore.MemoryStorage.Get | pkg/idempotency/memory.go:65-79 | the record if the time is not past its expiry, the expiry instant included |
| MemoryStore.MemoryStorage.Delete | pkg/idempotency/memory.go:82-88 | removes exactly this key |
| MemoryStore.LazyExpiryIsInvisible | pkg/idempotency/memory.go:29-88 | every operation sequence at nondecreasing times is answered as by a store that drops items when they expire |
| MemoryStore.BoundaryInstant | pkg/idempotency/memory.go:34-37 | Lock and Get disagree about an item in exactly its expiry instant, and Lock never evicts an item it counts as occupied |
| IdempotencyExecutor.ConfiguredLeases | pkg/idempotency/executor.go:21-67 | both TTLs are positive for any options, the last positive setting of each wins, and without one they are two minutes and a day |
| IdempotencyExecutor.Executor.constructor | pkg/idempotency/executor.go:58-72 | the option loop yields that configuration |
| IdempotencyExecutor.Executor.Execute | pkg/idempotency/executor.go:83-151 | the straight-line code takes exactly the steps that the protocol interleaves, in that order, on every path, each storage call failing or not, before or after its effect |
| IdempotencyExecutor.EmptyKeyAlone | pkg/idempotency/executor.go:86-89 | without a key the whole call returns fn's value, error or panic, and the store stays as it was |
| IdempotencyExecutor.AnsweredByCheck | pkg/idempotency/executor.go:91-114 | when the check fails or finds a record that has not run out, the answer is the check error, a conflict, the zero value, the decoded value or a bad-cache error, and nothing changes |
| IdempotencyExecutor.AnsweredByFn | pkg/idempotency/executor.go:116-150 | otherwise the answer is the lock error, a conflict, or what fn's end, the encoder and the Set decide |
| IdempotencyProtocol.MutualExclusion | pkg/idempotency/executor.go:91-150 | in every run that is leased for a key, at most one of its callers is between its Lock and its Set, Delete or abandonment, whatever holders of other keys do |
| IdempotencyProtocol.KeylessPassesThrough | pkg/idempotency/executor.go:86-89 | in every run a caller without a key never changes the store, and its call ends in the step in which its fn does, with fn's own result |
| IdempotencyProtocol.CheckDecides | pkg/idempotency/executor.go:91-114 | in every run the answer of a caller's check, an undecodable record included, and that it changes nothing |
| IdempotencyProtocol.FnEndDecides | pkg/idempotency/executor.go:125-137 | in every run how a call goes on after fn's value, error or panic, and after an encoding failure |
| IdempotencyProtocol.SavedValueIsReplayed | pkg/idempotency/executor.go:97-150 | after a save, every step of any caller of the key before the record expires returns the saved value, a conflict or a storage error, and never starts fn; leases of this key matter up to the save only |
| IdempotencyProtocol.SecondRunWaitsForExpiry | pkg/idempotency/executor.go:117-150 | a second execution for a saved key starts no earlier than completeTTL after the save |
| IdempotencyProtocol.SavedValueIsFnResult | pkg/idempotency/executor.go:125-145 | the value saved, and so the value replayed, is what the saving caller's own fn returned earlier in the run |
| IdempotencyProtocol.SaveSettles | pkg/idempotency/executor.go:133-150 | what a Set that takes effect leaves: a completed record that decodes to the value, expiring completeTTL later, with no holder of the key; and what its caller gets |
| IdempotencyProtocol.FailureFreesTheKey | pkg/idempotency/executor.go:127-131 | after a failed fn's Delete takes effect its caller has fn's error, and the key stays free until someone locks it: every Get misses and the first Lock succeeds |
| IdempotencyProtocol.AbandonedLockRunsOut | pkg/idempotency/executor.go:125-147 | after a panic, an encoding failure, a lost Set or a lost Delete the lock stays and no caller of the key enters fn until its expiry, and from that instant the first Lock succeeds |
| IdempotencyProtocol.LateLockRunsOut | pkg/idempotency/executor.go:116-120 | a Lock that takes effect and reports an error leaves a lock, without a run of fn, that blocks the key exactly until its expiry |
| IdempotencyProtocol.KeyReopens | pkg/idempotency/executor.go:116-150 | however a holder ended, the next Lock of its key that is answered succeeds if and only if the key has reopened: completeTTL after an effective Set, at once after an effective Delete, at the lock's expiry otherwise |
| IdempotencyProtocol.NextRunWaits | pkg/idempotency/executor.go:116-150 | in a run leased for the key, after fn came back it starts again for the key only once the key has reopened from that caller's end |
| IdempotencyProtocol.LostSetRunsAgain | pkg/idempotency/executor.go:145-147 | a leased run without panic or encoding failure in which two callers' fns return a value for one key |
| IdempotencyProtocol.OverlapExactlyAtOverrun | pkg/idempotency/memory.go:33-38 | while one caller holds a key, another's Lock succeeds if and only if the holder's lease has run out |
| IdempotencyProtocol.OverrunLetsTwoRun | pkg/idempotency/executor.go:116-126 | a run without the lease assumption with two callers inside fn for one key |
| SingleflightModel.ExactlyOneReply | pkg/routine/singleflight.go:79-92 | in every run a channel belongs to one call, holds nothing while fn runs, and exactly that call's one reply once it is answered |
| SingleflightModel.NoSendBlocks | pkg/routine/singleflight.go:181-188 | every send that a completed call still owes, the DoChan leader's included, finds room |
| SingleflightModel.Agreement | pkg/routine/singleflight.go:94-141 | leader and followers get the same value and error; the leader's shared flag is true exactly when a follower joined |
| SingleflightModel.RepliesCarryFnResult | pkg/routine/singleflight.go:165-193 | every reply carries what fn returned, or zero and the panic error, and a call's fn ends at most once |
| SingleflightModel.PanicIsReported | pkg/routine/singleflight.go:165-173 | after a panic every reply is the zero value and an error that names the panic |
| SingleflightModel.CanComplete | pkg/routine/singleflight.go:165-179 | a call whose fn ended can complete exactly until it has |
| SingleflightModel.AnsweredInTime | pkg/routine/singleflight.go:94-192 | after its completion some delivery of a call is enabled until it is answered, which takes exactly one delivery more than callers had joined, whatever happens in between |
| SingleflightModel.OneExecutionPerKey | pkg/routine/singleflight.go:78-99 | for a key never forgotten, the map entry is present exactly while one execution is in flight, and two never overlap |
| SingleflightModel.FirstLossIsForget | pkg/routine/singleflight.go:148-152 | while every execution in flight for a key is the one in the map, an event changes that if and only if it is Forget of the key in the map |
| SingleflightModel.TrackLostExactlyWhen | pkg/routine/singleflight.go:148-179 | in every reachable state, the execution in the map is dropped while in flight if and only if its key is forgotten or another call of the key completes, and then the key was forgotten before |
| SingleflightModel.ForgetLetsTwoRun | pkg/routine/singleflight.go:78-152 | from every reachable state, Forget of a key in the map and the next Do of it give two executions in flight |
| SingleflightModel.ForgottenCompletionEvictsNewerCall | pkg/routine/singleflight.go:175-179 | a run with one Forget in which the old call's completion evicts the newer call and two later executions overlap |
| SingleflightModel.Singleflight.EnterDo | pkg/routine/singleflight.go:78-97 | Do's section under the mutex: join the call in the map or start one |
| SingleflightModel.Singleflight.EnterDoChan | pkg/routine/singleflight.go:119-132 | DoChan's section under the mutex |
| SingleflightModel.Singleflight.ForgetKey | pkg/routine/singleflight.go:148-152 | Forget's section, keeping the invariant |
| SingleflightModel.Singleflight.CompleteCall | pkg/routine/singleflight.go:175-179 | execute's deferred section: delete by key, take the channels |
| SingleflightModel.Singleflight.Dispatch | pkg/routine/singleflight.go:181-188 | the sending loop gives every taken channel exactly the call's reply |
| SingleflightModel.Singleflight.Execute | pkg/routine/singleflight.go:155-194 | execute without interference: everyone who had joined has fn's result, the key is off the map, the leader's flag is exact |
| PoolModel.Conservation | pkg/routine/pool.go:108-178 | in every run tasks start in acceptance order, each accepted task is exactly once queued, running or finished, and the queue bound holds |
| PoolModel.StopDrains | pkg/routine/pool.go:180-189 | when Stop has returned, every accepted task has finished exactly once and nothing else has |
| PoolModel.StopReturnedExactlyWhen | pkg/routine/pool.go:183-189 | Stop counts as returned exactly when its wait for the workers has ended |
| PoolModel.WorkShrinks | pkg/routine/pool.go:109-136 | after the close each worker event lowers the remaining work and nothing raises it |
| PoolModel.NeverStuck | pkg/routine/pool.go:109-115 | after the close some worker can move until no work is left, and then Stop can return |
| PoolModel.DrainBound | pkg/routine/pool.go:180-189 | at most the remaining work many worker events follow the close, however the run goes on |
| PoolModel.SendAnswers | pkg/routine/pool.go:159-177 | on an open channel a discarding Submit is answered at once, accepted or ErrQueueFull; a blocking one sends exactly when there is room and otherwise ends with its context |
| PoolModel.RefusalsHaveCauses | pkg/routine/pool.go:145-177 | in every run ErrPoolClosed comes after Stop set the flag, a context error from the submission's own context, and ErrQueueFull from a discarding pool only |
| PoolModel.LateSubmitIsRefused | pkg/routine/pool.go:146-148 | a submission checked after the flag is set ends in ErrPoolClosed |
| PoolModel.SendPanicsExactlyInTheRace | pkg/routine/pool.go:145-178 | a send panics if and only if the channel was closed after its submitter's closed check, and then accepts nothing |
| PoolModel.SubmitRacingStopPanics | pkg/routine/pool.go:183-187 | such a run exists under either strategy |
| PoolModel.ConfiguredPool | pkg/routine/pool.go:36-97 | the last strategy and the last positive queue size are in force, Block and 100 without one, and the worker count is the argument or 1 |
| PoolModel.Pool.constructor | pkg/routine/pool.go:82-106 | sanitised worker count and queue size, all workers idle |
| PoolModel.Pool.SelectSend | pkg/routine/pool.go:159-177 | the select of both strategies, panic on a closed channel included |
| PoolModel.Pool.Submit | pkg/routine/pool.go:145-178 | a whole Submit: which of the outcomes, and the queue extended exactly on acceptance |
| PoolModel.Pool.WorkerLoop | pkg/routine/pool.go:109-115 | on a closed channel a worker finishes everything queued, in order, and exits |
| PoolModel.Pool.Stop | pkg/routine/pool.go:183-189 | from any valid state Stop ends with every accepted task finished once, also when called again |
| GroupModel.GroupAccounting | pkg/routine/group.go:85-121 | the wait count, the semaphore's tokens and the limit on running fns, and that the release never blocks, in every run |
| GroupModel.SlotFreeExactlyWhen | pkg/routine/group.go:16-96 | in every run a waiting submitter can get in exactly if there is no positive limit or fewer slots than that are held, and can be dropped exactly if there is one and the context has ended |
| GroupModel.FirstErrorWins | pkg/routine/group.go:124-134 | the first error recorded stays the result and is the error of a task that failed |
| GroupModel.ErrorCameFromFn | pkg/routine/group.go:99-133 | in every run the recorded error is one that a submitted fn returned, or the panic message of one |
| GroupModel.ErrorNamesItsCause | pkg/routine/group.go:99-133 | spelled out, the recorded error is the one of some return, or carries the value of some panic in its text |
| GroupModel.NoFnAfterCancel | pkg/routine/group.go:112-115 | a task whose context check follows the cancellation never runs fn |
| GroupModel.NilMeansAllSucceeded | pkg/routine/group.go:138-144 | when Wait would return nil and the context did not end early, every submitted fn ran and returned nil |
| GroupModel.NilMeansNoneFailed | pkg/routine/group.go:89-144 | when Wait would return nil, each task succeeded, or was skipped or dropped because the context had ended early |
| GroupModel.EarlyEndSkipsSilently | pkg/routine/group.go:77-115 | a run under any limit in which the context ends early, the submitted fn never runs, and Wait would return nil |
| GroupModel.EarlyEndHasCause | pkg/routine/group.go:54-60 | a context counts as ended early only in runs in which its parent or the timeout ended it |
| GroupModel.ContextEndedExactlyWhen | pkg/routine/group.go:124-144 | in every run the context has ended exactly if its parent or timeout ended it, a recorded error cancelled it, or Wait did |
| GroupModel.ErrorMeansSomeFailed | pkg/routine/group.go:124-144 | Wait returns an error if and only if some task failed or panicked |
| GroupModel.GroupNeverStuck | pkg/routine/group.go:85-144 | while the wait count is positive some submitter or goroutine can move, and at zero Wait can return |
| GroupModel.TaskEventsShrinkWork | pkg/routine/group.go:85-134 | each step of a submitter or goroutine lowers the work ahead, and only Submit adds some |
| GroupModel.GroupStepBound | pkg/routine/group.go:138-139 | however a run goes on, its task events are at most the work at hand plus seven for each new submission |
| GroupModel.Group.EnterSubmit | pkg/routine/group.go:85-86 | Submit's wg.Add, before its select |
| GroupModel.Group.SelectSlot | pkg/routine/group.go:89-96 | Submit's select, with Go's free choice when both cases are ready |
| GroupModel.Group.RecordError | pkg/routine/group.go:124-134 | the store inside errOnce.Do, before the cancel |
| GroupModel.Group.CheckAndRun | pkg/routine/group.go:98-120 | a goroutine's body without interference: skip, success, or first error recorded and context cancelled |
| GroupModel.Group.Leave | pkg/routine/group.go:106-109 | slot given back and count lowered |
| GroupModel.Group.WaitForAll | pkg/routine/group.go:138-144 | Wait cancels the context and returns the recorded error |
| TokenStore.Database.Begin | infrastructure/database/postgres/tx_manager.go:28-35 | an enclosing transaction is reused, otherwise one starts from what is committed, or fails to start |
| TokenStore.Database.End | infrastructure/database/postgres/tx_manager.go:28-38 | an owned transaction commits on nil and rolls back otherwise, and never commits after a failed statement; a reused one is left alone |
| TokenStore.AuthRepository.FindTokenByValue | internal/auth/repository/postgres/repository.go:29-38 | the row in the transaction's view, not found, or a database error |
| TokenStore.AuthRepository.CreateToken | internal/auth/repository/postgres/repository.go:40-45 | inserts, refused for a stored token |
| TokenStore.AuthRepository.RevokeToken | internal/auth/repository/postgres/repository.go:47-59 | revokes one row, not found when none matches |
| TokenStore.AuthRepository.RevokeAllUserTokens | internal/auth/repository/postgres/repository.go:61-69 | revokes every unrevoked row of the user and no other |
| TokenRuns.StatementsMean | internal/auth/repository/postgres/repository.go:29-69 | what each of the four statements answers and changes, failures included |
| TokenUsecases.RefreshUsecase.Execute | internal/auth/usecase/refresh.go:49-123 | database and result equal the specification, on every failure path, nested or not |
| TokenUsecases.LoginUsecase.Execute | internal/auth/usecase/login.go:44-82 | checks in the source's order, then one insert |
| TokenUsecases.LogoutUsecase.Execute | internal/auth/usecase/logout.go:24-29 | one revocation by hash |
| TokenRuns.RefreshSucceedsExactlyWhen | internal/auth/usecase/refresh.go:60-110 | exactly when a Refresh succeeds, and exactly which rows it then changes |
| TokenRuns.RefreshErrors | internal/auth/usecase/refresh.go:49-120 | exactly when a Refresh reports invalid input, a missing, an expired token or a missing user, and what an internal error presupposes |
| TokenRuns.LoginSucceedsExactlyWhen | internal/auth/usecase/login.go:44-82 | exactly when a Login succeeds, the one row it then adds, that a refused one adds none, and exactly when the refusal is invalid input or invalid credentials |
| TokenRuns.LogoutSucceedsExactlyWhen | internal/auth/usecase/logout.go:24-29 | exactly when a Logout succeeds, the one row it then revokes, and which error it reports otherwise |
| TokenRuns.FailedRefreshRollsBack | internal/auth/usecase/refresh.go:112-120 | a failed Refresh leaves the table as it was, except that a revoked token revokes its user's rows |
| TokenRuns.NestedFailureKeepsItsRevocation | infrastructure/database/postgres/tx_manager.go:29-32 | in an enclosing transaction a failed Refresh that detects no reuse changes nothing if its reading stopped it, leaves the old token revoked if the code gave up after the revocation, and dooms the transaction if a statement failed |
| TokenRuns.NestedReuseNeedsItsOwner | internal/auth/usecase/refresh.go:112-117 | a reuse detected inside an enclosing transaction commits nothing by itself; in the end the user is locked out if and only if the owner commits and the revoke-all worked, or no live token was committed before |
| TokenRuns.IssuedTokenRefreshes | internal/auth/usecase/refresh.go:91-108 | the token returned by a Login or Refresh can itself be refreshed exactly until its lifetime is over |
| TokenRuns.LoggedOutTokenCountsAsReuse | internal/auth/usecase/logout.go:24-29 | refreshing a logged-out token is answered as a reuse |
| TokenRuns.OneLiveTokenPerLogin | internal/auth/usecase/refresh.go:76-103 | in every serial run the lineage of a login has at most one unrevoked token |
| TokenRuns.TokenRefreshesOnce | internal/auth/usecase/refresh.go:66-79 | each stored token yields at most one successful Refresh in a run |
| TokenRuns.OnlyLoginUnlocks | internal/auth/usecase/login.go:69-76 | a locked-out user gets an unrevoked token again if and only if the event is that user's successful Login |
| TokenRuns.ReuseLocksUserOut | internal/auth/usecase/refresh.go:66-71 | after a detected reuse all of the user's tokens are revoked and no Refresh with any of them succeeds until the next Login (section 5.2.2.3 of RFC 6819) |
| TokenRuns.SwallowedRevokeAll | internal/auth/usecase/refresh.go:112-117 | with the dropped error, the user is locked out if and only if the revoke-all worked or no live token was left |
| TokenInterleavings.ForkExactlyOnOverlap | internal/auth/usecase/refresh.go:61-110 | over all interleavings, two answered Refreshes of one token both commit if and only if both read its row before any revocation of it was visible; with no other revocation, the second commits exactly when it read before the first committed |
| TokenInterleavings.OverlapCanFork | internal/auth/usecase/refresh.go:61-110 | from every reachable state in which two Refreshes have read the same valid, unlocked row, both can commit and leave two live tokens of one lineage |
| TokenInterleavings.TwoLiveTokensMeanOverlap | internal/auth/usecase/refresh.go:76-103 | in every interleaving, two live tokens of one lineage come with two committed Refreshes of one of its tokens, each of which read before the other committed |
| TokenInterleavings.LockoutUnlessStraddled | internal/auth/usecase/refresh.go:112-117 | in every interleaving, a revoke-all that took effect leaves its user no live token until the next login, unless a Refresh of that user read before it took effect and committed after it started |
| TokenInterleavings.StraddlerUnlocks | internal/auth/usecase/refresh.go:112-117 | any Refresh of the user that has read its unlocked row when a revoke-all takes effect can still commit and leave a live token |
| TokenInterleavings.CommitEscapesSweep | internal/auth/usecase/refresh.go:76-117 | a Refresh that holds its row's lock makes a started revoke-all wait, can commit meanwhile, and its new token stays live when the revoke-all has taken effect |
| TokenInterleavings.CommitReady | internal/auth/usecase/refresh.go:101-115 | in every reachable state a Refresh that inserted its token can commit and a refused one can start its revoke-all |
| TokenInterleavings.AbortLeavesNoTrace | internal/auth/usecase/refresh.go:60-120 | in every reachable state a Refresh that has not ended can give up, which leaves the table as it was and no lock |
| TokenInterleavings.TicksArePositions | internal/auth/usecase/refresh.go:60-120 | the recorded ticks are the positions of the SELECT, COMMIT and revoke-all events in the run |
| TokenInterleavings.ReadAgrees | internal/auth/usecase/refresh.go:61-74 | what the SELECT tells a Refresh decides its answer as in the sequential use case |
| TokenInterleavings.AloneAgrees | internal/auth/usecase/refresh.go:60-110 | the statements of a Refresh run without interference change the table as the sequential use case does |
| TokenInterleavings.SingleStatementsAgree | internal/auth/usecase/login.go:69-76 | Login and Logout as one event each change the table as the sequential use cases do |
| TokenInterleavings.SweepAgrees | internal/auth/repository/postgres/repository.go:61-69 | a revoke-all that nobody disturbs is the sequential statement |
| SortParser.ParseSort | pkg/pagination/sort.go:46-102 | the token loop and default fallback compute the specification |
| SortParser.RoundTrip | pkg/pagination/sort.go:34-92 | every nonempty list of criteria, each printed in any notation it fits, parses back to itself |
| SortParser.CanonicalForm | pkg/pagination/sort.go:46-101 | for every query, printing the parsed criteria with signs and parsing again gives the same criteria |
| SortParser.SuffixNeedsSeparator | pkg/pagination/sort.go:73-85 | a plain field, one character and desc are read as that field descending if and only if the character is one of the three separators; otherwise the whole token is a field |
| SortParser.UnderscoreIsNoSuffix | pkg/pagination/sort.go:73-85 | the query field_desc sorts ascending by a field of that whole name |
| SortParser.SignNeedsField | pkg/pagination/sort.go:58-71 | a sign alone is a field of that name, and with anything after it a direction |
| SortParser.AnyCapitalisation | pkg/pagination/sort.go:77-82 | after a separator exactly the capitalisations of desc mean descending |
| SortParser.DefaultTakenExactlyWhen | pkg/pagination/sort.go:46-102 | the default field is used, descending only if its order says so, exactly for queries no part of which names a field |
| OrderBy.SQL | pkg/pagination/sort.go:118-143 | the loop prints the kept clauses joined by commas, nothing for an empty whitelist |
| OrderBy.PrintedParts | pkg/pagination/sort.go:123-140 | each printed part is a whitelisted column followed by DESC exactly if the first criterion for that column asks for it, and by ASC otherwise |
| GoStrings.JoinMore | pkg/pagination/sort.go:142 | the printed parts are joined with the separator between any two of them and nowhere else |
| OrderBy.KeptAreFirstOccurrences | pkg/pagination/sort.go:123-140 | exactly the first clause of each column is kept, in order of first occurrence, with its first direction |
| OrderBy.KeptAreSafe | pkg/pagination/sort.go:104-140 | kept columns are whitelist values and pairwise distinct |
| OrderBy.OrderByMeaning | pkg/pagination/sort.go:123-140 | whatever the column comparison, the kept clauses compare any two rows as the client asked: the first whitelisted criterion on which they differ decides, reversed exactly for descending |
| OrderBy.SameSortedResults | pkg/pagination/sort.go:118-143 | a row list is sorted by the printed clauses if and only if it is sorted as the client asked, and by all whitelisted criteria |
| Pagination.Params.Normalize | pkg/pagination/pagination.go:30-40 | defaults and cap, and no change to parameters already in range |
| Pagination.OutOfRangeValues | pkg/pagination/pagination.go:30-45 | a page below 1 is the first page, whose offset is 0; a size below 1 is 20 and one above 100 is 100 |
| Pagination.NewResult | pkg/pagination/pagination.go:78-98 | the fields of the result, from its own normalised copy |
| Pagination.TotalPagesIsCeiling | pkg/pagination/pagination.go:81-84 | the page count is the exact ceiling if and only if the sum does not overflow |
| Pagination.WindowsAreNonempty | pkg/pagination/pagination.go:42-45 | no window of an existing page wraps, and each holds a row |
| Pagination.PagesPartitionRows | pkg/pagination/pagination.go:42-84 | every row is in the window of exactly one of the pages 1..TotalPages |
| Pagination.HasNextIsExact | pkg/pagination/pagination.go:86-87 | HasNext exactly when a row lies at or beyond the end of the window, and pages exist exactly when rows do |
| Retry.RetryConfig.ApplyDefaults | pkg/routine/retry.go:36-49 | invalid fields get the defaults, valid ones stay |
| Retry.Retry | pkg/routine/retry.go:66-120 | calls, waits and result of the loop equal the specification |
| Retry.AttemptsAndResult | pkg/routine/retry.go:78-119 | fn runs at most MaxAttempts times, all calls but the last failed, and nil is returned exactly when the last call returned nil |
| Retry.ResultCameFrom | pkg/routine/retry.go:78-119 | which result comes back: the last call's own, if it is nil, final or not retried; the context's error if a wait or the next attempt met its end; and all calls before failed with errors that may be retried |
| Retry.BaseGrows | pkg/routine/retry.go:111-116 | from an initial interval within the cap, the base intervals of the endless schedule never shrink and never pass it if no product overflows 64 bits or overflows saturate; where overflows collapse, if and only if none overflows |
| Retry.CallGrowsExactlyWhen | pkg/routine/retry.go:78-116 | the first m steps of a call's schedule shrink nothing, where overflows collapse, if and only if none of their m products overflows |
| Retry.NextGrowsExactlyWhen | pkg/routine/retry.go:112-115 | one step of the schedule does not shrink if and only if its product fits 64 bits or the machine's conversion gives at least the interval |
| Retry.ConvertedNegative | pkg/routine/retry.go:112 | a negative product loses its fraction, down to the smallest 64-bit integer |
| Retry.LargeFactorCollapses | pkg/routine/retry.go:112-115 | with default intervals and a factor of 10^12, every interval after the first is negative where overflows give the smallest integer |
| Retry.WaitOfRun | pkg/routine/retry.go:96-103 | each wait is its base interval plus less than a quarter of it unless that sum wraps, exactly the base without jitter |
| Retry.TotalWaitBound | pkg/routine/retry.go:96-116 | total waiting is at most (MaxAttempts - 1) * 5/4 * MaxInterval for any draws, overflows included |
| Retry.FirstDelayIsNotCapped | pkg/routine/retry.go:23-25 | without jitter every delay is within MaxInterval if and only if InitialInterval is |
| Retry.CapHoldsExactlyWhen | pkg/routine/retry.go:23-103 | for a call with given outcomes, with or without jitter, every possible draw keeps every delay within MaxInterval if and only if each of its base intervals does with its largest draw |
| Retry.CapHoldsByLastWait | pkg/routine/retry.go:23-116 | without overflow, that is if and only if InitialInterval and the last base interval of the call with its largest draw are within it |
| Retry.CapIsSafeExactlyWhen | pkg/routine/retry.go:23-116 | a configuration keeps every delay of every call, whatever outcomes, contexts and draws it meets, within MaxInterval if and only if each of the MaxAttempts - 1 base intervals fits with its largest draw, or no error is ever retried |
| Retry.CapIsSafeByLastDelay | pkg/routine/retry.go:23-116 | without overflow, with some error retried and two attempts or more, that is if and only if InitialInterval fits and base interval MaxAttempts - 2 fits with its largest draw |
| Retry.JitterPassesTheCap | pkg/routine/retry.go:97-103 | a run whose second delay is 6.25 seconds minus a nanosecond under a MaxInterval of five |

## Left out

- TokenRuns.OneLiveTokenPerLogin: for serial transactions, since the code does not prevent overlap (`TokenInterleavings.TwoLiveTokensMeanOverlap` says what overlap can do); deleting a user, which cascades to the tokens, is not an event.
- TokenInterleavings.LockoutUnlessStraddled: the revoke-all picks its rows at once and locks none while it waits for others, which allows more interleavings than PostgreSQL does; equal random tokens, deadlocks and lost connections during a commit are not events.
- MutualExclusion: for runs in which the key's holders finish within their leases; the code has no fencing token.
- NilMeansAllSucceeded: for groups in which every Submit comes before Wait returns, as a wait group demands.
- Retry.BaseGrows: the product of interval and factor is exact before it is truncated; float64 rounding, infinities and NaN are not modelled.
- SendPanicsExactlyInTheRace: the panic is an outcome of the submission; what the submitter's process does with it is not modelled.
- Pool.Submit, Pool.WorkerLoop, Pool.Stop and the other whole-operation methods are sequential; interference between their atomic parts is covered by the theorems about runs.
- Singleflight.Execute: call records and channels are values under identifiers, so aliasing of Go pointers is represented by equal identifiers only.
- The Redis store, a wrapper over calls with the same contract as the in-memory one; storage errors are modelled for any store, with and without effect.
- A nil record passed to the store's Set, and `runtime.Goexit` inside user functions.
- Record and row columns that nothing reads: token identifiers and creation times.
- JSON, SHA-256, bcrypt, JWT and random generation: outcomes and values are inputs.
- Panic handlers, metrics, stack traces and durations: handlers are taken to return.
- Cursor pagination, the HTTP client, interceptors, user management, configuration, wiring and generated code.
- `Params.Limit`, a field access, and the group's timeout, which is one way for the context to end.
