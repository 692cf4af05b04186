# Update, limiter and coordination protocols: a verified model

This project models the parts of the desktop app and its daemon whose correctness does not show in any
single function, and proves what they promise.

**The update transaction.** A desktop update snapshots app and data, stages a candidate beside the app,
exchanges them by rename, verifies, and commits or rolls back; each phase is made durable in a journal.
`Disks` models the file system as a map from paths to entries, `UpdatePlan` the places a transaction uses,
`UpdateMachine` the helper process as a machine with one durable operation per step. Each step returns,
throws, or is cut short by a crash, and whenever no helper runs a new one may be started. `UpdateSafety`
holds the inductive invariant, proved over an abstract table of trees that the disk refines; `UpdateRuns` and
`UpdateConservation` hold what follows for whole runs, `UpdateOrder` which operations have been performed when, and
`UpdateOutcomes` how a helper ends after an error or without one. `UpdateHelper` is the same protocol as imperative code
over a mutable disk and journal; every state that code reaches is one of the machine's. `Exclusion` is about
any number of processes that try to begin an update at once, and `HelperAsExecutor` shows that the helper is the
executor there.

**The daemon.** `RateLimiter` is the token bucket over real numbers, as an object and as runs of calls and
sweeps. `SchedulerLease` is the Redis lease of several replicas as timed steps. `UpdateGate` is the barrier
that an update closes. `Handoff` is the store that receives tasks and inputs from other agents, statement by
statement with rollback, and over runs of any number of processes. `Messages` says what a message says and writes, and `Turns`
folds a conversation into turns.

**Helpers of the desktop app.** `DataCheck` compares the databases before and after an update, `EnvFile`
reads and extends the .env file, `Text` is the trimming that several modules rely on, and `Options` holds the
type of a value that may be missing.

## What was found

Most promises hold as documented. These do only under a condition, which is proved exact where stated:

- *A thrown commit.* If the journal write of 'complete' throws, 'failed' is published over the installed
  candidate. `CommitThrewExactly` shows these are the only runs in which 'failed' does not mean untouched.
- *Thrown writes and noted errors.* The lock protocol excludes other updates except after four kinds of step:
  a publication that throws after its rename, a write of 'complete' that throws, a write of 'rolled-back' that
  throws after removing the lock, and an error noted in an ended transaction whose lock is free or taken by a
  caller. `ExclusionExactly` shows that these, and no others, make it possible to lose a live transaction;
  `LostAfterPublication`, `LostAfterWrite`, `LostAfterCommit` and `LostAfterNote` lose one from the beginning.
  `UnsoundOperations` names the operations of the helper that are such steps. Its own live journal loses the lock
  only by the thrown 'rolled-back' (`StepKeepsLockExactly`).
- *Stranded helpers.* A helper can end in an intermediate phase if a journal write throws in a catch block.
  `HelperOutcomeExactly` says which writes do that.
- *Stale locks.* A process that dies, or fails to remove active.lock, while it holds it and no transaction is
  live blocks every later update. `OrphanedExactly` says when.
- *Eviction.* Idle eviction gives tokens back early if a bucket can be evicted before it has refilled. For a
  whole number of tokens `EvictionIsUnobservableExactly` gives the condition.
- *A late DEL.* The release of the scheduler lease reads and deletes in two commands. `LateDeleteExactly` and
  `LateDeleteEvictsExactly` show that another replica's lease can be deleted in between exactly when the lease
  has expired before the DEL.
- *A stale view.* An input is checked against a view that was read before the transaction began, so two
  processes can append two answers to one question, exactly when the second relies on a view from before the
  first (`SecondAnswerExactly`). Each input is still appended at most once.
- *An error after COMMIT.* A repeated submission or input whose task the client may no longer see fails inside
  the try block after COMMIT; the ROLLBACK then throws in place of the intended error. The store is not affected.
  `SubmitRollbackFailsExactly` and `InputRollbackFailsExactly` say when.
- *NULL in a key.* The data check reports a row whose key contains NULL as missing, even in an unchanged
  database (`NullKeyFails`).

## Hypotheses

- Generated ids are new: an id ends no name among the inputs, and a recovery run's suffix ends no name on
  disk. If recovery were to draw a suffix that is already in use, the model makes no step.
- Only verification raises an error that forbids restoring. It may change the data tree and the log files in
  the backup directory, and nothing else.
- The client that prepared an update may write its data until a helper has waited for it. After that nobody
  but the helper and verification writes the trees: a client that starts while an update is pending opens
  no data.
- A rename is atomic and durable, a copy may stop anywhere, leaving anything below its target.
- A journal write may throw or be cut short before or after its rename, and before or after removing the lock;
  where a statement needs that it does not, the statement says so.
- The limiter's clock does not go back, and its settings are positive.

## Model

| member | source | states |
|---|---|---|
| Paths.ContainedIsPrefix | apps/desktop/src/update-transaction.ts:20 | the `path.relative` test for containment is true exactly when one path, segment by segment, begins with the other; a segment that merely starts with two dots does not count as climbing out |
| Paths.ValidatePaths | apps/desktop/src/update-transaction.ts:21-24 | the nested loops accept exactly the lists in which no path equals, contains or lies in another |
| UpdatePlan.PlacesSeparate | apps/desktop/src/update-transaction.ts:33-34 | four separate input paths and generated ids keep all places of a transaction (app, data, candidate, both backups, staged, displaced, and the restored and failed trees of every recovery run) pairwise outside one another |
| UpdatePlan.FreshPlaceEmpty | apps/desktop/src/update-transaction.ts:72-76 | an id that ends no name on disk names places where nothing stands |
| UpdateRuns.BeginPrepares | apps/desktop/src/update-transaction.ts:33-34 | separate paths and a new id make the backup, staged and displaced places of a prepared transaction empty, also with its backup directory there |
| Disks.CopyTreeAdds | apps/desktop/src/update-transaction.ts:43-46 | a completed copy to a clear target makes the target's tree equal to the source's |
| Disks.CopyTreeFrame | apps/desktop/src/update-transaction.ts:43-46 | a copy writes below its target only |
| Disks.MoveTreeAdds | apps/desktop/src/update-transaction.ts:55 | after a rename the target holds the tree that the source held |
| Disks.MoveTreeClears | apps/desktop/src/update-transaction.ts:55 | after a rename nothing stands at the source |
| Disks.MoveTreeFrame | apps/desktop/src/update-transaction.ts:55 | a rename writes below its source and its target only |
| UpdateSafety.TargetIsClear | apps/desktop/src/update-transaction.ts:51-57 | whenever `executeUpdate` or `recoverUpdate` is about to copy or rename, nothing stands at the target |
| UpdateSafety.DiskRefinesTable | apps/desktop/src/update-transaction.ts:48-80 | whatever an operation does to the disk, finished, failed or torn, it does to the table of eleven trees: only the trees it names change |
| UpdateSafety.StepKeepsInv | apps/desktop/src/update-transaction.ts:48-80 | the invariant that ties the durable phase to the trees at every place survives every operation, however it ends: it returns, throws, or is cut short by a crash; while the client of a prepared update is waited for, the data it leaves become those to start from |
| UpdateRuns.RunKeepsInv | apps/desktop/src/update-transaction.ts:48-80 | the invariant holds in every state of every run, over any number of crashes, failures and helpers started |
| UpdateRuns.CrashSafety | apps/desktop/src/update-transaction.ts:48-80 | in every reachable state 'rolled-back' means app and data are the trees the update started from, 'complete' means the app is the candidate and verification returned, 'failed' means both are untouched, except when the write of 'complete' threw: then the app is the candidate |
| UpdateRuns.RestoresWhatPreflightFound | apps/desktop/src/update-transaction.ts:48-62 | the trees meant are those in place when `executeUpdate` starts and which it snapshots, after the client has quit: 'rolled-back' restores exactly these, 'failed' has left them alone |
| UpdateRuns.CommitThrewExactly | apps/desktop/src/update-transaction.ts:57-62 | the exception in `CrashSafety` applies exactly to the runs in which the journal write of 'complete' threw |
| UpdateRuns.ThrownCommitPublishesFailed | apps/desktop/src/update-transaction.ts:57-62 | after any thrown write of 'complete', the two writes that follow publish 'failed' while the candidate is installed, so the exception is real |
| UpdateRuns.BackupsAreImmutable | apps/desktop/src/update-transaction.ts:52-53 | from any state with 'backed-up' on disk, both backups equal the originals in every later state, and the journal never goes back to an earlier phase |
| UpdateRuns.HelperComesToRest | apps/desktop/src/update-transaction.ts:48-80 | every operation, however it ends, brings the helper nearer to its end: a rank from 29 down to 0 falls |
| UpdateRuns.RecoveryCompletes | apps/desktop/src/update-transaction.ts:66-80 | from whatever was left, one undisturbed recovery run of at most 29 operations ends, and the journal means what it says: 'failed' from the three early phases with app and data untouched, the same phase from a terminal one, and otherwise 'rolled-back' with app and data equal to the originals |
| UpdateRuns.EndedStaysEnded | apps/desktop/src/update-transaction.ts:67 | once the phase is terminal and the helper at rest, no further helper, to execute or to recover, changes the disk or the phase |
| UpdateRuns.StepKeepsLockExactly | apps/desktop/src/update-transaction.ts:13-19 | a step keeps active.lock on a live journal, or one about to be written, exactly when it is not a write of 'rolled-back' that throws after removing the lock |
| UpdateRuns.LiveJournalIsLocked | apps/desktop/src/update-transaction.ts:13-19 | in every run without such a step active.lock exists whenever the journal is not terminal |
| UpdateRuns.RollbackThrowsUnlocks | apps/desktop/src/update-transaction.ts:78-79 | after such a step the next write publishes 'recovery-required' without a lock |
| UpdateRuns.HelperOutcomeExactly | apps/desktop/src/update-worker.ts:14-30 | an executing helper started on 'prepared' and not killed ends in a terminal phase or 'recovery-required' exactly when no write strands it: none throws in a catch block and leaves an intermediate phase on disk |
| UpdateRuns.HelperOutcome | apps/desktop/src/update-worker.ts:14-30 | in particular if no journal write throws |
| UpdateRuns.UnsafeErrorIsNotRestored | apps/desktop/src/update-transaction.ts:60 | after an error that forbids restoring the helper changes nothing on disk any more, and leaves 'recovery-required' if it is not killed and no write throws |
| UpdateRuns.ReopenedAppIsWhole | apps/desktop/src/update-worker.ts:28-30 | the app that the helper reopens is the whole old one or the whole candidate |
| UpdateRuns.EndedIsUnlockedExactly | apps/desktop/src/update-transaction.ts:13-19 | each step leaves an ended transaction unlocked exactly when it is not a terminal write that had taken effect and threw, or was cut short, before the lock was removed |
| UpdateOrder.OperationsInOrder | apps/desktop/src/update-transaction.ts:50-78 | in every run the operations that have returned since a helper was launched are exactly those that precede the current one in the source: fourteen of `executeUpdate`, seven of the recovery after its first write, each preceded by what the helper does first |
| UpdateOrder.PhasesAreEarned | apps/desktop/src/update-transaction.ts:50-57 | in every run a phase on disk has been earned by the operations before its write: 'backing-up' by preflight and stopping, 'installing' by the validation of the staged app, 'complete' by verification, each with all those that come before it |
| UpdateOutcomes.ErrorsAreHandled | apps/desktop/src/update-transaction.ts:58-64 | an error in any operation of `executeUpdate`, at any moment of any run and not disturbed further: before 'installing' is written, validation of the staged app included, it ends in 'failed' with app and data the originals; from there on in 'rolled-back' with both restored; after verification that forbids restoring in 'recovery-required'; in the write of 'complete' in 'failed' over the candidate |
| UpdateOutcomes.UndisturbedUpdateCompletes | apps/desktop/src/update-transaction.ts:48-65 | an executing helper that is not disturbed performs the fourteen operations in the order of the source, nothing else, and ends with 'complete' on disk, the lock removed and the candidate installed |
| UpdateConservation.StepCarriesFiles | apps/desktop/src/update-transaction.ts:51-57 | no operation deletes or overwrites a file: each has its content afterwards, at its path or where a rename took it, and no two are at one path; verification and the client that is waited for are excepted where they write |
| UpdateConservation.FilesSurvive | apps/desktop/src/update-transaction.ts:72-77 | each file on disk at any moment survives every later run where the renames took it, as long as it is not where verification or the client writes |
| UpdateConservation.FilesStayApart | apps/desktop/src/update-transaction.ts:72-77 | two files never end at one path, so none stands for another |
| UpdateConservation.StepCarriesTree | apps/desktop/src/update-transaction.ts:51-57 | the tree at any place, of this or an earlier recovery run, is whole after each step at the place to which the step takes it |
| UpdateConservation.TreesSurvive | apps/desktop/src/update-transaction.ts:51-57 | a tree that stands at any place, staged and half-restored trees included, stands whole at some place ever after, unless others write the data it serves as |
| UpdateConservation.AsideTreesStay | apps/desktop/src/update-transaction.ts:72-77 | the displaced app, both backups and the failed trees of every recovery run stay where they are in every later run, verification included |
| UpdateConservation.BystandersStay | apps/desktop/src/update-transaction.ts:48-80 | a file outside the places the transaction names keeps its path and content in every run |
| UpdateConservation.NothingIsLost | apps/desktop/src/update-transaction.ts:48-80 | in every state of every run the original app and data are whole, in their places or in the backups, the candidate is whole, and every other file is where it was, as it was |
| UpdateHelper.Helper.WriteUpdate | apps/desktop/src/update-transaction.ts:13-19 | a journal write returns with the phase on disk, or throws or dies at some point of it, and stays within the machine |
| UpdateHelper.Helper.Snapshot | apps/desktop/src/update-transaction.ts:43-46 | a copy, whole or torn, stays within the machine and leads to the next line or to the enclosing handler |
| UpdateHelper.Helper.Rename | apps/desktop/src/update-transaction.ts:55 | a rename stays within the machine and leads to the next line or to the enclosing handler |
| UpdateHelper.Helper.RenameIfPresent | apps/desktop/src/update-transaction.ts:74-76 | likewise for a rename guarded by an existence test |
| UpdateHelper.Helper.Consult | apps/desktop/src/update-transaction.ts:51-54 | an operation that may refuse changes neither disk nor journal |
| UpdateHelper.Helper.Wait | apps/desktop/src/update-worker.ts:16-17 | waiting may fail; the client of a prepared update may write its data until then, and nothing else changes |
| UpdateHelper.Helper.RandomUuid | apps/desktop/src/update-transaction.ts:72 | a returned id is fresh for the disk as it is |
| UpdateHelper.Helper.VerifyInstalled | apps/desktop/src/update-transaction.ts:56 | verification may change the data and log files, and its error may forbid restoring |
| UpdateHelper.Helper.ExecuteUpdate | apps/desktop/src/update-transaction.ts:48-65 | the imperative `executeUpdate` reaches only states of the machine; its durable state means what `CrashSafety` says, every operation that precedes the phase on disk has returned, and a normal return leaves 'complete' |
| UpdateHelper.Helper.TryUpdate | apps/desktop/src/update-transaction.ts:50-57 | the try block, line by line: it returns with 'complete' on disk, or enters the catch block; no phase is written before the operations that earn it have returned |
| UpdateHelper.Helper.HandleError | apps/desktop/src/update-transaction.ts:58-64 | the catch block: it always rethrows or dies, having noted the error, recovered, or marked the outcome |
| UpdateHelper.Helper.RecoverUpdate | apps/desktop/src/update-transaction.ts:66-80 | the imperative recovery: a normal return leaves the phase that recovery promises for the phase it found |
| UpdateHelper.Helper.TryRecover | apps/desktop/src/update-transaction.ts:69-78 | the restoring operations in order; a normal return leaves 'rolled-back' |
| UpdateHelper.Helper.RunHelper | apps/desktop/src/update-worker.ts:14-31 | one helper process, executing or recovering: whatever happens the journal means what it says and its phase is earned, an executing helper whose journal writes did not throw ends in a terminal phase or 'recovery-required', and the app is reopened exactly when the helper returns in a terminal phase with an app in place, which is then the whole old one or the whole candidate |
| UpdateHelper.Helper.RunToEnd | apps/desktop/src/update-worker.ts:14-27 | the same helper up to the reopening: it returns or dies, the journal means what it says, and an executing helper whose journal writes did not throw ends in a settled phase |
| UpdateHelper.Helper.Reopens | apps/desktop/src/update-worker.ts:28-30 | the app is reopened exactly in a terminal phase and if it is there |
| UpdateHelper.Helper.NoteFailure | apps/desktop/src/update-worker.ts:20-24 | the outer catch block: it notes the error, fails a transaction still 'prepared', and ends the process |
| UpdateHelper.AnyHistory | apps/desktop/src/update-worker.ts:5-31 | one executing helper and any number of recovery runs after it, each ending as it may, keep the meaning of the journal |
| UpdateHelper.Helper.AlwaysMeaningful | apps/desktop/src/update-transaction.ts:48-80 | in every valid state of the helper object the journal means what `CrashSafety` says, in terms of the trees at the start |
| Exclusion.ExclusionExactly | apps/desktop/src/update-transaction.ts:25-36 | with any number of interleaved `beginUpdate` calls and one executor, a step makes it possible to lose a live transaction exactly when it is one of these: a publication that throws after its rename, a write of 'complete' that throws, a write of 'rolled-back' that throws after removing the lock, and a helper that reads an ended journal to note an error when the lock is free or a caller holds it |
| Exclusion.StepKeepsInvExactly | apps/desktop/src/update-transaction.ts:13-19 | those are also exactly the steps that break the ownership of lock and journal |
| Exclusion.LiveJournalIsLocked | apps/desktop/src/update-transaction.ts:13-19 | in every run without them a live journal is locked with no caller past the lock, and at most one caller ever is |
| Exclusion.SoundRunsLoseNothing | apps/desktop/src/update-transaction.ts:25-36 | in every run without them no event replaces a live transaction by another |
| Exclusion.PublishReplacesEnded | apps/desktop/src/update-transaction.ts:27-34 | a caller about to publish finds no live transaction, although it read the journal before taking the lock |
| Exclusion.TransactionsFollowOneAnother | apps/desktop/src/update-transaction.ts:25-36 | if the journal belongs to another transaction later, the first one's terminal phase was on disk in between |
| Exclusion.LostAfterPublication | apps/desktop/src/update-transaction.ts:34-35 | from the beginning: the first publication throws after its rename, and two later callers lose a transaction |
| Exclusion.LostAfterWrite | apps/desktop/src/update-transaction.ts:16-18 | from the beginning: a write of 'complete' or 'rolled-back' that throws after removing the lock, and the write that follows it from memory, over the next transaction |
| Exclusion.LostAfterCommit | apps/desktop/src/update-transaction.ts:57-62 | from the beginning: a write of 'complete' that throws at any earlier point; it is written again, which removes the lock, and then 'failed' is written over the next transaction |
| Exclusion.LostAfterNote | apps/desktop/src/update-worker.ts:20-24 | from the beginning: after an ordinary failure the noted error is written over the next transaction |
| Exclusion.ThrownPublicationLoses | apps/desktop/src/update-transaction.ts:34-35 | a caller that read the journal before a thrown publication replaces the live transaction in two steps |
| Exclusion.ThrownRollbackLoses | apps/desktop/src/update-transaction.ts:78-79 | after a thrown write of 'rolled-back' the transaction published as 'recovery-required' is replaced by such a caller |
| Exclusion.OrphanedExactly | apps/desktop/src/update-transaction.ts:16-17 | the lock is orphaned exactly when its owner dies, ends, or ends after failing to remove it: a caller that has not published, or an executor whose journal has ended |
| Exclusion.OrphanedLockRefusesAll | apps/desktop/src/update-transaction.ts:30 | then no later call is ever accepted, in any run in which no helper notes an error |
| Exclusion.ArrivesExactly | apps/desktop/src/update-transaction.ts:27-29 | a call that arrives gets as far as the lock exactly if no transaction is live |
| Exclusion.TakesExactly | apps/desktop/src/update-transaction.ts:30 | and takes it exactly if it is free |
| Exclusion.NextBegins | apps/desktop/src/update-transaction.ts:25-36 | after an update that failed and removed its lock the next call begins another |
| HelperAsExecutor.ControlIsExecution | apps/desktop/src/update-transaction.ts:48-80 | each operation of the helper, however it ends, does to journal, lock and memory what a sequence of the executor's events in `Exclusion` does |
| HelperAsExecutor.RunIsExecution | apps/desktop/src/update-worker.ts:5-31 | so does every run of helpers from a prepared transaction, among any callers |
| HelperAsExecutor.UnsoundOperations | apps/desktop/src/update-transaction.ts:57-80 | in a sound state the operations that are unsound are exactly a thrown write of 'complete', a write of 'rolled-back' thrown after removing the lock, and a noted error that `Exclusion` counts as such; a thrown 'failed' is none |
| RateLimiter.Limiter.Take | apps/daemon/src/rate-limit.ts:63-85 | one call updates the table and answers as the two functions on values say: a new key that finds the table full is told 1000 ms and changes nothing, any other has a bucket of this moment afterwards |
| RateLimiter.Limiter.Sweep | apps/daemon/src/rate-limit.ts:86-95 | the loop that deletes while iterating keeps exactly the buckets that are not idle for too long |
| RateLimiter.FullTableRefuses | apps/daemon/src/rate-limit.ts:69-71 | a new key at a full table is turned away for 1000 ms and the table stays as it is |
| RateLimiter.NewKeyStartsFull | apps/daemon/src/rate-limit.ts:72-73 | a new key that finds room starts from the whole burst |
| RateLimiter.TableIsCapped | apps/daemon/src/rate-limit.ts:69-71 | in every run from an empty table there are never more buckets than the cap, rounded up to a whole number |
| RateLimiter.EvictedExactly | apps/daemon/src/rate-limit.ts:86-95 | a bucket idles from the last call of its key on, granted or not, whatever other keys do: a sweep keeps it exactly up to the idle time |
| RateLimiter.CallCosts | apps/daemon/src/rate-limit.ts:79-84 | seen as tokens available to each key, a call costs one token of its own key if it is granted, and nothing else |
| RateLimiter.TokensGrow | apps/daemon/src/rate-limit.ts:75-77 | continuous refill: later tokens are the earlier ones plus the gain, up to the burst, however calls are spaced |
| RateLimiter.RunIsSane | apps/daemon/src/rate-limit.ts:63-95 | in every run with ordered times all tokens stay between 0 and `burst` |
| RateLimiter.GrantsArePaid | apps/daemon/src/rate-limit.ts:75-82 | from any sane table, the grants to a key in a run are at most the tokens it has and those gained by the end |
| RateLimiter.RateBound | apps/daemon/src/rate-limit.ts:63-85 | grants to one key in any window of T milliseconds number at most `burst + ratePerSec * T / 1000`, in every run without sweeps, and with any sweeps if buckets are full when evicted |
| RateLimiter.SweepCostsExactly | apps/daemon/src/rate-limit.ts:86-95 | a sweep leaves every key's tokens as they were exactly when each bucket it evicts has refilled |
| RateLimiter.EvictionIsUnobservable | apps/daemon/src/rate-limit.ts:64-95 | if a bucket refills within the idle time, sweeps inserted anywhere change no answer of any run whose keys cannot fill the table |
| RateLimiter.EvictionNeedsWholeTokens | apps/daemon/src/rate-limit.ts:64-95 | for any burst of at least 1, eviction is unobservable only if a bucket gains all its whole tokens within the idle time; what suffices and what is needed differ by less than one token |
| RateLimiter.EvictionIsUnobservableExactly | apps/daemon/src/rate-limit.ts:64-95 | for a whole number of tokens that condition is also necessary: otherwise a probing run gets different answers |
| RateLimiter.RetryTimeIsExact | apps/daemon/src/rate-limit.ts:79-84 | when a call is refused for want of tokens and the burst is at least 1, the key's next call is granted exactly from `retryAfterMs` milliseconds on, whatever other keys do meanwhile |
| RateLimiter.SmallBurstNeverGrants | apps/daemon/src/rate-limit.ts:79-84 | with a burst below 1 nothing is ever granted, so no retry time is right |
| RateLimiter.HeaderIsLeast | apps/daemon/src/rate-limit.ts:118 | the Retry-After value is the least positive number of seconds that is not shorter than the retry time |
| RateLimiter.HeaderSuffices | apps/daemon/src/rate-limit.ts:113-118 | waiting the seconds of the header (section 10.2.3 of RFC 9110) is always enough |
| SchedulerLease.StepKeepsInv | apps/daemon/src/server.ts:45-46 | while nobody overstays, every command keeps each holder's own token in the key for at least one TTL since it last reached Redis |
| SchedulerLease.TicksExclude | apps/daemon/src/server.ts:452-471 | if less than one TTL passes between each holder's messages and its release lands in time, at most one replica is inside in any interleaving |
| SchedulerLease.LeaseChangesAreOwn | apps/daemon/src/server.ts:85-103 | a live lease is extended or removed only by the replica it belongs to |
| SchedulerLease.RenewalKeepsOwner | apps/daemon/src/server.ts:45-46 | no replica extends another's lease, whoever is late: the renewal script keeps the owner, and extends only the lease of its own token |
| SchedulerLease.TickReleases | apps/daemon/src/server.ts:466-471 | a replica whose tick ends while its lease lives leaves no key behind, is outside, and the next one that asks enters at once |
| SchedulerLease.ReleaseFrees | apps/daemon/src/server.ts:96-103 | the same from the GET of the release on |
| SchedulerLease.LateReleaseKeepsOut | apps/daemon/src/server.ts:96-103 | a release whose lease has run out or been taken over leaves the key as it is and its replica outside |
| SchedulerLease.AcquiresExactly | apps/daemon/src/server.ts:85-94 | the lock is given, for a whole TTL and under a new token, exactly when there is none or it has expired |
| SchedulerLease.RenewalHoldsExactly | apps/daemon/src/server.ts:45-46 | after a renewal that finds its lease unexpired another replica enters exactly from one TTL on |
| SchedulerLease.LateRenewalExactly | apps/daemon/src/server.ts:45-46 | a renewal after its timer was cleared does the same for an unexpired lease of its own token, and nothing for any other |
| SchedulerLease.CrashedLeaseExpires | apps/daemon/src/server.ts:85-94 | the lease of a replica that dies keeps the others out exactly until it expires |
| SchedulerLease.LateDeleteExactly | apps/daemon/src/server.ts:96-103 | between the GET and the DEL of a release another replica can acquire the lock and lose it to the DEL exactly when the lease has expired |
| SchedulerLease.LateDeleteEvictsExactly | apps/daemon/src/server.ts:96-103 | and exactly then a third replica enters beside the second, both within their time |
| SchedulerLease.RenewalsAreThreeTimesFaster | apps/daemon/src/server.ts:455-462 | for every accepted TTL the period is at least 500 and three periods fit into the TTL, less than three milliseconds apart from it |
| SchedulerLease.LostRenewalTolerated | apps/daemon/src/server.ts:461-465 | with one-way delays under a sixth of the TTL and no two losses in a row, each renewal that arrives finds the lease unexpired |
| SchedulerLease.LostRenewalsKeepExclusion | apps/daemon/src/server.ts:461-471 | in any run whose holders' renewals follow such a schedule, with one-way delays under a sixth of any accepted TTL, at most one replica is inside |
| UpdateGate.DesktopUpdateGate.constructor | apps/daemon/src/desktop-update-gate.ts:3-6 | a validation daemon starts locked, any other open, and nothing is counted yet |
| UpdateGate.DesktopUpdateGate.Prepare | apps/daemon/src/desktop-update-gate.ts:7-12 | preparing succeeds exactly when the gate is open and nothing is under way, and then locks it |
| UpdateGate.Server.OnRequest | apps/daemon/src/server.ts:357-369 | a request is let in exactly while the gate is open; only a mutating one is counted |
| UpdateGate.Server.OnClose | apps/daemon/src/server.ts:368 | a closing response is counted down once, if its request was counted |
| UpdateGate.Server.OnTimer | apps/daemon/src/server.ts:425-428 | a tick starts exactly when none is in flight and the gate is open |
| UpdateGate.Server.OnTickEnd | apps/daemon/src/server.ts:431-434 | both flags fall when a tick ends |
| UpdateGate.Server.OnPrepare | apps/daemon/src/server.ts:555-558 | the message succeeds exactly when nothing is under way and then suspends the runtime |
| UpdateGate.Server.OnCancel | apps/daemon/src/server.ts:552-553 | cancelling opens the gate and resumes the runtime, except in a validation daemon, where nothing changes |
| UpdateGate.Barrier | apps/daemon/src/desktop-update-gate.ts:2-12 | in every run the counter equals the number of admitted mutating requests not yet closed and the flag says whether a tick is running, both told from the history of events; while locked there are none |
| UpdateGate.BarrierHolds | apps/daemon/src/server.ts:550-559 | once locked the gate stays locked until it is cancelled, in a validation daemon for ever |
| UpdateGate.BarrierAdmitsNothing | apps/daemon/src/server.ts:359-364 | so no mutating request is let in meanwhile |
| UpdateGate.LockedExactly | apps/daemon/src/server.ts:550-559 | in every run the gate is locked exactly since a message to prepare that found nothing under way and has not been cancelled, in a validation daemon always; the runtime is suspended exactly while a gate that can be cancelled is locked |
| Handoff.StatusOf | apps/daemon/src/external-agent-tasks.ts:30-39 | the sequence of overriding assignments gives the status in order of precedence |
| Handoff.WaitingExactly | apps/daemon/src/external-agent-tasks.ts:20-22 | a task is shown as waiting for input exactly while its session is asking and neither has come to an end |
| Handoff.StatusExactly | apps/daemon/src/external-agent-tasks.ts:30-39 | each of the other seven statuses is shown exactly when task and session, taken by themselves, say so |
| Handoff.Service.ExternalTaskView | apps/daemon/src/external-agent-tasks.ts:25-29 | a client sees its own tasks only, and those of a bot only while it may use the bot |
| Handoff.Service.SubmitExternalTask | apps/daemon/src/external-agent-tasks.ts:50-118 | statement by statement with rollback at any of them: the store afterwards is that of the atomic submission, an error leaves it as it was, and a task is created exactly for a request that `SubmissionCreatesExactly` describes |
| Handoff.Service.ExternalTaskInput | apps/daemon/src/external-agent-tasks.ts:132-152 | statement by statement with rollback at any of them: the store afterwards is that of the atomic input |
| Handoff.SubmissionCreatesExactly | apps/daemon/src/external-agent-tasks.ts:50-102 | told from request, client, directory and store: a task is created exactly if all fields are usable, either the bot is one of the client's, can be opened, is at work and no agent is named, or no bot is and the agent, the default one if none is named, is one of the client's, exists and is no bot, the key is new and no statement throws; the task is then the client's, for that bot or none, and its session holds the goal and, if given, the context after it |
| Handoff.AdmittedExactly | apps/daemon/src/external-agent-tasks.ts:50-75 | the checks before the transaction let through exactly such requests, with that key, bot and first message |
| Handoff.UnauthorizedExactly | apps/daemon/src/external-agent-tasks.ts:56-70 | a request with usable fields is unauthorized exactly if it names a bot that is not the client's or is stopped, or an agent that is not the client's or is a bot |
| Handoff.NewTaskIsSeen | apps/daemon/src/external-agent-tasks.ts:101-102 | whoever is told of a task sees it, with the status told |
| Handoff.VisibleTasksAreOwn | apps/daemon/src/external-agent-tasks.ts:25-29 | in every run from an empty store, a task that a client can see was handed over by that client, and its bot, if any, is one that the client may use |
| Handoff.SubmissionMeans | apps/daemon/src/external-agent-tasks.ts:82-102 | an accepted submission returns the recorded task; creating the task and recording it go together; a repeat or an error changes nothing |
| Handoff.CreatedAtMostOnce | apps/daemon/src/external-agent-tasks.ts:76-102 | over any interleaving of submissions, inputs and changes elsewhere, at most one task is created per client, source and source id |
| Handoff.DuplicatesReturnTheTask | apps/daemon/src/external-agent-tasks.ts:84-88 | all accepted submissions with one key return one task, and all after the first are duplicates |
| Handoff.DeletedStaysGone | apps/daemon/src/external-agent-tasks.ts:85 | once its task was deleted a key is refused for ever and nothing is created for it |
| Handoff.DuplicateAcceptedExactly | apps/daemon/src/external-agent-tasks.ts:84-101 | a repeat is accepted exactly when the task exists, the client may still use its bot and no statement throws |
| Handoff.RunKeepsInv | apps/daemon/src/external-agent-tasks.ts:76-102 | in every run distinct keys have distinct tasks, and a recorded task that exists carries its key |
| Handoff.RunExtends | apps/daemon/src/external-agent-tasks.ts:97 | both kinds of record are written once and never changed, and a deleted task does not come back |
| Handoff.InputMeans | apps/daemon/src/external-agent-tasks.ts:136-150 | an input leaves the whole store as it was or appends its message once, withdraws the question and spends its id |
| Handoff.RepliesExactly | apps/daemon/src/external-agent-tasks.ts:132-152 | an input is answered as unavailable, invalid, mismatched or not waited for exactly when the request, the store and the view say so, and spends its own id only |
| Handoff.AppendedAtMostOnce | apps/daemon/src/external-agent-tasks.ts:138-149 | for each client, task and input id at most one message is appended, however often it is sent and however old the view it relies on |
| Handoff.RepeatsAreHarmless | apps/daemon/src/external-agent-tasks.ts:139-143 | a repeat of an accepted input changes nothing, and one with other text is rejected |
| Handoff.FreshViewAnswersOnce | apps/daemon/src/external-agent-tasks.ts:122-144 | if the view is read in the moment of the transaction, a second input finds that nothing is asked |
| Handoff.AppendsExactly | apps/daemon/src/external-agent-tasks.ts:136-149 | an input is appended exactly if its id is new, the view it relies on was waiting, the session is there and nothing throws |
| Handoff.SecondAnswerExactly | apps/daemon/src/external-agent-tasks.ts:122-144 | after one answer a second one is appended exactly if the view it relies on still shows the task waiting, which only a view read before the first answer can |
| Handoff.StaleViewAnswersTwice | apps/daemon/src/external-agent-tasks.ts:122-144 | so two processes that read the view before either has answered append two answers to one question |
| Handoff.SubmitRollbackFailsExactly | apps/daemon/src/external-agent-tasks.ts:84-101 | a submission ends in the error of a ROLLBACK without a transaction exactly when its recorded task exists, belongs to a bot that the client may no longer use, and nothing throws before; the store is unchanged |
| Handoff.RollbackFailsForExample | apps/daemon/src/external-agent-tasks.ts:84-101 | a task submitted for a bot and repeated without it by the client that has lost the bot gets there from an empty store |
| Handoff.InputRollbackFailsExactly | apps/daemon/src/external-agent-tasks.ts:139-150 | an input does so exactly when it repeats an accepted one and the task can no longer be seen; the store is unchanged |
| Handoff.FreshViewNeverFailsInRollback | apps/daemon/src/external-agent-tasks.ts:122-150 | for an input it takes a stale view |
| Handoff.DeletingTheTaskFailsInRollback | apps/daemon/src/external-agent-tasks.ts:139-150 | and with one it happens, after any accepted input whose task is then deleted elsewhere |
| Handoff.RequiredIsStable | apps/daemon/src/external-agent-settings.ts:39-44 | an accepted field is trimmed, not empty and within its limit, and is accepted as the same text when sent again without its padding |
| DataCheck.CheckData | apps/desktop/src/update-data-check.ts:6-27 | the check passes exactly when there is a new database and, if there was an old one, the new one is intact, every old row of the twelve tables is found again by its key, the four content tables agree on every old column and no asset file was lost |
| DataCheck.CheckTable | apps/desktop/src/update-data-check.ts:13-21 | one table passes exactly when it has a primary key and every old row is kept |
| DataCheck.CheckRow | apps/desktop/src/update-data-check.ts:17-20 | one row passes exactly when the query by its key can be run, finds a row, and in a content table that row agrees with it |
| DataCheck.Find | apps/desktop/src/update-data-check.ts:18 | the query returns the first row whose key columns are equal and not NULL |
| DataCheck.CompareContent | apps/desktop/src/update-data-check.ts:20 | the loop over columns finds exactly whether every old column is there with its old value |
| DataCheck.CheckAssets | apps/desktop/src/update-data-check.ts:23-25 | no file named by a row of an asset table is missing after the update if it was there before |
| DataCheck.NoTableShrank | apps/desktop/src/update-data-check.ts:17-19 | a passed check means that no listed table has fewer rows than before |
| DataCheck.ContentKept | apps/desktop/src/update-data-check.ts:20 | a passed check means that the row with the same key in a content table has every old column unchanged |
| DataCheck.EveryColumnKept | apps/desktop/src/update-data-check.ts:20 | the same column by column |
| DataCheck.LostRowFails | apps/desktop/src/update-data-check.ts:17-19 | a row of a listed table whose key values are in no row of the new table, or whose table is gone, fails the check |
| DataCheck.ChangedContentFails | apps/desktop/src/update-data-check.ts:20 | a row of a content table with a value in some column that no row of the new table has there fails it |
| DataCheck.LostAssetFails | apps/desktop/src/update-data-check.ts:23-25 | a file that was there, is named by an asset row and is gone fails it |
| DataCheck.AssetsKeptExactly | apps/desktop/src/update-data-check.ts:23-25 | an asset table passes exactly if it has the path column and no file that its rows name was lost; files that are new or unnamed never matter |
| DataCheck.IntegrityCounts | apps/desktop/src/update-data-check.ts:7-11 | it is the new database that must be intact, and without an old one nothing else is asked |
| DataCheck.NullKeyFails | apps/desktop/src/update-data-check.ts:18-19 | a row with a NULL in its key fails the check, even if nothing was touched |
| DataCheck.UntouchedPassesExactly | apps/desktop/src/update-data-check.ts:6-27 | untouched data passes exactly when it can be checked: it is intact, every listed table has a primary key without NULLs, and asset tables have a path column |
| Turns.CompletedTurns | apps/daemon/src/session-recap-text.ts:222-256 | the loop over the messages computes the fold, and what it returns are the turns as `TurnsAreDescribed` tells them from the messages alone |
| Messages.FailedToolIds | apps/daemon/src/session-recap-text.ts:258-267 | the nested loops collect exactly the ids of failed results in messages that are not hidden |
| Messages.FilesIn | apps/daemon/src/session-recap-text.ts:269-279 | the loop over parts yields the paths of write and edit calls that did not fail, in order |
| Messages.MergeFiles | apps/daemon/src/session-recap-text.ts:281-290 | the loop with its set of seen paths appends exactly the new ones, once |
| Messages.FilePathOf | apps/daemon/src/session-recap-text.ts:292-299 | the first of three keys with a text that is not blank gives the path |
| Messages.MessageText | apps/daemon/src/session-recap-text.ts:301-307 | the loop joins the trimmed texts that are not blank |
| Messages.PathAtExactly | apps/daemon/src/session-recap-text.ts:292-299 | the path is the first text that is not blank among `path`, `file_path` and `filePath`, trimmed |
| Messages.WrittenByExactly | apps/daemon/src/session-recap-text.ts:269-279 | a part counts as writing a path exactly if it is a call of `write_file` or `edit_file` in a shown message of an assistant or tool, names that path, and has an empty id or one for which no shown message of the conversation holds a failed result |
| Messages.FailsExactly | apps/daemon/src/session-recap-text.ts:258-267 | a call has failed exactly if its id is not empty and a shown message holds a failed result with it |
| Messages.TextOfParts | apps/daemon/src/session-recap-text.ts:301-307 | the text of a message is that of its parts, one below the other, without the blank ones |
| Messages.TextOfPart | apps/daemon/src/session-recap-text.ts:301-307 | and that of one part is its words, trimmed |
| Turns.TurnsAreSpans | apps/daemon/src/session-recap-text.ts:222-256 | the turns are exactly the pairs of a user's text and the next assistant text with neither in between, in order, each with its texts, id and time, and with files that are free of repeats and exactly those written without failure in between |
| Turns.TurnsAreDescribed | apps/daemon/src/session-recap-text.ts:222-290 | told from the messages alone: the turns are, in order, exactly the pairs of a shown user's message that says something and the next shown assistant's message that does, with neither in between; the files of each are, without repeats and in the order of their first calls, exactly the paths written in between by calls that failed nowhere in the conversation |
| Turns.FilesAreFirstWritten | apps/daemon/src/session-recap-text.ts:269-290 | the same for the files of any stretch of messages |
| Turns.HiddenMakeNoDifference | apps/daemon/src/session-recap-text.ts:229 | leaving out hidden messages changes no turn |
| Turns.HiddenFailuresDoNotCount | apps/daemon/src/session-recap-text.ts:261 | leaving out hidden messages does not change which calls failed |
| Turns.TurnsArePrefix | apps/daemon/src/session-recap-text.ts:222-256 | the texts, ids and times of the turns of a conversation are a prefix of those of any extension of it |
| Turns.LaterFailuresOnlyRemoveFiles | apps/daemon/src/session-recap-text.ts:269-279 | failures that become known later can only take files away from a turn |
| EnvFile.ParseEnvContent | apps/desktop/src/env-utils.ts:4-16 | the loop over lines builds the map in which later lines win |
| EnvFile.LastLineWins | apps/desktop/src/env-utils.ts:12 | a key is in the map exactly when some line parses to it, with the value of the last such line |
| EnvFile.File.EnsureEnvKey | apps/desktop/src/env-utils.ts:22-31 | an existing value that is not empty is returned and nothing is written; else one line is appended and its value returned |
| EnvFile.ParsesExactly | apps/desktop/src/env-utils.ts:9-12 | a line `key=value` parses to that key and value exactly when the key is trimmed, not empty, without '=' and not a comment, and the value is trimmed and without line terminators |
| EnvFile.ParsedIsUsable | apps/desktop/src/env-utils.ts:7-12 | whatever a line parses to could have been written as it is |
| EnvFile.ParsesToExactly | apps/desktop/src/env-utils.ts:7-12 | a line parses to a key and a value exactly if it is these two around its first '=', with any white space on either side of each, a carriage return at its end included |
| EnvFile.SaysNothing | apps/desktop/src/env-utils.ts:8-10 | comments, blank lines and lines without a key or without '=' say nothing |
| EnvFile.AppendedIsLine | apps/desktop/src/env-utils.ts:28-29 | with or without a newline at the end of the file, the appended text is read as one more line |
| EnvFile.RoundTrip | apps/desktop/src/env-utils.ts:22-31 | reading the file after appending gives the old map with that key set, for every file content |
| EnvFile.RoundTripExactly | apps/desktop/src/env-utils.ts:22-31 | for one-line texts and a missing key that is so exactly when key and value are as `ParsesExactly` says |
| EnvFile.File.EnsureTwice | apps/desktop/src/env-utils.ts:22-31 | a second call returns the same value without writing |

## Left out

- fsync, file modes, symbolic links, ASAR handling and the free-space check: a journal rename is taken as atomic and durable.
- `describeUpdate`, versions, notes and the `error` text of the journal: they steer nothing that is modelled.
- worker.json and the recognition of a running helper by its process: one helper runs at a time.
- The user interface's own rewriting of a journal that is still 'prepared'.
- `Exclusion` has the journal and the lock only; the file operations between the writes are in `UpdateMachine`.
- `Exclusion`, `SchedulerLease`: these protocols run in several processes at once, so they are state machines over interleaved steps rather than objects.
- UpdateHelper.Helper.RandomUuid: a repeated id counts as the end of the run, because the original would go on with it.
- preflight, stop, validateStage and the stopping of orphaned processes: operations that may refuse and change nothing here.
- Floating-point rounding and a wall clock that goes back, in the limiter.
- RateLimiter.RateBound: holds with sweeps only if a bucket is full when it can be evicted, because early eviction gives tokens back.
- RateLimiter.EvictionIsUnobservableExactly: for a burst that is not a whole number a gain of the whole burst suffices (`EvictionIsUnobservable`) and a gain of its whole tokens is needed (`EvictionNeedsWholeTokens`); between the two, less than one token apart, nothing is proved.
- RateLimiter.RetryTimeIsExact: a key turned away because the table is full is told 1000 ms, which is no promise.
- The choice of a client's key from its headers, and the environment variables of the limiter.
- SchedulerLease.TicksExclude: crashed replicas count as outside, and the fallback to local ticks when an automatically enabled Redis is unreachable excludes nobody and is not modelled.
- Redis, SQLite and SHA-256 themselves: a key with an expiry, atomic transactions, and hashes as injective keys.
- Handoff: the session opened for a bot, its copied policy fields and source ledger entry, the cancel action, and the later execution of the session; they belong to `Elsewhere`.
- Handoff.Service.SubmitExternalTask: text is compared and measured by characters, where the original measures UTF-16 units.
- DataCheck: a value is equal to another if they are the same value, without column affinities; a name in the schema that is not a table fails the query, which for a view need not be so.
- Keys such as `constructor` that JavaScript objects inherit, in the map read from the .env file.
- EnvFile.File.EnsureEnvKey: the file is one string that is read and replaced as a whole.
- Prompts, clipping, anchors and date formatting around the turns, and the cache of recaps.
- The worktree list parser of `apps/daemon/src/evolution-api.ts`: one loop over lines, easier than what is here.
- The web console, windows, tray, process spawning, code signing, HTTP routing, authentication and the command line.
