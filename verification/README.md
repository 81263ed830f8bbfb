# The transaction kernel, proved

A Dafny model of the part of AgentKernel that keeps an agent's effect exactly-once, recorded and
recoverable: the transaction state machine, the durable journal with its hash-chained event log, the
coordinator and its sessions running concurrently over one adapter target, the filesystem adapter with
crashes between any two of its steps, the canonical JSON profile AK-CJ-1, policy evaluation and
capability budgets. `dafny verify dfyconfig.toml` checks everything.

## How it is built

| files | what they hold |
|---|---|
| `Wrappers`, `Domain`, `Ordering` | results and error codes, shared records, the order of Python strings |
| `StateMachine`, `Outcomes` | the 42 normative rows, one transition, whole runs; the table again by state, and what the events of a run say of its state |
| `Ledger`, `Journal`, `JournalLog` | event envelopes and `validate_chain`; the tables, their atomic operations and the class that performs them; what the log says about the tables |
| `Mock` | the versioned in-memory target and its adapter |
| `Protocol` | sessions, journal and mock as one interleaved machine |
| `ProtocolLocal`, `ProtocolSync`, `ProtocolOwners`, `ProtocolEffects`, `ProtocolSerial`, `ProtocolClosing`, `ProtocolSteps` | one part of the run invariant each, and that every step keeps all of it |
| `ProtocolRuns`, `ProtocolExamples` | the theorems about all runs; a run in which an attempt loses its link |
| `ProtocolMoves`, `ProtocolCauses` | one step in closed form; what a step has to meet for a session to send an event |
| `ProtocolVerdicts`, `ProtocolQuestions`, `ProtocolStages` | over all runs: the reports, refusals and faults behind every outcome; what a session asks only once; which stages are left in the adapter |
| `Sessions` | `TransactionCoordinator` and `TransactionSession` in their own imperative form, proved to take only steps of the machine |
| `Trees`, `Filesystem`, `FilesystemEndings`, `FilesystemAnswers`, `FilesystemRuns`, `FilesystemRetries`, `FilesystemExamples` | trees, portable keys, staging, diff and promotion; the adapter class under any faults; how a commit ends, and what it answers, from the trees alone; runs of calls, crashes and restarts; attempts repeated until they succeed; inputs on which the adapter does not do what one might expect |
| `Decimals`, `JsonText`, `Canonical`, `CanonicalLaws`, `CanonicalMeaning` | decimal rendering, encoder and reader, normalization and its laws, what a canonical tree says of its value |
| `Policy`, `Authority` | conditions and bundles; grants, scopes and budgets |

**Concurrency.** A step of the machine in `Protocol` is one journal operation (one `BEGIN IMMEDIATE` to
`COMMIT` or `ROLLBACK`), one adapter call, or one local decision. Any session may step at any time, so
every interleaving of any number of sessions is a run; a session that never steps again has crashed.
`Env` is the environment's part in a step: guards that fail, exceptions and cancellations, an
acknowledgement lost after the effect, verification reports, storage that fails. The one assumption
(`Lawful`) is the adapter contract that `STALE_STATE` is raised only by an attempt that changed nothing.
`writes`, `grants`, two flags of a session and its `storage` are history kept beside the state. In `Sessions`, other
sessions run a schedule of their own before every step of a method; the contract of a method fixes the
steps it adds to the history (`Underway`: its start, then its turns one after another until the session
is at rest), so that the fields of the session, the journal and the adapter are exactly what the machine
makes of them.

**The filesystem.** A tree maps relative paths to files and directories. `Weather` decides for every
step of a call whether it works, raises, or is the point at which the process stops, and what an
interrupted copy leaves. `CommitAllowed` and `RollbackAllowed` say what one call may do; the methods are
proved to do nothing else, and the theorems of `FilesystemRuns` are about every run of such calls,
restarts, stagings, edits of the workspace and damage to backups made between calls. The invariant
(`Valid`) is only that the memory agrees with the manifests on disk: whether a backup is there and intact
is never assumed, but part of what a theorem says.

**Digests.** A tree digest and a version text are injective constructors over what they digest
(`TargetVersion`). The event hash is an arbitrary function; where injectivity matters it is an explicit
premise. Unicode NFC is an arbitrary function that is idempotent and leaves ASCII text alone; case folding
is an arbitrary function from characters to text that makes a `/` of `/` only (`Folding`).

**Exceptions** are values of `Result`, `Outcome` or `Answer`.

## What the proofs found

- A request in which a file is also a parent passes the neighbour scan when another key continues that
  file's path with a character below `/` (`a`, `a.txt`, `a/c`). `NeighbourScanDecides` gives the exact
  condition; in any order, the writes of the stage then fail or leave a tree that the closing snapshot
  refuses (`MissedConflictFailsInStaging`).
- A second staged receipt for an intent already on record, holding another tree, is promoted and
  answered with the first effect receipt, whose after-digest does not describe the workspace.
  `CommitReportsItsTree` says exactly when a returned receipt describes the workspace. `stage` copies
  the workspace as it is and is never compared with the base version, so such a receipt can arise;
  `AnotherStageIsAnswered` makes the calls.
- A retry uses the backup on record without looking at what it holds; `rollback` does look. A failed retry
  therefore puts the base tree back if and only if that backup is intact (`CommitIsAllOrNothing`), and
  `DamagedBackupIsRestored` makes calls after which the workspace holds a tree it never held before.
- The snapshot after the promotion lies outside the block that restores. If deletions that were not
  promoted leave two entries with one portable key, `commit` raises VALIDATION_ERROR, nothing is undone,
  and retry, rollback and reconciliation of the effect are refused from then on (`UnreadIsStuck`,
  `PromotionCanAlias`). `CalmEndingDecided` tells from the two trees alone when this happens.
- A stop between the two renames of `_restore_backup` leaves no workspace at all: `reconcile` then
  raises instead of reporting PARTIAL_OR_INVALID. `UndoCanLoseWorkspace` makes the calls;
  `CommitLosesWorkspace` in the contract of `Commit`, and `LosesWorkspace` in that of `Rollback`, say
  exactly when it happens.
- The mock's `reconcile` still reports COMMITTED after a rollback (`ReconcileForgetsRollback`).
- If storage fails between `reserve_intent` and `link_transaction_supersession`, a session entered again
  finds itself the owner and goes on without its `supersedes` link (`LinkCanBeLost`). An attempt past NEW
  that was handed the intent of an earlier one lacks its link if and only if storage was down at that one
  step (`LinkIsMissingExactly`).
- A compiled policy can still raise during evaluation (`CompiledBundleCanRaise`): if and only if matching
  some rule gets to a malformed resource wildcard, past true conditions in an `all` and false ones in an
  `any` (`CompiledRaisesExactly`).
- With a budget below one the in-memory counters deny while the durable ones raise
  (`EmptyBudgetsDiffer`); `CountersAgree` gives the exact condition for agreement.
- `append_event` documents that it takes non-transition evidence but does not check it: a transition that
  never happened is accepted (`ForgedTransitionIsAccepted`). The log reproduces the table if and only if
  no such evidence about a transaction was ever accepted (`LogReproducesTable`); no later operation makes
  up for it.

## Model

| member | source | states |
|---|---|---|
| StateMachine.ShapeOfRows | agentkernel/transactions/state_machine.py:84-382 | no row enters ABORTING without an outcome; only the ABORTING completion has a dynamic target |
| StateMachine.FailuresOfApplyTransition | agentkernel/transactions/state_machine.py:384-419 | the only failures are a missing row and an ABORTING completion without its outcome; the internal guards never fire |
| StateMachine.TerminalMeansNoSuccessor | agentkernel/domain/enums.py:70-81 | a state is terminal exactly when no event leaves it |
| StateMachine.StepLowersRank | agentkernel/transactions/state_machine.py:84-377 | every step lowers a rank, but for RECONCILIATION_UNKNOWN, which raises it by one |
| StateMachine.RunsAreBounded | agentkernel/transactions/state_machine.py:84-427 | a run from NEW with u RECONCILIATION_UNKNOWN events has at most 13 + 2u steps |
| StateMachine.BoundIsTight | agentkernel/transactions/state_machine.py:84-427 | for every u some run reaches that bound |
| StateMachine.RunsAreOrdered | agentkernel/transactions/state_machine.py:84-427 | everything past the commit boundary is reached only through COMMITTING, STALE_STATE never is, a reachable ABORTING carries an outcome |
| StateMachine.ReachableAbortCompletes | agentkernel/transactions/state_machine.py:402-416 | completing a reachable ABORTING cannot fail and ends in the recorded outcome |
| Outcomes.IndexIsTheTable | agentkernel/transactions/state_machine.py:84-381 | the index by event holds exactly the rows TX-001 to TX-042, listed here by the state they leave |
| Outcomes.EndIsToldByEvents | agentkernel/transactions/state_machine.py:84-427 | a run is in STALE_STATE exactly if it saw TARGET_VERSION_CHANGED and then completed its abort, in ABORTED exactly if it completed one without it; every other terminal state has its own events, and the states after verification and past the boundary theirs |
| Outcomes.AnswersAreToldByEvents | agentkernel/transactions/state_machine.py:262-283 | while nobody recovers or reconciles, FAILED, IN_DOUBT and COMMITTED are exactly the runs that saw the one answer of their commit |
| Ledger.ValidateChain | agentkernel/evidence/ledger.py:70-110 | valid exactly for good chains; otherwise the first bad event, its first failing check and the hash of the longest good prefix |
| Ledger.GoodPrefix | agentkernel/evidence/ledger.py:70-110 | cutting off a suffix leaves a valid chain, so only the final hash shows it |
| Ledger.GoodSnoc | agentkernel/evidence/ledger.py:37-67 | an event made at the next position with the last hash extends a good chain |
| Ledger.FinalHashPinsHistory | agentkernel/evidence/ledger.py:24-110 | under an injective digest, valid chains with one final hash agree in length and in every hashed field |
| Ledger.TamperingShows | agentkernel/evidence/ledger.py:24-110 | a copy with any hashed field changed is rejected or has another final hash |
| Journal.SQLiteJournal.InsertEvent | agentkernel/storage/sqlite.py:160-173 | refused by the unique keys without change, otherwise appended |
| Journal.SQLiteJournal.UpdateRow | agentkernel/storage/sqlite.py:335-352 | a compare-and-swap on the version: one row at most, and none on a mismatch |
| Journal.SQLiteJournal.Create | agentkernel/storage/sqlite.py:175-216 | row and creation event together or neither |
| Journal.SQLiteJournal.Append | agentkernel/storage/sqlite.py:218-251 | one event at the next free position of its run, or nothing |
| Journal.SQLiteJournal.SetIntent | agentkernel/storage/sqlite.py:265-296 | binds an intent once, from NEW, without a new version |
| Journal.SQLiteJournal.Move | agentkernel/storage/sqlite.py:298-378 | a decided transition and its event together, or the tables as they were, whatever fails |
| Journal.SQLiteJournal.Reserve | agentkernel/storage/sqlite.py:380-444 | grants a free intent, or one whose owner ended without effect and receipt; otherwise reports the owner |
| Journal.SQLiteJournal.Link | agentkernel/storage/sqlite.py:478-510 | links a NEW transaction once |
| Journal.SQLiteJournal.StoreReceipt | agentkernel/storage/sqlite.py:512-531 | stores a receipt under a fresh id only |
| Journal.SQLiteJournal.TryConsume | agentkernel/storage/sqlite.py:446-476 | counts one use below the budget, and nothing otherwise |
| JournalLog.AppendKeepsChains | agentkernel/storage/sqlite.py:150-158 | an event at the computed position keeps every run's part of the log a good chain |
| JournalLog.FailureChangesNothing | agentkernel/storage/sqlite.py:175-531 | an operation that fails leaves all tables as they were |
| JournalLog.PerformKeepsLog | agentkernel/storage/sqlite.py:150-531 | every operation keeps columns, log and chains in agreement, unless it is evidence that poses as a creation or transition |
| JournalLog.LogReproducesTable | agentkernel/storage/sqlite.py:175-378 | over any operations, folding every transaction's events with `apply_transition` gives exactly the table of states, versions and outcomes if and only if no evidence posing as a creation or transition of a transaction was accepted; the columns then equal the stored records |
| JournalLog.ForgedTransitionIsAccepted | agentkernel/storage/sqlite.py:218-251 | two operations after which the log tells of a transition that never happened |
| JournalLog.VersionsAreContiguous | agentkernel/storage/sqlite.py:298-378 | where the log reproduces the table, a transaction's transition events carry versions 1 to the current one and form a path from NEW |
| JournalLog.EveryRunLogIsGood | agentkernel/storage/sqlite.py:150-173 | every run's log passes `validate_chain`, whatever was appended |
| JournalLog.NextPositionIsFree | agentkernel/storage/sqlite.py:150-158 | a computed position never collides with a stored one |
| JournalLog.LogIsARun | agentkernel/storage/sqlite.py:298-378 | what the log tells of a transaction is the run of the transitions it holds |
| JournalLog.LogIsWhatWasAccepted | agentkernel/storage/sqlite.py:175-378 | the log holds one event for each accepted creation, transition and evidence, in their order, with the id, run, actor, principal, time, type, transaction and payload of its caller |
| JournalLog.RowsChangeAsAsked | agentkernel/storage/sqlite.py:175-510 | an accepted operation changes its own row only: a transition moves, dates and explains it, binding and linking fill one free field of a NEW record each |
| JournalLog.ReferencesHold | agentkernel/storage/sqlite.py:380-531 | after any operations every intent and every receipt belongs to a transaction |
| JournalLog.NothingIsTakenBack | agentkernel/storage/sqlite.py:175-531 | no operation removes a row, an intent, a receipt or an event, changes a receipt, or lowers a count |
| Mock.MockReversibleAdapter.DoInspect | agentkernel/adapters/mock.py:83-114 | plans against the current version |
| Mock.MockReversibleAdapter.DoStage | agentkernel/adapters/mock.py:116-123 | copies the state of now, not of the plan |
| Mock.MockReversibleAdapter.DoExecute | agentkernel/adapters/mock.py:125-137 | the copy with the values merged, kept under its stage |
| Mock.MockReversibleAdapter.DoCommit | agentkernel/adapters/mock.py:155-182 | an intent once committed returns its receipt unchanged; a moved version is refused unchanged; otherwise state, version, snapshot and receipt move together |
| Mock.MockReversibleAdapter.DoVerifyCommitted | agentkernel/adapters/mock.py:184-198 | PASS only for the remembered receipt at its after-version |
| Mock.MockReversibleAdapter.DoAbort | agentkernel/adapters/mock.py:200-212 | drops the stage and nothing else |
| Mock.MockReversibleAdapter.DoRollback | agentkernel/adapters/mock.py:214-236 | restores the snapshot only at the after-version |
| Mock.MockReversibleAdapter.DoReconcile | agentkernel/adapters/mock.py:238-243 | COMMITTED for a remembered intent |
| Mock.RollbackInvertsCommit | agentkernel/adapters/mock.py:155-236 | rollback right after a commit restores the state, and a second one does nothing |
| Mock.ReconcileForgetsRollback | agentkernel/adapters/mock.py:214-243 | after that rollback `reconcile` still says COMMITTED |
| Mock.VerdictOnCommit | agentkernel/adapters/mock.py:155-236 | the verdict on a commit is PASS right after it, and FAIL after another write, after its rollback, or for another receipt |
| ProtocolEffects.NobodyElseWrote | agentkernel/transactions/coordinator.py:386-396 | when a session calls `adapter.commit`, its intent has not been committed by anyone |
| ProtocolSerial.CurrentCopy | agentkernel/adapters/mock.py:155-172 | if the version is still the planned one, the staged copy is of the current state, though planned and staged at different times |
| ProtocolSerial.CommitMerges | agentkernel/adapters/mock.py:155-182 | so an effectful commit merges exactly its values into the current state |
| ProtocolOwners.GrantKeepsOwners | agentkernel/storage/sqlite.py:380-444 | handing an intent on keeps one owner, and every earlier attempt ended and unlinked from later ones |
| ProtocolSteps.StepKeepsInv | agentkernel/transactions/coordinator.py:66-485 | every lawful step of any session, and every outside write, keeps the whole invariant |
| ProtocolRuns.RunsKeepInv | agentkernel/transactions/coordinator.py:66-485 | so it holds in every reachable state |
| ProtocolRuns.NoLostUpdates | agentkernel/transactions/coordinator.py:355-396 | in every interleaving the target is its initial state with all writes applied in commit order, and its version counts them |
| ProtocolRuns.IntentsWriteAtMostOnce | agentkernel/transactions/coordinator.py:355-396 | no intent and no transaction changes the target twice, and what it writes is what its session proposed |
| ProtocolRuns.DurableOutcomesAreTruthful | agentkernel/transactions/coordinator.py:336-417 | COMMITTED and FAILED mean one write and exactly one receipt; every state not past the boundary means none |
| ProtocolRuns.OneLiveOwner | agentkernel/transactions/coordinator.py:254-270 | of all attempts granted an intent only the last can be live and earlier ones ended without effect or receipt; past NEW an attempt is linked to the one before it exactly unless its link failed; every row with a link is such an attempt, so all links form acyclic chains |
| ProtocolRuns.LinkIsMissingExactly | agentkernel/transactions/coordinator.py:254-270 | an attempt past NEW that took an intent over is linked to the attempt before it if and only if storage was not down at the step at which it links; entering again never makes up for it |
| ProtocolExamples.LinkCanBeLost | agentkernel/transactions/coordinator.py:242-270 | a run with two storage faults that ends in a PLANNED attempt without its link |
| ProtocolRuns.EndedStaysEnded | agentkernel/storage/sqlite.py:380-444 | an attempt that ended without effect keeps its row, and gets no receipt and no effect, for ever |
| ProtocolRuns.SessionsSendOnlyLegalTransitions | agentkernel/transactions/coordinator.py:224-236 | whatever a session sends is legal from its row, with the current version; the journal can refuse it only for storage |
| ProtocolRuns.SessionsClose | agentkernel/transactions/coordinator.py:419-485 | with working storage, a finished exit leaves a terminal state, IN_DOUBT, FAILED, or ABORTING because `adapter.abort` raised |
| ProtocolRuns.AbortedMeansDiscarded | agentkernel/transactions/coordinator.py:455-473 | ABORTED and STALE_STATE mean any stage held was discarded with PASS |
| ProtocolRuns.StepIsAtMostOneOperation | agentkernel/transactions/coordinator.py:66-485 | a step of the system touches the journal by at most one atomic operation |
| ProtocolRuns.ConcurrentRunsAreAudited | agentkernel/storage/sqlite.py:150-378 | in every interleaving the log reproduces every row and each run's log is a good chain |
| ProtocolVerdicts.StepCalls | agentkernel/transactions/coordinator.py:66-485 | a session is about to send an event exactly if its step met what calls for that event: the report, exception, guard, version, reservation or stored transition listed in `Calls` |
| ProtocolVerdicts.EventsHaveCauses | agentkernel/transactions/coordinator.py:66-485 | in every lawful run, each logged or pending transition was called for by a step of its session; with working storage exactly those are logged or pending |
| ProtocolVerdicts.CommitsHaveCauses | agentkernel/transactions/coordinator.py:386-417 | in every lawful run, a row that has left COMMITTING is COMMITTED exactly if `verify_committed` reported PASS to its session, FAILED exactly if that raised or reported anything else, IN_DOUBT exactly if the answer of `commit` or its receipt was lost; these exclude each other and a refusal by STALE_STATE, which ends in an abort; with working storage nothing rests in COMMITTING |
| ProtocolVerdicts.WaysHaveCauses | agentkernel/transactions/coordinator.py:275-485 | READY_TO_COMMIT and later mean that `verify_staged` reported PASS, states past the boundary that a second `inspect` and the guards cleared it, STALE_STATE that the target had moved, ABORTED and STALE_STATE that the discard passed, RECOVERY_FAILED that it did not; with working storage the last three hold in both directions |
| ProtocolQuestions.AskedOnce | agentkernel/transactions/coordinator.py:275-417 | a session stages, executes, verifies its stage, commits, stores its receipt and verifies its commit at most once each |
| ProtocolQuestions.NoStageFailed | agentkernel/transactions/coordinator.py:300-326 | an attempt that is READY_TO_COMMIT or later was told nothing but PASS of its stage |
| ProtocolQuestions.CleanupFailedExactly | agentkernel/transactions/coordinator.py:284-299 | a session skips the discard and reports its failure exactly if staging raised ROLLBACK_FAILED |
| ProtocolStages.DiscardedStagesAreGone | agentkernel/adapters/mock.py:155-212 | if stage ids are drawn once, no attempt that is ABORTED, STALE_STATE, COMMITTED or FAILED, and none that was discarded, has a stage in the adapter's table |
| Sessions.TransactionCoordinator.Admit | agentkernel/transactions/coordinator.py:76-89 | admission is one step of the machine |
| Sessions.TransactionCoordinator.Transaction | agentkernel/transactions/coordinator.py:66-164 | takes exactly its turns of the machine; hands out a session at rest, planned and NEW, or ends its transaction and raises; with working storage it raises exactly the exception of the checks or of `inspect`, and ends ABORTED for a cancellation and REJECTED for anything else |
| Sessions.TransactionSession.Send | agentkernel/transactions/coordinator.py:224-236 | one step of the machine, and a state that the table gives |
| Sessions.TransactionSession.Enter | agentkernel/transactions/coordinator.py:242-328 | with other sessions running before every step, exactly the machine's steps until it rests; from NEW it returns if and only if it ends at READY_TO_COMMIT, then with a staged receipt; a second entry is refused unchanged; if neither the journal nor `adapter.abort` failed, what it raises is the guard, the foreign owner, or the first fault or verdict of stage, execute and verify |
| Sessions.TransactionSession.Commit | agentkernel/transactions/coordinator.py:336-417 | likewise; from READY_TO_COMMIT it returns if and only if it ends COMMITTED, and only if the verdict in its last step but one was PASS; elsewhere it is refused unchanged; if neither the journal nor `adapter.abort` failed, STALE_STATE and FAILED come with STALE_STATE and with the fault of the verdict or VERIFICATION_FAILED |
| Sessions.TransactionSession.VerifyStage | agentkernel/transactions/coordinator.py:300-326 | the exception and the status are those that the adapter gives in this step, and decide the next event |
| Sessions.TransactionSession.VerifyCommitted | agentkernel/transactions/coordinator.py:398-412 | likewise, for the verdict on the commit |
| Sessions.TransactionSession.CommitEffect | agentkernel/transactions/coordinator.py:386-405 | the adapter call with a fault before it, a refusal, or a lost acknowledgement after it, is one step of the machine |
| Sessions.TransactionSession.CompleteAbort | agentkernel/transactions/coordinator.py:455-473 | from ABORTING exactly the machine's discard and completion, which ends in the recorded outcome if nothing is held or `adapter.abort` reports PASS, and in RECOVERY_FAILED otherwise; elsewhere nothing; never ends in success |
| Sessions.TransactionSession.AbortPrecommit | agentkernel/transactions/coordinator.py:442-453 | refused past the boundary, a no-op when ended, otherwise the machine's abort |
| Sessions.TransactionSession.Cancel | agentkernel/transactions/coordinator.py:419-423 | exactly the machine's steps; a COMMITTED transaction cannot be cancelled |
| Sessions.TransactionSession.EnforceDeadline | agentkernel/transactions/coordinator.py:431-440 | exactly the machine's steps; nothing before the deadline or after the end |
| Sessions.TransactionSession.Exit | agentkernel/transactions/coordinator.py:479-485 | exactly the machine's steps; with working storage leaves a closed session; an exit of ABORTING discards again |
| Sessions.TransactionSession.Closed | agentkernel/transactions/coordinator.py:238-485 | what any finished operation can leave |
| Sessions.Cluster.NothingLost | agentkernel/adapters/mock.py:155-182 | the target object holds its initial state with all writes applied in order |
| Sessions.Cluster.OutcomesAreTrue | agentkernel/transactions/coordinator.py:336-417 | the journal object tells the truth about every transaction |
| Sessions.Cluster.OutcomesHaveCauses | agentkernel/transactions/coordinator.py:275-417 | what the journal object says of a transaction is what its adapter reported and refused |
| Trees.ExecutionDecided | agentkernel/adapters/filesystem.py:353-366 | writing the files one by one fails exactly when the request clashes with itself or with the tree, in any order, and otherwise overlays exactly files and new parents |
| Trees.ScanNeighbours | agentkernel/adapters/filesystem.py:296-302 | the loop reports a conflict exactly when some parent is requested and shadowed by no key |
| Trees.NeighbourScanDecides | agentkernel/adapters/filesystem.py:296-302 | the exact reach of looking at neighbours only |
| Trees.ScanIsCompleteOnPlainKeys | agentkernel/adapters/filesystem.py:296-302 | sound and complete over keys with no character below '/' |
| Trees.ScanMissesShadowedParent | agentkernel/adapters/filesystem.py:296-302 | a request it misses |
| Trees.MissedConflictFailsInStaging | agentkernel/adapters/filesystem.py:296-365 | if the portable key of a requested file is that of a parent of another, whatever the scan missed, the writes fail or leave a stage that the closing snapshot refuses, in any order |
| Trees.SnapshotTree | agentkernel/snapshots/filesystem.py:182-206 | the loop over the entries refuses a tree exactly when two paths share a portable key, and a missing root; otherwise gives its digest |
| Trees.DiffSnapshots | agentkernel/snapshots/filesystem.py:209-234 | the loop computes the sorted list of differing paths |
| Trees.DiffMembers | agentkernel/snapshots/filesystem.py:209-234 | a path is in the diff exactly when its entries differ |
| Trees.PromotionRebuildsStage | agentkernel/adapters/filesystem.py:477-489 | copying only created and modified files, with their parents, rebuilds exactly the staged tree |
| Filesystem.FilesystemAdapter.Load | agentkernel/adapters/filesystem.py:203-228 | succeeds exactly when every manifest lies under its own receipt and no two are for one intent, and then remembers exactly the durable ones; otherwise INTEGRITY_ERROR at the first bad directory in sorted order, with the ones before it remembered |
| Filesystem.FilesystemAdapter.Inspect | agentkernel/adapters/filesystem.py:283-322 | refused exactly for shared portable keys, open conflicts and a workspace that no snapshot accepts; plans on the digest of the workspace |
| Filesystem.FilesystemAdapter.Stage | agentkernel/adapters/filesystem.py:325-351 | a private copy of the workspace of now, or nothing; refused for an aliased workspace |
| Filesystem.FilesystemAdapter.Execute | agentkernel/adapters/filesystem.py:353-371 | all files written into the stage and their snapshot accepted, or a failure that touches that stage only; when nothing fails, exactly which of the two and what the stage then holds |
| Filesystem.FilesystemAdapter.RestoreBackup | agentkernel/adapters/filesystem.py:394-406 | wherever it stops, the workspace is as before, the backup, or missing, and missing exactly in the cases of `LosesWorkspace`; an aliased backup is refused before anything moves |
| Filesystem.FilesystemAdapter.Promote | agentkernel/adapters/filesystem.py:477-489 | if the loop ends, the workspace is the promotion of the whole diff; how it ends is `PromotionSignal` of the faults it meets |
| Filesystem.FilesystemAdapter.Commit | agentkernel/adapters/filesystem.py:408-513 | under any faults, and with the backup on record intact, damaged or missing, does only what `CommitAllowed` permits; leaves no workspace exactly in the cases of `CommitLosesWorkspace`; when nothing fails it ends exactly as `CalmEnding` says |
| Filesystem.CleanStageIsDone | agentkernel/adapters/filesystem.py:477-513 | a stage that is what execution makes of the workspace is promoted whenever nothing fails |
| FilesystemEndings.CalmEndingDecided | agentkernel/adapters/filesystem.py:477-502 | from the two trees alone: when nothing fails, the promotion yields the stage exactly if the stage only adds files and keeps all kinds, and is left aliased and not undone exactly if no kinds clash and a deleted entry shares its portable key with a created one |
| FilesystemEndings.PromotionRebuilds | agentkernel/adapters/filesystem.py:477-489 | for any base tree and any well-formed stage, the promotion is refused exactly by a clash of kinds, and otherwise yields the base tree with the changed files and their parents |
| Filesystem.FilesystemAdapter.Rollback | agentkernel/adapters/filesystem.py:560-596 | under any faults, and with the backup intact, damaged or missing, does only what `RollbackAllowed` permits; leaves no workspace exactly in the cases of `LosesWorkspace` |
| Filesystem.FilesystemAdapter.Reconcile | agentkernel/adapters/filesystem.py:598-609 | compares the workspace with the remembered after- and before-digest, in that order |
| Filesystem.FilesystemAdapter.Abort | agentkernel/adapters/filesystem.py:534-558 | touches the stage only; ERROR if part of it remains; raises after the removal exactly if the workspace has no snapshot |
| Filesystem.MemoryIsDetermined | agentkernel/adapters/filesystem.py:203-228 | what a process remembers is determined by the disk |
| FilesystemRuns.CommitReportsItsTree | agentkernel/adapters/filesystem.py:408-513 | a returned receipt describes the workspace if and only if the work was found done or the stage is the recorded after-tree |
| FilesystemExamples.AnotherStageIsAnswered | agentkernel/adapters/filesystem.py:325-513 | calls, none of which fails, after which a returned receipt does not describe the workspace |
| FilesystemRuns.CommitIsAllOrNothing | agentkernel/adapters/filesystem.py:435-513 | staged tree on success; after a restoration that worked, the base tree if and only if the backup on record is intact. It reads off `CommitAllowed`: the work is in the contracts of `Commit`, `Attempt` and `Apply` |
| FilesystemRuns.CrashIsReconcilable | agentkernel/adapters/filesystem.py:436-502 | wherever one commit stops, a changed workspace has a durable manifest and a backup, equal to base on a first attempt or if the one on record was intact, and `reconcile` tells before, after and neither apart or raises. It reads off `CommitAllowed`: the work is in the contracts of `Commit`, `Attempt` and `Apply` |
| FilesystemExamples.UndoCanLoseWorkspace | agentkernel/adapters/filesystem.py:394-406 | calls that end without a workspace, with the backup of the base tree on record and `reconcile` raising |
| FilesystemRuns.AttemptsAreAccounted | agentkernel/adapters/filesystem.py:203-609 | over any run of attempts at one intent beside any other records, with faults, stops, restarts, rollbacks and retries, at every moment the base tree is in the workspace or in a recorded backup, and `reconcile` tells before, after and neither apart |
| FilesystemRuns.RestartIsInvisible | agentkernel/adapters/filesystem.py:203-228 | a restart loses and invents nothing |
| FilesystemRuns.RecordsAreForever | agentkernel/adapters/filesystem.py:408-476 | over any run of commits, rollbacks, crashes, restarts, edits and damaged backups, a recorded effect keeps its receipt, and no call of the adapter changes its backup |
| FilesystemRuns.ReturnedReceiptsAgree | agentkernel/adapters/filesystem.py:408-476 | all commits of one intent that ever return, return one receipt |
| FilesystemRuns.RetryIsIdempotent | agentkernel/adapters/filesystem.py:408-427 | no-op at the after-tree, refused unchanged at any third tree and at one without snapshot, one receipt always. It reads off `CommitAllowed`: the work is in the contract of `Commit` |
| FilesystemRuns.NoRetryWithoutBackup | agentkernel/adapters/filesystem.py:468-476 | without the backup on record a retry changes nothing, and returns only where the work was found done |
| FilesystemRuns.UnreadIsStuck | agentkernel/adapters/filesystem.py:493-502 | after a promotion that leaves aliased entries nothing is undone, and retry, rollback and `reconcile` are refused |
| FilesystemExamples.PromotionCanAlias | agentkernel/adapters/filesystem.py:477-502 | calls that lead there |
| FilesystemExamples.DamagedBackupIsRestored | agentkernel/adapters/filesystem.py:466-502 | calls in which a failed retry leaves the content of a replaced backup in the workspace |
| FilesystemRetries.AfterAnAttempt | agentkernel/adapters/filesystem.py:408-502 | after any attempt the work is done, or the attempt can be made again, or the workspace is neither tree and every attempt is refused |
| FilesystemRetries.AttemptsStayInHand | agentkernel/adapters/filesystem.py:203-513 | the same after any number of attempts at one staged receipt with restarts in between, and whatever any of them returned is the receipt on record |
| FilesystemRetries.ResumeAfterCrashes | agentkernel/adapters/filesystem.py:203-513 | any number of attempts under any faults, each followed by a restart; then from base or after-tree one attempt in good weather returns the one receipt and leaves the staged tree |
| FilesystemAnswers.CommitIsHeld | agentkernel/adapters/filesystem.py:408-476 | a commit changes nothing unless there is something to do, guard and workspace agree with the plan, the stage is the verified one and a retry has its backup |
| FilesystemAnswers.StaleExactly | agentkernel/adapters/filesystem.py:422-426 | STALE_STATE exactly if there is something to do and the guard, or a readable workspace, differs from the planned base; nothing is then changed |
| FilesystemAnswers.MissingExactly | agentkernel/adapters/filesystem.py:427-476 | INTEGRITY_ERROR exactly if an attempt in time has no stage, or a retry no backup; nothing is then changed |
| FilesystemAnswers.StageMovedExactly | agentkernel/adapters/filesystem.py:430-434 | VERIFICATION_FAILED, and nothing changed, for another stage than the verified one; otherwise only for a promotion that was undone |
| FilesystemAnswers.InDoubtExactly | agentkernel/adapters/filesystem.py:409-421 | EXTERNAL_RESULT_IN_DOUBT, and nothing changed, for a workspace that is neither tree of the effect on record; otherwise only once the staged tree is in place |
| FilesystemAnswers.ReturnedExactly | agentkernel/adapters/filesystem.py:409-513 | the receipt on record, and nothing changed, where its result is in the workspace; any other receipt only with the staged tree in place; a first one names the attempt and the two trees |
| FilesystemAnswers.UnreadableExactly | agentkernel/adapters/filesystem.py:409-434 | what a workspace or a stage without snapshot does to a commit |
| FilesystemAnswers.StageVerdictDecides | agentkernel/adapters/filesystem.py:373-434 | for a first attempt in time: PASS of `verify_staged` is exactly what lets `commit` go on, UNKNOWN its INTEGRITY_ERROR, and FAIL leads to VERIFICATION_FAILED |
| FilesystemAnswers.RollbackReports | agentkernel/adapters/filesystem.py:560-596 | UNKNOWN, ERROR and PASS of `rollback` in terms of the receipt on record, its backup and the two digests |
| FilesystemAnswers.CommitIsVerified | agentkernel/adapters/filesystem.py:408-532 | a commit that returned is verified with PASS exactly if it found the work done or staged the tree on record |
| Filesystem.FilesystemAdapter.VerifyStaged | agentkernel/adapters/filesystem.py:373-392 | UNKNOWN without the stage, PASS exactly for the recorded tree |
| Filesystem.FilesystemAdapter.VerifyCommitted | agentkernel/adapters/filesystem.py:515-532 | PASS exactly for the durable receipt at its after-tree |
| FilesystemRuns.RollbackIsGuarded | agentkernel/adapters/filesystem.py:560-596 | whatever the backups hold, changes something only for a remembered receipt at the committed after-tree with a backup of the before-tree; PASS only with the before-tree back |
| FilesystemRuns.RollbackInvertsCommit | agentkernel/adapters/filesystem.py:408-596 | after a commit that returned, a rollback that reports restores the tree before it exactly if the receipt describes the committed tree and the backup is intact; otherwise UNKNOWN or ERROR, and nothing changes |
| FilesystemRuns.SecondRollbackIsRefused | agentkernel/adapters/filesystem.py:560-596 | a second rollback of a non-trivial effect changes nothing |
| Decimals.RenderDecimal | agentkernel/canonical.py:43-69 | the popping loop renders the stripped digits; non-finite values fail |
| Decimals.RenderedParsesBack | agentkernel/canonical.py:43-69 | the rendered text reads back as exactly the value |
| Decimals.RendersAlikeIffEqual | agentkernel/canonical.py:43-69 | two finite decimals render alike exactly when numerically equal, signed zeros included |
| Decimals.RenderedIsPlain | agentkernel/canonical.py:43-69 | without a leading or trailing zero too many, and zero without a sign |
| JsonText.PrintedTextParses | agentkernel/canonical.py:120-129 | an RFC 8259 reader gives back the printed tree |
| JsonText.LayoutOfText | agentkernel/canonical.py:120-129 | arrays in order, objects by increasing key, each key once, nothing but commas and colons between |
| JsonText.PrintIsInjective | agentkernel/canonical.py:120-129 | equal text means equal tree |
| Canonical.Normalize | agentkernel/canonical.py:27-117 | the recursive loops compute the specification |
| CanonicalMeaning.NormalizedRepresents | agentkernel/canonical.py:27-117 | what the tree holds, for every kind of value: strings in normal form, decimals as text of their value, lists item by item, sets as all their items sorted by text, mappings as their entries |
| Canonical.RearrangedNormalizesAlike | agentkernel/canonical.py:91-110 | permuting mapping entries and sets at any depth gives the same tree or the same failure |
| Canonical.TextForgetsOrder | agentkernel/canonical.py:120-129 | likewise for the text |
| Canonical.TextDeterminesTree | agentkernel/canonical.py:120-129 | values share their text exactly when they share their normalized tree |
| Canonical.SortingForgetsOrder | agentkernel/canonical.py:108-110 | sorting by text depends on the items only, because text is injective |
| CanonicalLaws.EntriesDecided | agentkernel/canonical.py:91-107 | a mapping succeeds exactly with string keys that stay distinct under NFC and values that succeed, and then holds exactly its entries |
| CanonicalLaws.NormalizesIffRepresentable | agentkernel/canonical.py:27-117 | exactly these values have a canonical form |
| CanonicalLaws.NormalizationIsIdempotent | agentkernel/canonical.py:27-117 | normalizing again changes nothing |
| CanonicalLaws.SortKeyIsCanonicalText | agentkernel/canonical.py:108-110 | the sort key of a set item is its canonical text |
| CanonicalLaws.DigestDeterminesTree | agentkernel/canonical.py:132-147 | under an injective digest, equal content identity means equal normalized tree |
| Authority.WildcardMeaning | agentkernel/authority/service.py:46-57 | a terminal wildcard covers exactly what lies strictly below its directory |
| Authority.ScopeMeaning | agentkernel/authority/service.py:46-57 | for every scope: exact names match themselves, a terminal wildcard what lies strictly below its directory, any other wildcard raises |
| Authority.ScopesMeaning | agentkernel/authority/service.py:99-102 | a list of scopes covers a resource exactly if one of them does before a malformed one is met |
| Authority.CandidatesMeaning | agentkernel/authority/service.py:90-94 | exactly the grants with the identity of the request |
| Authority.AuthorityService.Check | agentkernel/authority/service.py:79-140 | the loop, over either kind of counters, computes the specification and touches nothing but the counters |
| Authority.CheckMeaning | agentkernel/authority/service.py:79-140 | for every input, in terms of identity, window, action, scopes and counted uses of the grants: the first grant that permits and has budget is allowed and spent, the first that raises decides that, and otherwise the answer is DENY with its flags |
| Authority.AllowsExactly | agentkernel/authority/service.py:79-140 | ALLOW for a capability exactly if its grant is the first usable one and none that raises stands before it |
| Authority.FirstUsableDecides | agentkernel/authority/service.py:96-121 | the first candidate that covers the request and has budget is allowed, and one use of it spent |
| Authority.NothingUsableDenies | agentkernel/authority/service.py:122-140 | otherwise DENY, nothing spent, EXPIRED exactly if some candidate covered the request |
| Authority.OnlyAllowSpends | agentkernel/authority/service.py:103-121 | nothing but ALLOW spends, and it spends one use below the budget |
| Authority.BudgetHolds | agentkernel/authority/service.py:79-140 | over any history of any services sharing counters, the ALLOWs of a capability are its counted uses and never exceed its largest budget |
| Authority.CountersAgree | agentkernel/authority/service.py:103-115 | in-memory and durable counters decide alike exactly when no empty budget is met, or the in-memory check raises anyway |
| Authority.HistoriesAgree | agentkernel/storage/sqlite.py:446-476 | with budgets of at least one they decide whole histories alike |
| Authority.EmptyBudgetsDiffer | agentkernel/storage/sqlite.py:449-453 | a budget of zero on which they differ |
| Policy.MatchesMeaning | agentkernel/policy/engine.py:298-320 | short-circuit matching of a compiled condition raises VALIDATION_ERROR if and only if it gets to a malformed scope, and computes the logical truth otherwise |
| Policy.LeafMeaning | agentkernel/policy/engine.py:298-320 | each of the seven predicates in terms of the fields of the context |
| Policy.CompilesExactly | agentkernel/policy/engine.py:202-262 | a condition compiles if and only if it has the documented shape and is not nested too deep |
| Policy.CompiledDecision | agentkernel/policy/engine.py:128-183 | the whole decision of a compiled bundle from the truth of its conditions in the context: verdict, reason, modes, obligations and the matched rules |
| Policy.Evaluate | agentkernel/policy/engine.py:128-183 | the accumulating loop computes the specification |
| Policy.DecisionMeaning | agentkernel/policy/engine.py:128-183 | eligible exactly when no deny matches, some grant does and their modes intersect; modes, obligations and reason in terms of the set of rules |
| Policy.EvaluationForgetsOrder | agentkernel/policy/engine.py:128-183 | permuting or duplicating rules changes neither failure, verdict, reason, modes nor obligations |
| Policy.TighteningNeverAllows | agentkernel/policy/engine.py:128-183 | adding deny or obligation rules never allows more |
| Policy.CompiledRaisesExactly | agentkernel/policy/engine.py:202-320 | evaluating a compiled bundle raises if and only if some rule gets to a malformed wildcard in this context, and then VALIDATION_ERROR |
| Policy.ReachedIsMalformed | agentkernel/policy/engine.py:298-320 | without a malformed wildcard in the condition, matching gets to none in any context |
| Policy.CompiledFiresOnTruth | agentkernel/policy/engine.py:202-320 | in a context in which no rule gets to a malformed wildcard, a rule fires exactly when its condition is true of the fields of the context |
| Policy.CompiledBundleCanRaise | agentkernel/policy/engine.py:229-235 | a bundle that compiles and raises |

## Left out

- BudgetHolds: several services are taken to share their counters, as they do through a journal; services counting in memory are each a history of their own.
- Reconcile: reading the workspace is taken to succeed unless it is missing or holds aliased entries.
- Load: a manifest that cannot be read or parsed; between calls, backups may be damaged but manifests are not.
- Exit: closing is promised for working storage; after a storage fault a session may rest anywhere the journal left it.
- The session object is created at admission instead of after `inspect`; its lock is the rule that an operation begins only at rest.
- Guards re-checked inside the staging and verification blocks are faults of the adapter call they precede.
- `verify_staged` and `verify_committed` of an adapter may report anything in the protocol; the `verification` field is not kept, and `verify_staged` of the mock, which compares a receipt with itself, is not modelled.
- The order in which the sessions of one process are woken is arbitrary; fairness is not modelled.
- Rule identifiers, messages and error details; reason codes are kept as the key of their row.
- Storing a record as JSON and loading it again is the identity; SQL, WAL, migrations and Pydantic checks are not modelled.
- Identifiers drawn by `new_id` are parameters; where freshness matters it is a premise or a unique key.
- The clock is a parameter.
- `normalize_relative_path`, `resolve_scoped_path` and the walk of `snapshot_tree`: paths are normalized already, a snapshot is the tree.
- Symlinks, mounts, devices, permission bits, and reading errors of a snapshot.
- The sorting of directory entries by `iterdir` is by name.
- `compensate`, the adapter registry, artifact storage, replay, model gateway, sandbox and command line.
- Floats, dates, bytes, UUIDs, enums and Pydantic models in canonical JSON; lone surrogates; UTF-8 encoding.
- SHA-256 and the tables of Unicode normalization.
- Policy YAML loading and `_bounded_shape`; the bundle digest.
- Saga states, compensation and the recovery scanner, which are documented but not implemented.
