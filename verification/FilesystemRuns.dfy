/** What commits, rollbacks, crashes and restarts of the filesystem adapter add up to. */
module FilesystemRuns {
  import opened Wrappers
  import opened Domain
  import opened Trees
  import opened Filesystem

  // ----- one commit -------------------------------------------------------------------------------

  /** The staged receipt records the tree the effect will be judged by: so for every first attempt,
      and for a retry of the staged receipt the manifest was written for. */
  predicate SameAfterTree(s: State, receipt: StagedReceipt) {
    receipt.plan.intentHash in s.byIntent ==>
      s.byIntent[receipt.plan.intentHash].receipt.versionAfter == receipt.staged
  }

  /** Durable and remembered are the same. */
  lemma SecuredIsRemembered(s: State, effect: EffectReceipt, backup: Tree)
    requires Valid(s)
    ensures Secured(s, effect, backup) ==>
              && effect.intentHash in s.byIntent
              && s.byIntent[effect.intentHash].receipt == effect
              && effect.receiptId in s.byReceipt
              && s.byReceipt[effect.receiptId].receipt == effect
  {}

  /** What is known of a call that went on: whose effect it is, and what it leaves. */
  lemma WentOn(s: State, receipt: StagedReceipt, guard: TargetVersion, freshId: string,
               now: int, out: Outcome, end: Ending, s': State)
    requires Valid(s) && Answer(s, receipt, guard).None?
    requires CommitAllowed(s, receipt, guard, freshId, now, out, end, s')
    ensures s.workspace.Some? && receipt.stageId in s.stages && UndoTree(s, receipt).Some?
    ensures var effect, backup := EffectOf(s, receipt, freshId, now), UndoTree(s, receipt).value;
            && effect.intentHash == receipt.plan.intentHash
            && effect.versionBefore == TreeDigest(s.workspace.value)
            && receipt.staged == TreeDigest(s.stages[receipt.stageId])
            && (SameAfterTree(s, receipt) <==> effect.versionAfter == receipt.staged)
            && (effect.intentHash in s.byIntent ==> effect == s.byIntent[effect.intentHash].receipt)
            && Recoverable(s, s', effect, backup, receipt.stageId)
            && (Secured(s', effect, backup) ==>
                  && effect.intentHash in s'.byIntent && s'.byIntent[effect.intentHash].receipt == effect
                  && effect.receiptId in s'.byReceipt && s'.byReceipt[effect.receiptId].receipt == effect)
            && (out.Returned? ==> out.receipt == effect && Secured(s', effect, backup))
    ensures !Aliased(s.workspace.value, s.fold)
    ensures UndoTree(s, receipt) == s.workspace <==> BackupIntact(s, receipt)
    ensures out.Returned? ==> s'.workspace == Some(s.stages[receipt.stageId])
    ensures end.Unread? ==>
              && s'.workspace.Some? && Aliased(s'.workspace.value, s'.fold)
              && Secured(s', EffectOf(s, receipt, freshId, now), UndoTree(s, receipt).value)
  {
    GoesOn(s, receipt, guard);
    if receipt.plan.intentHash in s.byIntent {
      RememberedIsSecured(s, receipt.plan.intentHash);
    }
    var effect, backup := EffectOf(s, receipt, freshId, now), UndoTree(s, receipt).value;
    assert effect.intentHash == receipt.plan.intentHash;
    assert effect.versionBefore == TreeDigest(s.workspace.value);
    assert SameAfterTree(s, receipt) <==> effect.versionAfter == receipt.staged;
    hide Answer, EffectOf, UndoTree, SameAfterTree, Aliased, Valid, LeavesOthersAlone, Diff, Trees.Promoted,
         BackupIntact;
    SecuredIsRemembered(s', effect, backup);
  }

  /** When a returned receipt describes the workspace: exactly when the call found the work done,
      or the stage holds the after-tree of the recorded effect.  A second staged receipt for the
      same intent with another tree is promoted, and answered with the first receipt. */
  lemma CommitReportsItsTree(s: State, receipt: StagedReceipt, guard: TargetVersion, freshId: string,
                             now: int, out: Outcome, end: Ending, s': State)
    requires Valid(s) && CommitAllowed(s, receipt, guard, freshId, now, out, end, s') && out.Returned?
    ensures s'.workspace.Some?
    ensures TreeDigest(s'.workspace.value) == out.receipt.versionAfter <==>
            Answer(s, receipt, guard).Some? || SameAfterTree(s, receipt)
  {
    if Answer(s, receipt, guard).None? {
      GoesOn(s, receipt, guard);
    }
    hide Valid, Recoverable;
  }

  /** Success leaves the staged tree, a raised failure whose restoration worked leaves the tree it
      was undone with, and that is the base tree if and only if the backup on record is intact. */
  lemma CommitIsAllOrNothing(s: State, receipt: StagedReceipt, guard: TargetVersion, freshId: string,
                             now: int, out: Outcome, end: Ending, s': State)
    requires Answer(s, receipt, guard).None?
    requires CommitAllowed(s, receipt, guard, freshId, now, out, end, s')
    ensures out.Returned? ==> s'.workspace == Some(s.stages[receipt.stageId])
    ensures end.NotPromoted? ==> out.Refused? && s'.workspace == s.workspace
    ensures end.Restored? ==> out.Refused? && (s'.workspace == s.workspace <==> BackupIntact(s, receipt))
    ensures end.Unread? || end.Broken? ==> !out.Returned?
  {
    GoesOn(s, receipt, guard);
    hide Answer, Valid, Recoverable, BackupIntact;
  }

  /** Without the backup on record a retry changes nothing, whatever else it finds. */
  lemma NoRetryWithoutBackup(s: State, receipt: StagedReceipt, guard: TargetVersion, freshId: string,
                             now: int, out: Outcome, end: Ending, s': State)
    requires receipt.plan.intentHash in s.byIntent && UndoTree(s, receipt).None?
    requires CommitAllowed(s, receipt, guard, freshId, now, out, end, s')
    ensures s' == s
    ensures out.Returned? ==>
              && out.receipt == s.byIntent[receipt.plan.intentHash].receipt
              && s.workspace.Some? && TreeDigest(s.workspace.value) == out.receipt.versionAfter
  {
    hide Valid, Recoverable, EndsAs;
  }

  /** Wherever the call stops, the workspace is as it was or can be put back to the tree that failed
      attempts are undone with, which is the base tree if the backup on record is intact, as it is
      for every first attempt; and what `reconcile` says after a restart is exact when base and
      after-tree differ. */
  lemma CrashIsReconcilable(s: State, receipt: StagedReceipt, guard: TargetVersion, freshId: string,
                            now: int, out: Outcome, end: Ending, s': State)
    requires Valid(s) && Answer(s, receipt, guard).None? && SameAfterTree(s, receipt)
    requires CommitAllowed(s, receipt, guard, freshId, now, out, end, s')
    ensures s.workspace.Some? && receipt.stageId in s.stages && UndoTree(s, receipt).Some?
    ensures var base, staged := s.workspace.value, s.stages[receipt.stageId];
            var effect := EffectOf(s, receipt, freshId, now);
            && (s'.workspace != Some(base) ==> Secured(s', effect, UndoTree(s, receipt).value))
            && (s'.workspace != Some(base) && BackupIntact(s, receipt) ==> Secured(s', effect, base))
            && (base != staged && Snapshot(s'.workspace, s'.fold).Success? ==>
                  ReconcilesTo(s', effect.intentHash, base, staged))
            && (Snapshot(s'.workspace, s'.fold).Failure? ==>
                  Reconciled(s', effect.intentHash) == Failure(Snapshot(s'.workspace, s'.fold).error))
  {
    hide Answer, CommitAllowed, EffectOf, SameAfterTree, UndoTree, BackupIntact, Aliased, Valid, LeavesOthersAlone;
    WentOn(s, receipt, guard, freshId, now, out, end, s');
  }

  /** `reconcile` tells the base tree, the after-tree and every other tree apart. */
  predicate ReconcilesTo(s: State, intentHash: string, base: Tree, staged: Tree)
    requires s.workspace.Some?
  {
    Reconciled(s, intentHash) == Success(
      if s.workspace.value == staged then ReconcileCommitted
      else if s.workspace.value == base then ReconcileNoEffect
      else ReconcilePartial)
  }

  // ----- rollback ---------------------------------------------------------------------------------

  /** Rollback changes the workspace only if it is the committed after-tree and the backup is the
      before-tree, and reports PASS only when the before-tree is back. */
  lemma RollbackIsGuarded(s: State, receipt: EffectReceipt, out: RollbackOutcome, s': State)
    requires RollbackAllowed(s, receipt, out, s')
    ensures s' != s ==>
              && receipt.receiptId in s.byReceipt && s.byReceipt[receipt.receiptId].receipt == receipt
              && s.workspace.Some? && TreeDigest(s.workspace.value) == receipt.versionAfter
              && receipt.receiptId in s.recovery && s.recovery[receipt.receiptId].backup.Some?
              && TreeDigest(s.recovery[receipt.receiptId].backup.value) == receipt.versionBefore
    ensures out == Reported(Pass) ==>
              s'.workspace.Some? && TreeDigest(s'.workspace.value) == receipt.versionBefore
    ensures out.Reported? && out.status != Pass ==> s' == s
  {
    hide Valid, SameBackups, Aliased;
  }

  /** After a rollback that restored something, a second one of an effect that is not trivial finds
      nothing to undo and changes nothing. */
  lemma SecondRollbackIsRefused(s: State, receipt: EffectReceipt, undone: RollbackOutcome, s1: State,
                                again: RollbackOutcome, s2: State)
    requires RollbackAllowed(s, receipt, undone, s1) && undone == Reported(Pass)
    requires receipt.versionBefore != receipt.versionAfter
    requires RollbackAllowed(s1, receipt, again, s2)
    ensures again == Reported(Unknown) && s2 == s1
  {
    RollbackIsGuarded(s, receipt, undone, s1);
    assert RollbackAnswer(s1, receipt) == Some(Reported(Unknown));
    hide RollbackAnswer, Valid;
  }

  /** A rollback that reports after a commit that returned restores the tree before the commit,
      exactly if the receipt describes the committed tree and the backup is intact, as they are
      for every first attempt; otherwise it says so and changes nothing. */
  lemma RollbackInvertsCommit(s: State, receipt: StagedReceipt, guard: TargetVersion, freshId: string,
                              now: int, out: Outcome, end: Ending, s1: State,
                              undone: RollbackOutcome, s2: State)
    requires Valid(s) && Answer(s, receipt, guard).None?
    requires CommitAllowed(s, receipt, guard, freshId, now, out, end, s1) && out.Returned?
    requires RollbackAllowed(s1, out.receipt, undone, s2) && undone.Reported?
    ensures if !SameAfterTree(s, receipt) then undone == Reported(Unknown) && s2 == s1
            else if !BackupIntact(s, receipt) then undone == Reported(Error) && s2 == s1
            else undone == Reported(Pass) && s2.workspace == s.workspace
  {
    hide Answer, CommitAllowed, Valid, SameAfterTree, EffectOf, UndoTree, BackupIntact, Aliased,
         LeavesOthersAlone, SameBackups;
    WentOn(s, receipt, guard, freshId, now, out, end, s1);
  }

  // ----- runs ---------------------------------------------------------------------------------------

  /** The calls of a run.  An edit is anything that is done to the workspace between calls, a damage
      anything that is done to backups, and staging stands for `stage`, `execute` and `abort`, which
      touch stages only. */
  datatype Call =
    | Commits(receipt: StagedReceipt, guard: TargetVersion, freshId: string, now: int, out: Outcome,
              end: Ending)
    | RollsBack(effect: EffectReceipt, report: RollbackOutcome)
    | Restarts
    | Stages
    | Edits
    | Damages

  ghost predicate Happens(s: State, c: Call, s': State) {
    match c
    case Commits(receipt, guard, freshId, now, out, end) =>
      freshId !in s.recovery && CommitAllowed(s, receipt, guard, freshId, now, out, end, s')
    case RollsBack(effect, report) => RollbackAllowed(s, effect, report, s')
    case Restarts => Valid(s') && s' == s.(byReceipt := s'.byReceipt, byIntent := s'.byIntent)
    case Stages => s' == s.(stages := s'.stages)
    case Edits => s' == s.(workspace := s'.workspace)
    case Damages => s' == s.(recovery := s'.recovery) && SameManifests(s.recovery, s'.recovery)
  }

  /** Only backups differ: lost, replaced or come back. */
  predicate SameManifests(before: map<string, RecoveryDirectory>, after: map<string, RecoveryDirectory>) {
    && after.Keys == before.Keys
    && (forall r | r in before :: after[r].manifest == before[r].manifest)
  }

  ghost predicate IsRun(states: seq<State>, calls: seq<Call>) {
    && |states| == |calls| + 1 && Valid(states[0])
    && (forall i | 0 <= i < |calls| :: Happens(states[i], calls[i], states[i + 1]))
  }

  /** A restart loses nothing: the process remembers what it remembered before. */
  lemma RestartIsInvisible(s: State, s': State)
    requires Valid(s) && Happens(s, Restarts, s')
    ensures s' == s
  {
    MemoryIsDetermined(s.recovery, s.byReceipt, s.byIntent, s'.byReceipt, s'.byIntent);
  }

  lemma StepKeepsValid(s: State, c: Call, s': State)
    requires Valid(s) && Happens(s, c, s')
    ensures Valid(s')
  {
    if c.Damages? {
      DamageKeepsValid(s, s');
    } else {
      hide EndsAs, Answer, SameBackups, RollbackAnswer, LeavesOthersAlone, Secured, DiskOk, Remembers;
    }
  }

  lemma DamageKeepsValid(s: State, s': State)
    requires Valid(s) && s' == s.(recovery := s'.recovery) && SameManifests(s.recovery, s'.recovery)
    ensures Valid(s')
  {
    forall r | r in s'.recovery ensures InPlace(r, s'.recovery[r]) {
      assert InPlace(r, s.recovery[r]);
    }
  }

  /** The backup in the directory of the effect on record. */
  function BackupOf(s: State, intentHash: string): Option<Tree> {
    if intentHash in s.byIntent then BackupIn(s.recovery, s.byIntent[intentHash].receipt.receiptId) else None
  }

  /** An effect other than the one worked on keeps its record. */
  lemma OthersKeepRecord(s: State, s': State, effect: EffectReceipt, stageId: string, h: string)
    requires Valid(s) && Valid(s') && LeavesOthersAlone(s, s', effect, stageId)
    requires h in s.byIntent && s.byIntent[h].receipt.receiptId != effect.receiptId
    ensures Known(s', h) == Known(s, h) && BackupOf(s', h) == BackupOf(s, h)
  {
    var id := s.byIntent[h].receipt.receiptId;
    assert id in s.recovery - {effect.receiptId};
    assert s'.recovery[id] == s.recovery[id];
  }

  lemma CommitKeepsRecord(s: State, receipt: StagedReceipt, guard: TargetVersion, freshId: string,
                          now: int, out: Outcome, end: Ending, s': State, h: string)
    requires Valid(s) && freshId !in s.recovery && h in s.byIntent
    requires CommitAllowed(s, receipt, guard, freshId, now, out, end, s')
    ensures Known(s', h) == Known(s, h) && BackupOf(s', h) == BackupOf(s, h)
  {
    if Answer(s, receipt, guard).None? {
      WentOn(s, receipt, guard, freshId, now, out, end, s');
      var effect, backup := EffectOf(s, receipt, freshId, now), UndoTree(s, receipt).value;
      RememberedIsSecured(s, h);
      hide Answer, CommitAllowed, EffectOf, Valid, LeavesOthersAlone;
      if h == receipt.plan.intentHash {
        assert Some(backup) == BackupOf(s, h);
      } else {
        hide UndoTree;
        assert effect.receiptId != s.byIntent[h].receipt.receiptId by {
          NewEffectIsApart(s, receipt, freshId, now, h);
        }
        OthersKeepRecord(s, s', effect, receipt.stageId, h);
      }
    }
  }

  lemma NewEffectIsApart(s: State, receipt: StagedReceipt, freshId: string, now: int, h: string)
    requires Valid(s) && freshId !in s.recovery && h in s.byIntent && h != receipt.plan.intentHash
    requires s.workspace.Some? && receipt.stageId in s.stages
    ensures EffectOf(s, receipt, freshId, now).receiptId != s.byIntent[h].receipt.receiptId
  {
    RememberedIsSecured(s, h);
    if receipt.plan.intentHash in s.byIntent {
      RememberedIsSecured(s, receipt.plan.intentHash);
    }
  }

  lemma RollbackKeepsRecord(s: State, effect: EffectReceipt, out: RollbackOutcome, s': State, h: string)
    requires Valid(s) && h in s.byIntent && RollbackAllowed(s, effect, out, s')
    ensures Known(s', h) == Known(s, h) && BackupOf(s', h) == BackupOf(s, h)
  {
    if s' != s {
      var id := s.byIntent[h].receipt.receiptId;
      assert s.recovery[id].manifest == Some(s.byIntent[h]);
      assert SameBackups(s.recovery, s'.recovery) && Valid(s');
      hide RollbackAllowed;
      assert s'.recovery[id].manifest.Some?;
    }
  }

  lemma StepKeepsRecord(s: State, c: Call, s': State, h: string)
    requires Valid(s) && Happens(s, c, s') && h in s.byIntent
    ensures Known(s', h) == Known(s, h)
    ensures !c.Damages? ==> BackupOf(s', h) == BackupOf(s, h)
  {
    match c
    case Commits(receipt, guard, freshId, now, out, end) =>
      CommitKeepsRecord(s, receipt, guard, freshId, now, out, end, s', h);
    case RollsBack(effect, report) => RollbackKeepsRecord(s, effect, report, s', h);
    case Restarts => RestartIsInvisible(s, s');
    case Stages =>
    case Edits =>
    case Damages =>
  }

  lemma {:induction false} RunsKeepValid(states: seq<State>, calls: seq<Call>, i: nat)
    requires IsRun(states, calls) && i < |states|
    ensures Valid(states[i])
  {
    if i > 0 {
      RunsKeepValid(states, calls, i - 1);
      hide Valid, Happens;
      StepKeepsValid(states[i - 1], calls[i - 1], states[i]);
    }
  }

  /** Once an effect is on record, its receipt stays what it is, whatever is retried, rolled back,
      interrupted, restarted, edited or damaged; and no call of the adapter changes its backup. */
  lemma {:induction false} RecordsAreForever(states: seq<State>, calls: seq<Call>, i: nat, j: nat, h: string)
    requires IsRun(states, calls) && i <= j < |states|
    requires h in states[i].byIntent
    ensures Known(states[j], h) == Known(states[i], h)
    ensures (forall k | i <= k < j :: !calls[k].Damages?) ==> BackupOf(states[j], h) == BackupOf(states[i], h)
    decreases j
  {
    hide Valid, Happens, BackupOf;
    if i < j {
      RecordsAreForever(states, calls, i, j - 1, h);
      RunsKeepValid(states, calls, j - 1);
      StepKeepsRecord(states[j - 1], calls[j - 1], states[j], h);
    }
  }

  /** A commit that returns has its receipt on record. */
  lemma ReturnedIsRecorded(s: State, c: Call, s': State)
    requires Valid(s) && Happens(s, c, s') && c.Commits? && c.out.Returned?
    ensures Known(s', c.receipt.plan.intentHash) == Some(c.out.receipt)
  {
    if Answer(s, c.receipt, c.guard).None? {
      WentOn(s, c.receipt, c.guard, c.freshId, c.now, c.out, c.end, s');
      hide *;
    }
  }

  /** All commits of one intent that ever return, return the same receipt. */
  lemma ReturnedReceiptsAgree(states: seq<State>, calls: seq<Call>, i: nat, j: nat)
    requires IsRun(states, calls) && i < |calls| && j < |calls|
    requires calls[i].Commits? && calls[i].out.Returned? && calls[j].Commits? && calls[j].out.Returned?
    requires calls[i].receipt.plan.intentHash == calls[j].receipt.plan.intentHash
    ensures calls[i].out.receipt == calls[j].out.receipt
  {
    var h := calls[i].receipt.plan.intentHash;
    assert Happens(states[i], calls[i], states[i + 1]) && Happens(states[j], calls[j], states[j + 1]);
    RunsKeepValid(states, calls, i);
    RunsKeepValid(states, calls, j);
    hide Valid, Happens, BackupOf;
    ReturnedIsRecorded(states[i], calls[i], states[i + 1]);
    ReturnedIsRecorded(states[j], calls[j], states[j + 1]);
    if i <= j {
      RecordsAreForever(states, calls, i + 1, j + 1, h);
    } else {
      RecordsAreForever(states, calls, j + 1, i + 1, h);
    }
  }

  /** Where one intent stands that takes `base` to `after`: nothing is on record and the workspace
      is untouched, or its effect is on record beside a backup of `base`. */
  predicate Accounted(s: State, h: string, base: Tree, after: Tree) {
    && (h !in s.byIntent ==> s.workspace == Some(base))
    && (h in s.byIntent ==>
          && BackupOf(s, h) == Some(base)
          && s.byIntent[h].receipt.versionBefore == TreeDigest(base)
          && s.byIntent[h].receipt.versionAfter == TreeDigest(after))
  }

  /** A call about that intent, or one that is about others and leaves the workspace as it was;
      nobody edits the workspace or damages backups. */
  predicate About(s: State, c: Call, s': State, h: string, after: Tree) {
    match c
    case Commits(receipt, _, _, _, _, _) =>
      if receipt.plan.intentHash == h then receipt.staged == TreeDigest(after)
      else s'.workspace == s.workspace
    case RollsBack(effect, _) => effect.intentHash == h || s'.workspace == s.workspace
    case Restarts => true
    case Stages => true
    case Edits => false
    case Damages => false
  }

  lemma SameDirectory(s: State, s': State, effect: EffectReceipt, stageId: string, id: string)
    requires LeavesOthersAlone(s, s', effect, stageId) && id in s'.recovery && id != effect.receiptId
    ensures id in s.recovery && s.recovery[id] == s'.recovery[id]
  {
    assert id in s'.recovery - {effect.receiptId};
  }

  /** Every intent on record after a commit is that of its effect or was on record before. */
  lemma NoStrangeIntent(s: State, s': State, effect: EffectReceipt, backup: Tree, stageId: string, i: string)
    requires Valid(s) && Recoverable(s, s', effect, backup, stageId) && i in s'.byIntent
    ensures i == effect.intentHash || i in s.byIntent
  {
    var id := s'.byIntent[i].receipt.receiptId;
    assert id in s'.recovery && s'.recovery[id].manifest == Some(s'.byIntent[i]);
    if id != effect.receiptId {
      SameDirectory(s, s', effect, stageId, id);
    }
  }

  /** A first attempt: the workspace is still the base tree, or the effect is on record. */
  lemma FirstCommitIsAccounted(s: State, c: Call, s': State, h: string, base: Tree, after: Tree)
    requires Valid(s) && Happens(s, c, s') && c.Commits? && About(s, c, s', h, after)
    requires h !in s.byIntent && s.workspace == Some(base)
    ensures Accounted(s', h, base, after)
  {
    if Answer(s, c.receipt, c.guard).None? {
      WentOn(s, c.receipt, c.guard, c.freshId, c.now, c.out, c.end, s');
      var effect, backup := EffectOf(s, c.receipt, c.freshId, c.now), UndoTree(s, c.receipt).value;
      assert c.receipt.plan.intentHash == h ==> backup == base;
      hide Answer, CommitAllowed, EffectOf, UndoTree, Valid, LeavesOthersAlone;
      if h in s'.byIntent {
        NoStrangeIntent(s, s', effect, backup, c.receipt.stageId, h);
      }
    }
  }

  lemma FirstRollbackIsAccounted(s: State, effect: EffectReceipt, out: RollbackOutcome, s': State, h: string)
    requires Valid(s) && RollbackAllowed(s, effect, out, s') && h !in s.byIntent
    ensures h !in s'.byIntent
    ensures effect.intentHash == h ==> s' == s
  {
    if RollbackAnswer(s, effect).None? {
      assert s.recovery[effect.receiptId].manifest == Some(s.byReceipt[effect.receiptId]);
      forall i | i in s'.byIntent ensures i in s.byIntent {
        var id := s'.byIntent[i].receipt.receiptId;
        assert s.recovery[id].manifest.Some?;
      }
    }
  }

  lemma StaysAccounted(s: State, c: Call, s': State, h: string, base: Tree, after: Tree)
    requires Valid(s) && Happens(s, c, s') && About(s, c, s', h, after) && Accounted(s, h, base, after)
    ensures Accounted(s', h, base, after)
  {
    if h in s.byIntent {
      hide Valid, CommitAllowed, RollbackAllowed, SameManifests;
      StepKeepsRecord(s, c, s', h);
    } else {
      match c
      case Commits(_, _, _, _, _, _) => FirstCommitIsAccounted(s, c, s', h, base, after);
      case RollsBack(effect, report) => FirstRollbackIsAccounted(s, effect, report, s', h);
      case Restarts => RestartIsInvisible(s, s');
      case Stages =>
      case Edits =>
      case Damages =>
    }
  }

  /** From an adapter that has no record of the intent, beside whatever others it has, over any run
      of attempts at it, under any faults, with stops, restarts, rollbacks and retries: at every
      moment the base tree is in the workspace or in the backup of a durable record, and `reconcile`
      tells before, after and neither apart whenever it can read the workspace. */
  lemma {:induction false} AttemptsAreAccounted(states: seq<State>, calls: seq<Call>, k: nat, h: string,
                                                base: Tree, after: Tree)
    requires IsRun(states, calls) && k < |states|
    requires h !in states[0].byIntent && states[0].workspace == Some(base)
    requires forall i | 0 <= i < |calls| :: About(states[i], calls[i], states[i + 1], h, after)
    ensures Accounted(states[k], h, base, after)
    ensures h in states[k].byIntent ==> Secured(states[k], states[k].byIntent[h].receipt, base)
    ensures base != after && Snapshot(states[k].workspace, states[k].fold).Success? ==>
              ReconcilesTo(states[k], h, base, after)
  {
    hide Happens, Valid, About;
    if k > 0 {
      AttemptsAreAccounted(states, calls, k - 1, h, base, after);
      RunsKeepValid(states, calls, k - 1);
      hide Accounted;
      StaysAccounted(states[k - 1], calls[k - 1], states[k], h, base, after);
    }
    RunsKeepValid(states, calls, k);
    AccountedReconciles(states[k], h, base, after);
  }

  lemma AccountedReconciles(s: State, h: string, base: Tree, after: Tree)
    requires Valid(s) && Accounted(s, h, base, after)
    ensures h in s.byIntent ==> Secured(s, s.byIntent[h].receipt, base)
    ensures base != after && Snapshot(s.workspace, s.fold).Success? ==> ReconcilesTo(s, h, base, after)
  {
    hide Valid, Aliased;
    if h in s.byIntent {
      RememberedIsSecured(s, h);
    }
  }

  /** A retry does nothing at the after-tree, refuses without change at every tree that is neither
      before nor after and at every one that no snapshot accepts, and gives the recorded receipt
      whenever it returns. */
  lemma RetryIsIdempotent(s: State, receipt: StagedReceipt, guard: TargetVersion, freshId: string,
                          now: int, out: Outcome, end: Ending, s': State)
    requires receipt.plan.intentHash in s.byIntent
    requires CommitAllowed(s, receipt, guard, freshId, now, out, end, s')
    ensures var effect, tree := s.byIntent[receipt.plan.intentHash].receipt, Snapshot(s.workspace, s.fold);
            && (tree == Success(effect.versionAfter) ==> out == Returned(effect) && s' == s)
            && (tree.Success? && tree.value != effect.versionAfter && tree.value != effect.versionBefore ==>
                  out == Refused(ExternalResultInDoubt) && s' == s)
            && (tree.Failure? ==> out == Refused(tree.error) && s' == s)
            && (out.Returned? ==> out.receipt == effect)
  {
    hide Valid, Recoverable, Secured, Aliased;
  }

  /** A promotion that leaves aliased entries is not undone, and from then on the adapter refuses
      everything about the effect: retry, rollback and reconciliation. */
  lemma UnreadIsStuck(s: State, receipt: StagedReceipt, guard: TargetVersion, freshId: string, now: int,
                      out: Outcome, end: Ending, s': State)
    requires Valid(s) && Answer(s, receipt, guard).None? && end.Unread?
    requires CommitAllowed(s, receipt, guard, freshId, now, out, end, s')
    ensures var effect := EffectOf(s, receipt, freshId, now);
            && s'.workspace != s.workspace && Known(s', effect.intentHash) == Some(effect)
            && Reconciled(s', effect.intentHash) == Failure(ValidationError)
            && RollbackAnswer(s', effect) == Some(RollbackRaised)
            && (forall g :: Answer(s', receipt, g) == Some(Refused(ValidationError)))
  {
    hide Aliased, Valid, EffectOf, UndoTree, CommitAllowed, LeavesOthersAlone, BackupIntact;
    WentOn(s, receipt, guard, freshId, now, out, end, s');
  }

  lemma OneNewDirectory(s: State, receipt: StagedReceipt, guard: TargetVersion, freshId: string,
                        now: int, out: Outcome, end: Ending, s': State, id: string)
    requires Valid(s) && CommitAllowed(s, receipt, guard, freshId, now, out, end, s')
    requires id != freshId && id !in s.recovery
    ensures id !in s'.recovery
  {
    if Answer(s, receipt, guard).None? {
      GoesOn(s, receipt, guard);
      var effect := EffectOf(s, receipt, freshId, now);
      assert effect.receiptId != id by {
        if receipt.plan.intentHash in s.byIntent {
          RememberedIsSecured(s, receipt.plan.intentHash);
        }
      }
      assert id in s'.recovery ==> id in s'.recovery - {effect.receiptId};
    }
  }

  /** A call that goes on from a clean stage is done when nothing fails. */
  lemma ReturnedLeavesStage(s: State, receipt: StagedReceipt, guard: TargetVersion, freshId: string,
                            now: int, out: Outcome, end: Ending, s': State)
    requires Valid(s) && CommitAllowed(s, receipt, guard, freshId, now, out, end, s')
    ensures Valid(s')
    ensures Answer(s, receipt, guard).Some? ==> s' == s && out == Answer(s, receipt, guard).value
    ensures Answer(s, receipt, guard).None? ==>
              && receipt.stageId in s.stages && s.workspace.Some? && UndoTree(s, receipt).Some?
              && (CleanStage(s, receipt) ==> CalmEnding(s, receipt) == Done)
              && (out.Returned? ==> s'.workspace == Some(s.stages[receipt.stageId]))
  {
    if Answer(s, receipt, guard).None? {
      GoesOn(s, receipt, guard);
      if CleanStage(s, receipt) {
        CleanStageIsDone(s, receipt);
      }
    }
    hide Answer, LeavesOthersAlone, Secured, DiskOk, Remembers, UndoTree, CalmEnding, CleanStage;
  }
}
