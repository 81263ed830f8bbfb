/** What a commit, a rollback and a verification answer, told from the trees on disk, the plan and the
    guard alone. */
module FilesystemAnswers {
  import opened Wrappers
  import opened Domain
  import opened Trees
  import opened Filesystem
  import opened FilesystemRuns

  // ----- what is on disk ----------------------------------------------------------------------------

  predicate Readable(s: State) {
    s.workspace.Some? && !Aliased(s.workspace.value, s.fold)
  }

  /** The workspace is readable, and its digest is this. */
  predicate Reads(s: State, v: TargetVersion) {
    Readable(s) && TreeDigest(s.workspace.value) == v
  }

  /** The stage is there and readable, and its digest is the one that was verified. */
  predicate StageStands(s: State, receipt: StagedReceipt) {
    && receipt.stageId in s.stages && !Aliased(s.stages[receipt.stageId], s.fold)
    && TreeDigest(s.stages[receipt.stageId]) == receipt.staged
  }

  /** The stage is there and readable, and it is another tree. */
  predicate StageMoved(s: State, receipt: StagedReceipt) {
    && receipt.stageId in s.stages && !Aliased(s.stages[receipt.stageId], s.fold)
    && TreeDigest(s.stages[receipt.stageId]) != receipt.staged
  }

  predicate OnRecord(s: State, intent: string) {
    intent in s.byIntent
  }

  /** The effect is on record, and the workspace is neither the tree it started from nor its result. */
  predicate Astray(s: State, intent: string) {
    && OnRecord(s, intent) && Readable(s)
    && !Reads(s, s.byIntent[intent].receipt.versionBefore) && !Reads(s, s.byIntent[intent].receipt.versionAfter)
  }

  /** There is something to do: nothing is on record, or the workspace is still the tree that the effect on
      record started from, and not its result. */
  predicate Attempted(s: State, intent: string) {
    OnRecord(s, intent) ==>
      && Reads(s, s.byIntent[intent].receipt.versionBefore)
      && !Reads(s, s.byIntent[intent].receipt.versionAfter)
  }

  /** The guard and the workspace agree with the plan. */
  predicate InTime(s: State, plan: Plan, guard: TargetVersion) {
    guard == plan.baseVersion && Reads(s, plan.baseVersion)
  }

  /** The guard, or a workspace that can be read, differs from the plan. */
  predicate TooLate(s: State, plan: Plan, guard: TargetVersion) {
    guard != plan.baseVersion || (Readable(s) && !Reads(s, plan.baseVersion))
  }

  /** The backup of the effect on record is missing. */
  predicate BackupMissing(s: State, intent: string) {
    && OnRecord(s, intent)
    && var id := s.byIntent[intent].receipt.receiptId;
       id !in s.recovery || s.recovery[id].backup.None?
  }

  /** Nothing speaks against the attempt. */
  predicate Clear(s: State, receipt: StagedReceipt, guard: TargetVersion) {
    && Attempted(s, receipt.plan.intentHash) && InTime(s, receipt.plan, guard) && StageStands(s, receipt)
    && !BackupMissing(s, receipt.plan.intentHash)
  }

  // ----- commit -------------------------------------------------------------------------------------

  /** Unless nothing speaks against it, a commit changes nothing. */
  lemma CommitIsHeld(s: State, receipt: StagedReceipt, guard: TargetVersion, freshId: string, now: int,
                     out: Outcome, end: Ending, s': State)
    requires CommitAllowed(s, receipt, guard, freshId, now, out, end, s')
    ensures !Clear(s, receipt, guard) ==> s' == s && !out.Crashed?
    ensures Clear(s, receipt, guard) <==> Answer(s, receipt, guard).None?
  {
    hide Aliased, Recoverable, EndsAs;
  }

  /** STALE_STATE is raised exactly if there is something to do and the guard, or a workspace that can
      be read, differs from the planned base; nothing was then changed. */
  lemma StaleExactly(s: State, receipt: StagedReceipt, guard: TargetVersion, freshId: string, now: int,
                     out: Outcome, end: Ending, s': State)
    requires CommitAllowed(s, receipt, guard, freshId, now, out, end, s')
    ensures out == Refused(StaleTarget) <==>
            Attempted(s, receipt.plan.intentHash) && TooLate(s, receipt.plan, guard)
    ensures out == Refused(StaleTarget) ==> s' == s
  {
    hide Aliased, Recoverable;
  }

  /** INTEGRITY_ERROR is raised exactly if an attempt in time finds no stage, or, for a retry, no backup
      beside the effect on record; nothing was then changed. */
  lemma MissingExactly(s: State, receipt: StagedReceipt, guard: TargetVersion, freshId: string, now: int,
                       out: Outcome, end: Ending, s': State)
    requires CommitAllowed(s, receipt, guard, freshId, now, out, end, s')
    ensures out == Refused(IntegrityError) <==>
            && Attempted(s, receipt.plan.intentHash) && InTime(s, receipt.plan, guard)
            && (receipt.stageId !in s.stages
                || (StageStands(s, receipt) && BackupMissing(s, receipt.plan.intentHash)))
    ensures out == Refused(IntegrityError) ==> s' == s
  {
    hide Aliased, Recoverable;
  }

  /** VERIFICATION_FAILED is raised if an attempt in time finds another stage than the verified one, and
      changes nothing; and otherwise only by a promotion that was undone with its backup. */
  lemma StageMovedExactly(s: State, receipt: StagedReceipt, guard: TargetVersion, freshId: string, now: int,
                          out: Outcome, end: Ending, s': State)
    requires CommitAllowed(s, receipt, guard, freshId, now, out, end, s')
    ensures var moved := Attempted(s, receipt.plan.intentHash) && InTime(s, receipt.plan, guard)
                         && StageMoved(s, receipt);
            && (moved ==> out == Refused(VerificationFailed) && s' == s)
            && (out == Refused(VerificationFailed) ==>
                  moved || (Clear(s, receipt, guard) && s'.workspace == UndoTree(s, receipt)))
  {
    hide Aliased, Recoverable;
  }

  /** EXTERNAL_RESULT_IN_DOUBT is raised if the workspace is neither tree of the effect on record, and
      changes nothing; and otherwise only once the staged tree is in place. */
  lemma InDoubtExactly(s: State, receipt: StagedReceipt, guard: TargetVersion, freshId: string, now: int,
                       out: Outcome, end: Ending, s': State)
    requires CommitAllowed(s, receipt, guard, freshId, now, out, end, s')
    ensures var astray := Astray(s, receipt.plan.intentHash);
            && (astray ==> out == Refused(ExternalResultInDoubt) && s' == s)
            && (out == Refused(ExternalResultInDoubt) ==>
                  || astray
                  || (Clear(s, receipt, guard) && s'.workspace == Some(s.stages[receipt.stageId])))
  {
    hide Aliased, Recoverable;
  }

  /** An effect on record whose result is in the workspace is answered with its receipt, whatever the guard
      and the stage say; any other receipt is returned only for the staged tree in place, and a first
      one names the attempt and the two trees. */
  lemma ReturnedExactly(s: State, receipt: StagedReceipt, guard: TargetVersion, freshId: string, now: int,
                        out: Outcome, end: Ending, s': State)
    requires Valid(s)
    requires CommitAllowed(s, receipt, guard, freshId, now, out, end, s')
    ensures var intent := receipt.plan.intentHash;
            var done := OnRecord(s, intent) && Reads(s, s.byIntent[intent].receipt.versionAfter);
            && (done ==> out == Returned(s.byIntent[intent].receipt) && s' == s)
            && (out.Returned? ==>
                  || done
                  || (Clear(s, receipt, guard) && s'.workspace == Some(s.stages[receipt.stageId])
                      && out.receipt.intentHash == intent))
            && (out.Returned? && !OnRecord(s, intent) ==>
                  out.receipt == EffectReceipt(freshId, receipt.plan.transactionId, intent, receipt.plan.baseVersion,
                                               receipt.staged, now))
  {
    hide Aliased, Recoverable, LeavesOthersAlone;
    if Answer(s, receipt, guard).None? {
      WentOn(s, receipt, guard, freshId, now, out, end, s');
    }
    hide Valid;
  }

  /** A tree that no snapshot accepts stops the commit that has to read it. */
  lemma UnreadableExactly(s: State, receipt: StagedReceipt, guard: TargetVersion, freshId: string, now: int,
                          out: Outcome, end: Ending, s': State)
    requires CommitAllowed(s, receipt, guard, freshId, now, out, end, s')
    ensures !Readable(s) && (OnRecord(s, receipt.plan.intentHash) || guard == receipt.plan.baseVersion) ==>
              && s' == s
              && out == Refused(if s.workspace.None? then Unspecified else ValidationError)
    ensures Attempted(s, receipt.plan.intentHash) && InTime(s, receipt.plan, guard)
            && receipt.stageId in s.stages && Aliased(s.stages[receipt.stageId], s.fold) ==>
              out == Refused(ValidationError) && s' == s
  {
    hide Aliased, Recoverable, EndsAs;
  }

  // ----- rollback -----------------------------------------------------------------------------------

  /** The receipt is the durable one, and its backup is there. */
  predicate Reversible(s: State, receipt: EffectReceipt) {
    && receipt.receiptId in s.byReceipt && s.byReceipt[receipt.receiptId].receipt == receipt
    && receipt.receiptId in s.recovery && s.recovery[receipt.receiptId].backup.Some?
  }

  /** The digest of a backup that can be read. */
  predicate BackupReads(s: State, receipt: EffectReceipt, v: TargetVersion)
    requires Reversible(s, receipt)
  {
    var backup := s.recovery[receipt.receiptId].backup.value;
    !Aliased(backup, s.fold) && TreeDigest(backup) == v
  }

  /** UNKNOWN is reported exactly without the durable receipt or its backup, or where the workspace can be
      read and is not the result of the effect; ERROR exactly where the backup can be read and is not the
      tree the effect started from; neither changes anything. */
  lemma RollbackReports(s: State, receipt: EffectReceipt, out: RollbackOutcome, s': State)
    requires RollbackAllowed(s, receipt, out, s')
    ensures out == Reported(Unknown) <==>
            !Reversible(s, receipt) || (Readable(s) && !Reads(s, receipt.versionAfter))
    ensures out == Reported(Error) <==>
            && Reversible(s, receipt) && Reads(s, receipt.versionAfter)
            && var backup := s.recovery[receipt.receiptId].backup.value;
               !Aliased(backup, s.fold) && TreeDigest(backup) != receipt.versionBefore
    ensures out == Reported(Unknown) || out == Reported(Error) ==> s' == s
    ensures Reversible(s, receipt) && !Readable(s) ==> out == RollbackRaised && s' == s
    ensures s' != s || out == Reported(Pass) ==>
              && Reversible(s, receipt) && Reads(s, receipt.versionAfter)
              && BackupReads(s, receipt, receipt.versionBefore)
    ensures out != Reported(Fail)
  {
    hide Aliased, Valid, SameBackups;
  }

  // ----- verification -------------------------------------------------------------------------------

  /** A commit that returned is verified with PASS exactly if its receipt describes the tree in place: so
      for every first attempt, and for a retry that found the work done or staged the tree on record. */
  lemma CommitIsVerified(s: State, receipt: StagedReceipt, guard: TargetVersion, freshId: string, now: int,
                         out: Outcome, end: Ending, s': State)
    requires Valid(s) && CommitAllowed(s, receipt, guard, freshId, now, out, end, s') && out.Returned?
    ensures Verdict(s', out.receipt) ==
            Success(if Answer(s, receipt, guard).Some? || SameAfterTree(s, receipt) then Pass else Fail)
  {
    hide Aliased, LeavesOthersAlone;
    CommitReportsItsTree(s, receipt, guard, freshId, now, out, end, s');
    if Answer(s, receipt, guard).None? {
      WentOn(s, receipt, guard, freshId, now, out, end, s');
    }
    hide Valid, Recoverable;
  }

  /** What `verify_staged` reports decides whether a first attempt in time goes on: with PASS it does, with
      UNKNOWN it is refused for the missing stage, with FAIL for the changed one. */
  lemma StageVerdictDecides(s: State, receipt: StagedReceipt, guard: TargetVersion, freshId: string, now: int,
                            out: Outcome, end: Ending, s': State)
    requires CommitAllowed(s, receipt, guard, freshId, now, out, end, s')
    requires !OnRecord(s, receipt.plan.intentHash) && InTime(s, receipt.plan, guard)
    ensures StageVerdict(s, receipt) == Success(Pass) <==> Clear(s, receipt, guard)
    ensures StageVerdict(s, receipt) == Success(Unknown) <==> out == Refused(IntegrityError)
    ensures StageVerdict(s, receipt) == Success(Fail) ==> out == Refused(VerificationFailed) && s' == s
  {
    hide Aliased, Recoverable;
  }
}
