/** Attempts at one clean staged receipt, as often as they fail. */
module FilesystemRetries {
  import opened Wrappers
  import opened Domain
  import opened Trees
  import opened Filesystem
  import opened FilesystemRuns

  /** The attempt can be made: the workspace is the base tree and the stage is clean. */
  ghost predicate CanStart(s: State, receipt: StagedReceipt, guard: TargetVersion, base: Tree, staged: Tree) {
    && Answer(s, receipt, guard).None? && CleanStage(s, receipt)
    && s.workspace == Some(base) && s.stages[receipt.stageId] == staged
  }

  /** The work is found done. */
  predicate IsDone(s: State, receipt: StagedReceipt, guard: TargetVersion, staged: Tree) {
    && s.workspace == Some(staged) && Known(s, receipt.plan.intentHash).Some?
    && Answer(s, receipt, guard) == Some(Returned(Known(s, receipt.plan.intentHash).value))
  }

  /** The workspace is another tree, or none, and the attempt is refused. */
  predicate IsInDoubt(s: State, receipt: StagedReceipt, guard: TargetVersion, base: Tree, staged: Tree) {
    && s.workspace != Some(base) && s.workspace != Some(staged)
    && Known(s, receipt.plan.intentHash).Some?
    && Answer(s, receipt, guard).Some? && Answer(s, receipt, guard).value.Refused?
  }

  ghost predicate InHand(s: State, receipt: StagedReceipt, guard: TargetVersion, base: Tree, staged: Tree) {
    && Valid(s) && SameAfterTree(s, receipt)
    && (|| CanStart(s, receipt, guard, base, staged)
        || IsDone(s, receipt, guard, staged)
        || IsInDoubt(s, receipt, guard, base, staged))
  }

  /** After an attempt from a clean stage, the work is done, or the attempt can be made again, or the
      workspace is in doubt. */
  lemma AfterAnAttempt(s: State, receipt: StagedReceipt, guard: TargetVersion, freshId: string,
                       now: int, out: Outcome, end: Ending, s': State)
    requires Valid(s) && CleanStage(s, receipt)
    requires Answer(s, receipt, guard).None? && SameAfterTree(s, receipt)
    requires CommitAllowed(s, receipt, guard, freshId, now, out, end, s')
    ensures InHand(s', receipt, guard, s.workspace.value, s.stages[receipt.stageId])
    ensures out.Returned? ==>
              && out.receipt == EffectOf(s, receipt, freshId, now)
              && IsDone(s', receipt, guard, s.stages[receipt.stageId])
  {
    var base, staged := s.workspace.value, s.stages[receipt.stageId];
    var effect, backup := EffectOf(s, receipt, freshId, now), UndoTree(s, receipt).value;
    GoesOn(s, receipt, guard);
    WentOn(s, receipt, guard, freshId, now, out, end, s');
    assert receipt.plan.intentHash in s'.byIntent ==> Secured(s', effect, backup);
    assert s'.stages == s.stages || (Secured(s', effect, backup) && s'.workspace == Some(staged));
    GuardIsBase(s, receipt, guard);
    hide Answer, CommitAllowed, Valid, EffectOf, UndoTree, LeavesOthersAlone, Executed, WellFormed,
         DistinctPaths, Aliased, BackupIntact, SameAfterTree, InHand, IsDone;
    Classified(s', receipt, guard, base, staged, effect, backup);
  }

  lemma GuardIsBase(s: State, receipt: StagedReceipt, guard: TargetVersion)
    requires Answer(s, receipt, guard).None?
    ensures guard == receipt.plan.baseVersion
  {}

  /** An effect from `base` to `staged` is on record beside some backup, or nothing is and the
      workspace is `base`; the stage is there, or its tree is in the workspace. */
  lemma Classified(s: State, receipt: StagedReceipt, guard: TargetVersion, base: Tree, staged: Tree,
                   effect: EffectReceipt, backup: Tree)
    requires Valid(s) && !Aliased(base, s.fold) && !Aliased(staged, s.fold)
    requires guard == receipt.plan.baseVersion == TreeDigest(base) && receipt.staged == TreeDigest(staged)
    requires effect.versionBefore == TreeDigest(base) && effect.versionAfter == TreeDigest(staged)
    requires WellFormed(base) && DistinctPaths(receipt.plan.files) && Executed(base, receipt.plan.files) == Some(staged)
    requires var h := receipt.plan.intentHash;
             && (h in s.byIntent ==> Secured(s, effect, backup) && s.byIntent[h].receipt == effect)
             && (h !in s.byIntent ==> s.workspace == Some(base))
             && (|| (receipt.stageId in s.stages && s.stages[receipt.stageId] == staged)
                 || (h in s.byIntent && s.workspace == Some(staged)))
    ensures InHand(s, receipt, guard, base, staged)
    ensures s.workspace == Some(staged) && receipt.plan.intentHash in s.byIntent ==>
              IsDone(s, receipt, guard, staged)
  {
    hide Aliased, Executed, WellFormed, DistinctPaths, DiskOk, Remembers;
  }

  // ----- any number of attempts ---------------------------------------------------------------------

  /** Every further attempt keeps it so, keeps the receipt on record and returns no other. */
  lemma AttemptStaysInHand(s: State, receipt: StagedReceipt, guard: TargetVersion, freshId: string,
                           now: int, out: Outcome, end: Ending, s': State, base: Tree, staged: Tree)
    requires InHand(s, receipt, guard, base, staged) && freshId !in s.recovery
    requires CommitAllowed(s, receipt, guard, freshId, now, out, end, s')
    ensures InHand(s', receipt, guard, base, staged)
    ensures Known(s, receipt.plan.intentHash).Some? ==>
              Known(s', receipt.plan.intentHash) == Known(s, receipt.plan.intentHash)
    ensures out.Returned? ==> Known(s', receipt.plan.intentHash) == Some(out.receipt)
  {
    var h := receipt.plan.intentHash;
    if Answer(s, receipt, guard).None? {
      assert CanStart(s, receipt, guard, base, staged);
      hide InHand, CommitAllowed, Valid, CleanStage, SameAfterTree, Answer;
      Startable(s, receipt, guard, base, staged);
      AfterAnAttempt(s, receipt, guard, freshId, now, out, end, s');
      if out.Returned? {
        ReturnedIsRecorded(s, Commits(receipt, guard, freshId, now, out, end), s');
      }
      if h in s.byIntent {
        CommitKeepsRecord(s, receipt, guard, freshId, now, out, end, s', h);
      }
    } else {
      hide CommitAllowed, Valid, CleanStage, SameAfterTree;
      UnchangedByAnswer(s, receipt, guard, freshId, now, out, end, s');
      hide Answer;
    }
  }

  lemma Startable(s: State, receipt: StagedReceipt, guard: TargetVersion, base: Tree, staged: Tree)
    requires InHand(s, receipt, guard, base, staged) && Answer(s, receipt, guard).None?
    ensures Valid(s) && CleanStage(s, receipt) && SameAfterTree(s, receipt)
    ensures s.workspace == Some(base) && s.stages[receipt.stageId] == staged
  {
    hide Valid, Answer, SameAfterTree, CleanStage;
  }

  lemma UnchangedByAnswer(s: State, receipt: StagedReceipt, guard: TargetVersion, freshId: string,
                          now: int, out: Outcome, end: Ending, s': State)
    requires CommitAllowed(s, receipt, guard, freshId, now, out, end, s') && Answer(s, receipt, guard).Some?
    ensures s' == s && out == Answer(s, receipt, guard).value
  {
    hide Answer;
  }

  /** The calls of such a run. */
  predicate Attempts(c: Call, receipt: StagedReceipt, guard: TargetVersion) {
    c.Restarts? || (c.Commits? && c.receipt == receipt && c.guard == guard)
  }

  /** After any number of attempts at one clean staged receipt, each stopped, failed, unacknowledged
      or returned, with restarts in between: the work is done, or the attempt can be made again, or
      the workspace is in doubt; and whatever was returned is the receipt on record. */
  lemma {:induction false} AttemptsStayInHand(states: seq<State>, calls: seq<Call>, k: nat, receipt: StagedReceipt,
                                              guard: TargetVersion, base: Tree, staged: Tree)
    requires IsRun(states, calls) && k < |states|
    requires CanStart(states[0], receipt, guard, base, staged) && SameAfterTree(states[0], receipt)
    requires forall i | 0 <= i < |calls| :: Attempts(calls[i], receipt, guard)
    ensures InHand(states[k], receipt, guard, base, staged)
    ensures forall i | 0 <= i < k && calls[i].Commits? && calls[i].out.Returned? ::
              Known(states[k], receipt.plan.intentHash) == Some(calls[i].out.receipt)
  {
    hide InHand, Valid, CanStart, SameAfterTree, CommitAllowed, Known;
    if k > 0 {
      AttemptsStayInHand(states, calls, k - 1, receipt, guard, base, staged);
      RunsKeepValid(states, calls, k - 1);
      var s, c, s' := states[k - 1], calls[k - 1], states[k];
      assert Happens(s, c, s') && Attempts(c, receipt, guard);
      if c.Commits? {
        AttemptStaysInHand(s, receipt, guard, c.freshId, c.now, c.out, c.end, s', base, staged);
      } else {
        RestartIsInvisible(s, s');
      }
    } else {
      InHandAtFirst(states[0], receipt, guard, base, staged);
    }
  }

  lemma InHandAtFirst(s: State, receipt: StagedReceipt, guard: TargetVersion, base: Tree, staged: Tree)
    requires Valid(s) && CanStart(s, receipt, guard, base, staged) && SameAfterTree(s, receipt)
    ensures InHand(s, receipt, guard, base, staged)
  {
    hide Valid, CanStart, SameAfterTree;
  }

  /** From base or after-tree an attempt at which nothing fails returns the receipt on record and
      leaves the staged tree. */
  lemma CalmAttemptFinishes(s: State, receipt: StagedReceipt, guard: TargetVersion, freshId: string,
                            now: int, out: Outcome, end: Ending, s': State, base: Tree, staged: Tree)
    requires InHand(s, receipt, guard, base, staged) && freshId !in s.recovery
    requires s.workspace == Some(base) || s.workspace == Some(staged)
    requires CommitAllowed(s, receipt, guard, freshId, now, out, end, s')
    requires Answer(s, receipt, guard).None? ==>
               && s.workspace.Some? && receipt.stageId in s.stages && UndoTree(s, receipt).Some?
               && end == CalmEnding(s, receipt) && (end.Done? ==> out.Returned?)
    ensures out.Returned? && s'.workspace == Some(staged)
    ensures Known(s', receipt.plan.intentHash) == Some(out.receipt)
  {
    AttemptStaysInHand(s, receipt, guard, freshId, now, out, end, s', base, staged);
    if Answer(s, receipt, guard).None? {
      Startable(s, receipt, guard, base, staged);
      hide InHand, Answer, Valid, UndoTree, CalmEnding, CleanStage, SameAfterTree;
      ReturnedLeavesStage(s, receipt, guard, freshId, now, out, end, s');
    } else {
      UnchangedByAnswer(s, receipt, guard, freshId, now, out, end, s');
      hide Answer, CommitAllowed, Valid, CleanStage, SameAfterTree;
    }
  }

  /** One attempt under any faults, and a restart. */
  method AttemptAndRestart(a: FilesystemAdapter, receipt: StagedReceipt, guard: TargetVersion, id: string,
                           now: int, w: Weather, ghost base: Tree, ghost staged: Tree)
    returns (out: Outcome)
    requires Valid(a.Contents()) && InHand(a.Contents(), receipt, guard, base, staged) && id !in a.recovery
    modifies a
    ensures Valid(a.Contents()) && InHand(a.Contents(), receipt, guard, base, staged)
    ensures var h, before, after := receipt.plan.intentHash, old(a.Contents()), a.Contents();
            && (Known(before, h).Some? ==> Known(after, h) == Known(before, h))
            && (out.Returned? ==> Known(after, h) == Some(out.receipt))
    ensures forall i | i != id && i !in old(a.recovery) :: i !in a.recovery
    ensures AllCalm(w) && (old(a.workspace) == Some(base) || old(a.workspace) == Some(staged)) ==>
              out.Returned? && a.workspace == Some(staged)
  {
    hide AllCalm, Valid, Answer, CommitAllowed, InHand, Known, UndoTree, CalmEnding, CommitLosesWorkspace;
    ghost var s, end := a.Contents(), NotPromoted;
    out, end := a.Commit(receipt, guard, id, now, w);
    ghost var s' := a.Contents();
    AttemptStaysInHand(s, receipt, guard, id, now, out, end, s', base, staged);
    HandIsValid(s', receipt, guard, base, staged);
    NoOtherDirectory(s, receipt, guard, id, now, out, end, s');
    if AllCalm(w) && (s.workspace == Some(base) || s.workspace == Some(staged)) {
      if Answer(s, receipt, guard).None? {
        GoesOn(s, receipt, guard);
      }
      CalmAttemptFinishes(s, receipt, guard, id, now, out, end, s', base, staged);
    }
    Restart(a);
  }

  method Restart(a: FilesystemAdapter)
    requires Valid(a.Contents())
    modifies a`byReceipt, a`byIntent
    ensures a.Contents() == old(a.Contents())
  {
    hide DiskOk, Remembers;
    var loaded := a.Load();
  }

  lemma NoOtherDirectory(s: State, receipt: StagedReceipt, guard: TargetVersion, freshId: string,
                         now: int, out: Outcome, end: Ending, s': State)
    requires Valid(s) && CommitAllowed(s, receipt, guard, freshId, now, out, end, s')
    ensures forall i | i != freshId && i !in s.recovery :: i !in s'.recovery
  {
    hide Valid, CommitAllowed;
    forall i | i != freshId && i !in s.recovery ensures i !in s'.recovery {
      OneNewDirectory(s, receipt, guard, freshId, now, out, end, s', i);
    }
  }

  /** Any number of attempts, each of which is stopped, raises, loses its acknowledgement or returns,
      and is followed by a restart: then, from the base tree or the after-tree, one more attempt in
      good weather returns the one receipt and leaves the staged tree. */
  method ResumeAfterCrashes(a: FilesystemAdapter, receipt: StagedReceipt, guard: TargetVersion,
                            ids: seq<string>, nows: nat -> int, storms: seq<Weather>, calm: Weather)
    returns (outs: seq<Outcome>, resumed: bool, last: Outcome)
    requires Valid(a.Contents()) && CleanStage(a.Contents(), receipt)
    requires Answer(a.Contents(), receipt, guard).None? && SameAfterTree(a.Contents(), receipt)
    requires |ids| == |storms| + 1 && (forall i | 0 <= i < |ids| :: ids[i] !in a.recovery)
    requires forall i, j | 0 <= i < j < |ids| :: ids[i] != ids[j]
    requires AllCalm(calm)
    modifies a
    ensures |outs| == |storms| && Valid(a.Contents())
    ensures resumed ==> last.Returned? && a.workspace == Some(old(a.stages)[receipt.stageId])
    ensures resumed ==> forall i | 0 <= i < |outs| && outs[i].Returned? :: outs[i] == last
    ensures !resumed ==> a.workspace != old(a.workspace)
                         && a.workspace != Some(old(a.stages)[receipt.stageId])
  {
    hide AllCalm, CleanStage, SameAfterTree, Valid, Answer, InHand, Known;
    CleanIsInHand(a.Contents(), receipt, guard);
    var base, staged := a.workspace.value, a.stages[receipt.stageId];
    outs, last := [], Crashed;
    for n := 0 to |storms|
      invariant |outs| == n && Valid(a.Contents()) && InHand(a.Contents(), receipt, guard, base, staged)
      invariant forall i | n <= i < |ids| :: ids[i] !in a.recovery
      invariant forall i | 0 <= i < n && outs[i].Returned? ::
                  Known(a.Contents(), receipt.plan.intentHash) == Some(outs[i].receipt)
    {
      last := AttemptAndRestart(a, receipt, guard, ids[n], nows(n), storms[n], base, staged);
      outs := outs + [last];
    }
    resumed := a.workspace == Some(base) || a.workspace == Some(staged);
    if resumed {
      last := AttemptAndRestart(a, receipt, guard, ids[|storms|], nows(|storms|), calm, base, staged);
    }
  }

  lemma CleanIsInHand(s: State, receipt: StagedReceipt, guard: TargetVersion)
    requires Valid(s) && CleanStage(s, receipt) && Answer(s, receipt, guard).None? && SameAfterTree(s, receipt)
    ensures s.workspace.Some? && receipt.stageId in s.stages
    ensures InHand(s, receipt, guard, s.workspace.value, s.stages[receipt.stageId])
  {
    hide Valid, Answer, SameAfterTree;
  }

  lemma HandIsValid(s: State, receipt: StagedReceipt, guard: TargetVersion, base: Tree, staged: Tree)
    requires InHand(s, receipt, guard, base, staged)
    ensures Valid(s)
  {
    hide Valid;
  }
}
