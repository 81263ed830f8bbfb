/** Inputs on which the filesystem adapter does not do what one might expect of it. */
module FilesystemExamples {
  import opened Wrappers
  import opened Domain
  import opened Ordering
  import opened Trees
  import opened Filesystem
  import opened FilesystemRuns

  // ----- small trees ------------------------------------------------------------------------------

  /** Writing a file at the top of a tree. */
  lemma OneFile(tree: Tree, name: string, content: string)
    requires '/' !in name && (name in tree ==> tree[name].File?)
    ensures WriteFile(tree, name, content) == Some(tree[name := File(content)])
    ensures Executed(tree, [(name, content)]) == Some(tree[name := File(content)])
  {
    assert Parents(name) == {};
    assert tree + (map q | q in Parents(name) :: Directory) == tree;
    assert [(name, content)][..0] == [];
    assert Executed(tree, []) == Some(tree);
  }

  lemma TwoFiles(tree: Tree, a: string, x: string, b: string, y: string)
    requires '/' !in a && '/' !in b && a !in tree && b !in tree && a != b
    ensures Executed(tree, [(a, x), (b, y)]) == Some(tree[a := File(x)][b := File(y)])
  {
    OneFile(tree, a, x);
    OneFile(tree[a := File(x)], b, y);
    assert [(a, x), (b, y)][..1] == [(a, x)];
    hide WriteFile;
  }

  /** A promotion that copies one file at most. */
  lemma {:induction false} OneCopied(base: Tree, changes: seq<FileChange>, c: FileChange, written: Tree)
    requires Copied(c) && forall d | d in changes && Copied(d) :: d == c
    requires WriteFile(base, c.path, c.after.value.content) == Some(written)
    requires WriteFile(written, c.path, c.after.value.content) == Some(written)
    ensures Trees.Promoted(base, changes) == Some(if c in changes then written else base)
  {
    hide WriteFile, Copied;
    if changes != [] {
      assert changes == changes[..|changes| - 1] + [changes[|changes| - 1]];
      OneCopied(base, changes[..|changes| - 1], c, written);
    }
  }

  lemma {:induction false} NothingCopied(base: Tree, changes: seq<FileChange>)
    requires forall c | c in changes :: !Copied(c)
    ensures Trees.Promoted(base, changes) == Some(base)
  {
    if changes != [] {
      NothingCopied(base, changes[..|changes| - 1]);
    }
  }

  ghost predicate KeepsCase(fold: Folding) {
    forall c :: fold(c) == [c]
  }

  lemma {:induction false} PlainKey(path: string, fold: Folding)
    requires KeepsCase(fold)
    ensures PortableKey(path, fold) == path
  {
    if path != "" {
      PlainKey(path[1..], fold);
      assert [path[0]] + path[1..] == path;
    }
  }

  lemma NothingAliased(tree: Tree, fold: Folding)
    requires KeepsCase(fold)
    ensures !Aliased(tree, fold)
  {
    forall p, q | p in tree && q in tree && p != q ensures PortableKey(p, fold) != PortableKey(q, fold) {
      PlainKey(p, fold);
      PlainKey(q, fold);
    }
  }

  // ----- the adapter ------------------------------------------------------------------------------

  /** A stage that can be promoted goes on and is done when nothing fails. */
  lemma StageGoesOn(s: State, receipt: StagedReceipt, base: Tree, staged: Tree)
    requires s.workspace == Some(base) && receipt.plan.baseVersion == TreeDigest(base)
    requires receipt.stageId in s.stages && s.stages[receipt.stageId] == staged
    requires receipt.staged == TreeDigest(staged)
    requires !Aliased(base, s.fold) && !Aliased(staged, s.fold)
    requires Trees.Promoted(base, Diff(base, staged)) == Some(staged)
    requires var h := receipt.plan.intentHash;
             h in s.byIntent ==>
               && BackupOf(s, h) == Some(base) && s.byIntent[h].receipt.versionBefore == TreeDigest(base)
               && s.byIntent[h].receipt.versionAfter != TreeDigest(base)
    ensures Answer(s, receipt, TreeDigest(base)).None? && UndoTree(s, receipt).Some?
    ensures CalmEnding(s, receipt) == Done
  {
    hide Aliased, Trees.Promoted, Diff;
  }

  /** After a first commit that returned, its effect is on record and can be rolled back. */
  lemma FirstIsRecorded(s: State, receipt: StagedReceipt, guard: TargetVersion, freshId: string, now: int,
                        out: Outcome, end: Ending, s': State, base: Tree, staged: Tree)
    requires Valid(s) && freshId !in s.recovery && receipt.plan.intentHash !in s.byIntent
    requires Answer(s, receipt, guard).None? && s.workspace == Some(base)
    requires s.stages[receipt.stageId] == staged && receipt.staged == TreeDigest(staged)
    requires CommitAllowed(s, receipt, guard, freshId, now, out, end, s') && out.Returned?
    ensures var h := receipt.plan.intentHash;
            && Valid(s') && h in s'.byIntent && Accounted(s', h, base, staged)
            && out.receipt == s'.byIntent[h].receipt && out.receipt.versionAfter == TreeDigest(staged)
            && RollbackAnswer(s', out.receipt).None?
    ensures s'.stages == s.stages - {receipt.stageId} && s'.fold == s.fold
    ensures forall id | id != freshId && id !in s.recovery :: id !in s'.recovery
  {
    var h := receipt.plan.intentHash;
    var c := Commits(receipt, guard, freshId, now, out, end);
    GoesOn(s, receipt, guard);
    var effect, backup := EffectOf(s, receipt, freshId, now), UndoTree(s, receipt).value;
    assert out.receipt == effect && s'.workspace == Some(staged) && s'.fold == s.fold
           && s'.stages == s.stages - {receipt.stageId} && Secured(s', effect, backup);
    forall id | id != freshId && id !in s.recovery ensures id !in s'.recovery {
      OneNewDirectory(s, receipt, guard, freshId, now, out, end, s', id);
    }
    hide Answer, CommitAllowed, Aliased, Valid, UndoTree, EffectOf;
    StepKeepsValid(s, c, s');
    ReturnedIsRecorded(s, c, s');
    FirstCommitIsAccounted(s, c, s', h, base, staged);
    SecuredIsRemembered(s', effect, backup);
  }

  /** After a rollback that reported PASS, the effect is still on record and the base tree back. */
  lemma RolledBackIsRecorded(s: State, h: string, report: RollbackOutcome, s': State, base: Tree, staged: Tree)
    requires Valid(s) && h in s.byIntent && Accounted(s, h, base, staged)
    requires RollbackAnswer(s, s.byIntent[h].receipt).None?
    requires RollbackAllowed(s, s.byIntent[h].receipt, report, s') && report.Reported?
    ensures Valid(s') && h in s'.byIntent && Accounted(s', h, base, staged)
    ensures s'.byIntent[h].receipt == s.byIntent[h].receipt
    ensures s'.workspace == Some(base) && s'.stages == s.stages
    ensures s'.recovery.Keys == s.recovery.Keys
  {
    hide Aliased;
    RollbackKeepsRecord(s, s.byIntent[h].receipt, report, s', h);
    hide Valid, RollbackAnswer;
  }

  lemma NewIsValid(s: State)
    requires s.recovery == map[] && s.byReceipt == map[] && s.byIntent == map[]
    ensures Valid(s)
  {}

  /** A stage made while the workspace held `seen`, between two moments at which it held `base`. */
  method StageOver(a: FilesystemAdapter, stageId: string, seen: Tree, plan: Plan, staged: Tree, w: Weather)
    returns (receipt: StagedReceipt)
    requires AllCalm(w) && stageId !in a.stages
    requires !Aliased(seen, a.fold) && !Aliased(staged, a.fold) && Executed(seen, plan.files) == Some(staged)
    modifies a`workspace, a`stages
    ensures a.workspace == old(a.workspace) && a.stages == old(a.stages)[stageId := staged]
    ensures receipt == StagedReceipt(stageId, plan, TreeDigest(staged))
  {
    hide Executed, Aliased, AllCalm;
    var base := a.workspace;
    a.workspace := Some(seen);
    var made := a.Stage(stageId, w);
    a.workspace := base;
    var r := a.Execute(stageId, plan, w);
    return r.value;
  }

  /** One request staged, committed and rolled back. */
  method CommitAndUndo(plan: Plan, base: Tree, first: Tree, fold: Folding, w: Weather)
    returns (a: FilesystemAdapter)
    requires AllCalm(w) && plan.baseVersion == TreeDigest(base)
    requires !Aliased(base, fold) && !Aliased(first, fold) && Executed(base, plan.files) == Some(first)
    requires Trees.Promoted(base, Diff(base, first)) == Some(first)
    ensures fresh(a) && Valid(a.Contents()) && a.fold == fold
    ensures a.workspace == Some(base) && a.stages == map[] && "q" !in a.recovery
    ensures plan.intentHash in a.byIntent && Accounted(a.Contents(), plan.intentHash, base, first)
  {
    hide Executed, Aliased, Trees.Promoted, Diff, AllCalm, Answer, Accounted, RollbackAllowed,
         RollbackAnswer, DiskOk, Remembers;
    var receipt;
    a, receipt := CommitFirst(plan, base, first, fold, w);
    ghost var s := a.Contents();
    var undone := a.Rollback(receipt, w);
    RolledBackIsRecorded(s, plan.intentHash, undone, a.Contents(), base, first);
  }

  method CommitFirst(plan: Plan, base: Tree, first: Tree, fold: Folding, w: Weather)
    returns (a: FilesystemAdapter, receipt: EffectReceipt)
    requires AllCalm(w) && plan.baseVersion == TreeDigest(base)
    requires !Aliased(base, fold) && !Aliased(first, fold) && Executed(base, plan.files) == Some(first)
    requires Trees.Promoted(base, Diff(base, first)) == Some(first)
    ensures fresh(a) && Valid(a.Contents()) && a.fold == fold
    ensures a.stages == map[] && "q" !in a.recovery
    ensures plan.intentHash in a.byIntent && Accounted(a.Contents(), plan.intentHash, base, first)
    ensures receipt == a.byIntent[plan.intentHash].receipt && RollbackAnswer(a.Contents(), receipt).None?
  {
    hide Executed, Aliased, Trees.Promoted, Diff, AllCalm, Accounted, RollbackAnswer, DiskOk, Remembers;
    a := new FilesystemAdapter(base, fold);
    EmptyIsSound();
    var staged := StageOver(a, "s1", base, plan, first, w);
    receipt := CommitStaged(a, staged, base, first, w);
  }

  lemma EmptyIsSound()
    ensures DiskOk(map[]) && Remembers(map[], map[], map[])
  {}

  method CommitStaged(a: FilesystemAdapter, staged: StagedReceipt, base: Tree, first: Tree, w: Weather)
    returns (receipt: EffectReceipt)
    requires AllCalm(w) && Valid(a.Contents()) && a.recovery == map[] && a.byIntent == map[]
    requires a.workspace == Some(base) && staged.plan.baseVersion == TreeDigest(base)
    requires staged.stageId in a.stages && a.stages[staged.stageId] == first && staged.staged == TreeDigest(first)
    requires !Aliased(base, a.fold) && !Aliased(first, a.fold)
    requires Trees.Promoted(base, Diff(base, first)) == Some(first)
    modifies a
    ensures Valid(a.Contents()) && a.stages == old(a.stages) - {staged.stageId} && "q" !in a.recovery
    ensures var h := staged.plan.intentHash;
            && h in a.byIntent && Accounted(a.Contents(), h, base, first)
            && receipt == a.byIntent[h].receipt && RollbackAnswer(a.Contents(), receipt).None?
  {
    hide Executed, Aliased, Trees.Promoted, Diff, AllCalm, Answer, CalmEnding, CommitAllowed, Accounted,
         RollbackAnswer, Valid, UndoTree, CommitLosesWorkspace;
    ghost var s := a.Contents();
    StageGoesOn(s, staged, base, first);
    var out, end := a.Commit(staged, TreeDigest(base), "r", 0, w);
    FirstIsRecorded(s, staged, TreeDigest(base), "r", 0, out, end, a.Contents(), base, first);
    receipt := out.receipt;
  }

  /** A returned receipt need not describe the workspace: staged while the workspace held another
      file for a moment, a second staged receipt for the intent is promoted, and answered with a
      receipt for another tree.  Nothing fails here but the workspace being touched between calls. */
  method AnotherStageIsAnswered(fold: Folding, w: Weather) returns (a: FilesystemAdapter, out: Outcome)
    requires KeepsCase(fold) && AllCalm(w)
    ensures out.Returned? && Snapshot(a.workspace, a.fold).Success?
    ensures Snapshot(a.workspace, a.fold).value != out.receipt.versionAfter
  {
    var base: Tree := map[];
    var seen := base["c" := File("2")];
    var first, second := base["a" := File("1")], seen["a" := File("1")];
    SmallTrees(base, seen, fold);
    hide Executed, Aliased, Trees.Promoted, Diff, AllCalm, KeepsCase, Answer, CalmEnding, CommitAllowed,
         DiskOk, Remembers, UndoTree, CommitLosesWorkspace;
    var plan := Plan("t", "h", TreeDigest(base), [("a", "1")]);
    a := CommitAndUndo(plan, base, first, fold, w);
    var receipt := StageOver(a, "s2", seen, plan, second, w);
    ghost var s := a.Contents();
    StageGoesOn(s, receipt, base, second);
    ghost var end;
    out, end := a.Commit(receipt, TreeDigest(base), "q", 0, w);
    ReturnedLeavesStage(s, receipt, TreeDigest(base), "q", 0, out, end, a.Contents());
    CommitReportsItsTree(s, receipt, TreeDigest(base), "q", 0, out, end, a.Contents());
  }

  lemma SmallTrees(base: Tree, seen: Tree, fold: Folding)
    requires base == map[] && seen == base["c" := File("2")] && KeepsCase(fold)
    ensures var first, second := base["a" := File("1")], seen["a" := File("1")];
            && base != first && first != second
            && !Aliased(base, fold) && !Aliased(seen, fold) && !Aliased(first, fold) && !Aliased(second, fold)
            && Executed(base, [("a", "1")]) == Some(first) && Executed(seen, [("a", "1")]) == Some(second)
            && Trees.Promoted(base, Diff(base, first)) == Some(first)
            && Trees.Promoted(base, Diff(base, second)) == Some(second)
  {
    var first, second := base["a" := File("1")], seen["a" := File("1")];
    assert "a" in first && "a" !in base && "c" in second && "c" !in first;
    assert WellFormed(base) && DistinctPaths([("a", "1")]) && DistinctPaths([("c", "2"), ("a", "1")]);
    hide *;
    NothingAliased(base, fold);
    NothingAliased(seen, fold);
    NothingAliased(first, fold);
    NothingAliased(second, fold);
    OneFile(base, "a", "1");
    OneFile(seen, "a", "1");
    TwoFiles(base, "c", "2", "a", "1");
    PromotionRebuildsStage(base, [("a", "1")], first);
    PromotionRebuildsStage(base, [("c", "2"), ("a", "1")], second);
  }

  /** A promotion can leave a workspace that no snapshot accepts, and then it is not undone: the
      stage was made while the workspace was empty for a moment, and afterwards the workspace holds
      `A` where the request writes `a`. */
  method PromotionCanAlias(fold: Folding, w: Weather) returns (a: FilesystemAdapter, out: Outcome)
    requires fold('A') == "a" == fold('a') && AllCalm(w)
    ensures out == Refused(ValidationError)
    ensures a.workspace == Some(map["A" := File("1"), "a" := File("2")])
  {
    var base, staged: Tree := map["A" := File("1")], map["a" := File("2")];
    AliasedPromotion(base, staged, fold);
    a := new FilesystemAdapter(base, fold);
    NewIsValid(a.Contents());
    hide Executed, Aliased, Trees.Promoted, Diff, AllCalm, DiskOk, Remembers, CommitAllowed, Answer,
         UndoTree, CalmEnding, CommitLosesWorkspace;
    var plan := Plan("t", "h", TreeDigest(base), [("a", "2")]);
    var receipt := StageOver(a, "s", map[], plan, staged, w);
    ghost var s, end := a.Contents(), Done;
    UnreadAhead(s, receipt, base, staged, map["A" := File("1"), "a" := File("2")]);
    out, end := a.Commit(receipt, TreeDigest(base), "r", 0, w);
    EndsUnread(s, receipt, TreeDigest(base), "r", 0, out, end, a.Contents());
  }

  lemma UnreadAhead(s: State, receipt: StagedReceipt, base: Tree, staged: Tree, both: Tree)
    requires s.workspace == Some(base) && receipt.plan.baseVersion == TreeDigest(base)
    requires receipt.stageId in s.stages && s.stages[receipt.stageId] == staged
    requires receipt.staged == TreeDigest(staged) && receipt.plan.intentHash !in s.byIntent
    requires !Aliased(base, s.fold) && !Aliased(staged, s.fold)
    requires Trees.Promoted(base, Diff(base, staged)) == Some(both) && both != staged && Aliased(both, s.fold)
    ensures Answer(s, receipt, TreeDigest(base)).None? && UndoTree(s, receipt).Some?
    ensures CalmEnding(s, receipt) == Unread
  {
    hide Aliased, Trees.Promoted, Diff;
  }

  lemma EndsUnread(s: State, receipt: StagedReceipt, guard: TargetVersion, freshId: string, now: int,
                   out: Outcome, end: Ending, s': State)
    requires Answer(s, receipt, guard).None? && CommitAllowed(s, receipt, guard, freshId, now, out, end, s')
    requires end == Unread
    ensures s.workspace.Some? && receipt.stageId in s.stages && out == Refused(ValidationError)
    ensures s'.workspace == Trees.Promoted(s.workspace.value, Diff(s.workspace.value, s.stages[receipt.stageId]))
  {
    GoesOn(s, receipt, guard);
    hide Answer, Aliased, Recoverable, UndoTree, Trees.Promoted, Diff;
  }

  lemma AliasedPromotion(base: Tree, staged: Tree, fold: Folding)
    requires base == map["A" := File("1")] && staged == map["a" := File("2")]
    requires fold('A') == "a" == fold('a')
    ensures Executed(map[], [("a", "2")]) == Some(staged) && base != staged
    ensures !Aliased(map[], fold) && !Aliased(base, fold) && !Aliased(staged, fold)
    ensures var both := map["A" := File("1"), "a" := File("2")];
            Trees.Promoted(base, Diff(base, staged)) == Some(both) && Aliased(both, fold) && both != staged
  {
    var both: Tree := map["A" := File("1"), "a" := File("2")];
    assert "a" in staged && "a" !in base && "A" in both && "A" !in staged;
    OneFile(map[], "a", "2");
    OneFile(base, "a", "2");
    OneFile(both, "a", "2");
    assert base["a" := File("2")] == both && both["a" := File("2")] == both;
    assert PortableKey("A"[1..], fold) == "";
    assert PortableKey("A", fold) == PortableKey("a", fold);
    assert "a" in both;
    var c := FileChange("a", None, Some(File("2")));
    hide Executed, WriteFile, PortableKey, Diff;
    ChangesOf(base, "a", "2");
    OneCopied(base, Diff(base, staged), c, both);
  }

  /** A stage of one new file: the diff holds it, and otherwise only deletions. */
  lemma ChangesOf(base: Tree, name: string, content: string)
    requires name !in base
    ensures var staged: Tree, c := map[name := File(content)], FileChange(name, None, Some(File(content)));
            c in Diff(base, staged) && forall d | d in Diff(base, staged) && Copied(d) :: d == c
  {
    var staged: Tree := map[name := File(content)];
    DiffMembers(base, staged, name);
    forall d | d in Diff(base, staged) && Copied(d)
      ensures d == FileChange(name, None, Some(File(content)))
    {
      DiffOverMembers(SortedKeys(base.Keys + staged.Keys), base, staged, d);
    }
  }

  /** Somebody else writes into the directory of the effect on record. */
  method ReplaceBackup(a: FilesystemAdapter, intentHash: string, damaged: Tree)
    requires Valid(a.Contents()) && intentHash in a.byIntent
    modifies a`recovery
    ensures Valid(a.Contents()) && BackupOf(a.Contents(), intentHash) == Some(damaged)
    ensures a.recovery.Keys == old(a.recovery).Keys
  {
    ghost var s := a.Contents();
    RememberedIsSecured(s, intentHash);
    var id := a.byIntent[intentHash].receipt.receiptId;
    a.recovery := a.recovery[id := a.recovery[id].(backup := Some(damaged))];
    DamageKeepsValid(s, a.Contents());
  }

  /** A retry never looks at what the backup holds: one that was replaced is what the workspace
      becomes when the promotion fails. */
  method DamagedBackupIsRestored(fold: Folding, w: Weather) returns (a: FilesystemAdapter, out: Outcome)
    requires KeepsCase(fold) && AllCalm(w)
    ensures out.Refused? && a.workspace == Some(map["x" := File("9")])
  {
    var base, damaged: Tree := map["b" := File("0")], map["x" := File("9")];
    var first, staged: Tree := base["a" := File("1")], map["a" := File("1")];
    BackupTrees(base, first, staged, damaged, fold);
    var plan := Plan("t", "h", TreeDigest(base), [("a", "1")]);
    hide *;
    a, out := RetryOnDamage(plan, base, first, staged, damaged, fold, w);
  }

  method RetryOnDamage(plan: Plan, base: Tree, first: Tree, staged: Tree, damaged: Tree, fold: Folding, w: Weather)
    returns (a: FilesystemAdapter, out: Outcome)
    requires AllCalm(w) && plan.baseVersion == TreeDigest(base) && base != first && first != staged
    requires !Aliased(map[], fold) && !Aliased(base, fold) && !Aliased(first, fold)
    requires !Aliased(staged, fold) && !Aliased(damaged, fold)
    requires Executed(base, plan.files) == Some(first) && Executed(map[], plan.files) == Some(staged)
    requires Trees.Promoted(base, Diff(base, first)) == Some(first)
    requires Trees.Promoted(base, Diff(base, staged)) == Some(first)
    ensures out.Refused? && a.workspace == Some(damaged)
  {
    hide Executed, Aliased, Trees.Promoted, Diff, AllCalm, DiskOk, Remembers, CommitAllowed, Answer,
         UndoTree, CalmEnding, CommitLosesWorkspace;
    a := CommitAndUndo(plan, base, first, fold, w);
    ReplaceBackup(a, plan.intentHash, damaged);
    var receipt := StageOver(a, "s2", map[], plan, staged, w);
    ghost var s, end := a.Contents(), Done;
    RestoredFromDamage(s, receipt, base, first, staged, damaged);
    out, end := a.Commit(receipt, TreeDigest(base), "q", 0, w);
    EndsWithDamage(s, receipt, TreeDigest(base), "q", 0, out, end, a.Contents());
  }

  lemma RestoredFromDamage(s: State, receipt: StagedReceipt, base: Tree, first: Tree, staged: Tree, damaged: Tree)
    requires s.workspace == Some(base) && receipt.plan.baseVersion == TreeDigest(base)
    requires receipt.stageId in s.stages && s.stages[receipt.stageId] == staged
    requires receipt.staged == TreeDigest(staged) && receipt.plan.intentHash in s.byIntent
    requires BackupOf(s, receipt.plan.intentHash) == Some(damaged)
    requires s.byIntent[receipt.plan.intentHash].receipt.versionBefore == TreeDigest(base)
    requires s.byIntent[receipt.plan.intentHash].receipt.versionAfter != TreeDigest(base)
    requires !Aliased(base, s.fold) && !Aliased(first, s.fold) && !Aliased(staged, s.fold) && !Aliased(damaged, s.fold)
    requires Trees.Promoted(base, Diff(base, staged)) == Some(first) && first != staged
    ensures Answer(s, receipt, TreeDigest(base)).None? && UndoTree(s, receipt) == Some(damaged)
    ensures CalmEnding(s, receipt) == Restored
  {
    hide Aliased, Trees.Promoted, Diff;
  }

  lemma EndsWithDamage(s: State, receipt: StagedReceipt, guard: TargetVersion, freshId: string, now: int,
                       out: Outcome, end: Ending, s': State)
    requires Answer(s, receipt, guard).None? && CommitAllowed(s, receipt, guard, freshId, now, out, end, s')
    requires end == Restored
    ensures out.Refused? && s'.workspace == UndoTree(s, receipt)
  {
    GoesOn(s, receipt, guard);
    hide Answer, Aliased, Recoverable, UndoTree;
  }

  /** A failed commit can leave no workspace at all: the process stops between the two renames of
      its restoration.  The backup of the base tree is on record, and `reconcile` raises. */
  method UndoCanLoseWorkspace(fold: Folding, w: Weather)
    returns (a: FilesystemAdapter, out: Outcome, r: Result<ReconcileStatus>)
    requires KeepsCase(fold) && AllCalm(w)
    ensures !out.Returned? && a.workspace == None && r == Failure(Unspecified)
    ensures Valid(a.Contents()) && BackupOf(a.Contents(), "h") == Some(map["b" := File("0")])
  {
    var base: Tree := map["b" := File("0")];
    var first, staged: Tree := base["a" := File("1")], map["a" := File("1")];
    BackupTrees(base, first, staged, map["x" := File("9")], fold);
    a := new FilesystemAdapter(base, fold);
    NewIsValid(a.Contents());
    hide *;
    a, out, r := StopInUndo(a, Plan("t", "h", TreeDigest(base), [("a", "1")]), base, first, staged, w);
  }

  method StopInUndo(b: FilesystemAdapter, plan: Plan, base: Tree, first: Tree, staged: Tree, w: Weather)
    returns (a: FilesystemAdapter, out: Outcome, r: Result<ReconcileStatus>)
    requires AllCalm(w) && plan.baseVersion == TreeDigest(base) && base != staged && first != staged
    requires Valid(b.Contents()) && b.recovery == map[] && b.byIntent == map[] && b.stages == map[]
    requires b.workspace == Some(base) && !Aliased(base, b.fold) && !Aliased(map[], b.fold)
    requires !Aliased(first, b.fold) && !Aliased(staged, b.fold) && Executed(map[], plan.files) == Some(staged)
    requires Trees.Promoted(base, Diff(base, staged)) == Some(first)
    modifies b
    ensures a == b && !out.Returned? && a.workspace == None && r == Failure(Unspecified)
    ensures Valid(a.Contents()) && BackupOf(a.Contents(), plan.intentHash) == Some(base)
  {
    hide Executed, Aliased, Trees.Promoted, Diff, AllCalm, DiskOk, Remembers, CommitAllowed, Answer,
         UndoTree, CommitLosesWorkspace;
    a := b;
    var receipt := StageOver(a, "s", map[], plan, staged, w);
    ghost var s, end := a.Contents(), Done;
    var changes := DiffSnapshots(base, staged);
    var n := |changes|;
    var storm := Weather(t => if t == 5 + n then Stops else Works, t => map[]);
    StopLosesWorkspace(s, receipt, base, first, staged, storm);
    out, end := a.Commit(receipt, TreeDigest(base), "r", 0, storm);
    UndoneIsOnRecord(s, receipt, TreeDigest(base), "r", 0, out, end, a.Contents(), base);
    r := a.Reconcile(plan.intentHash);
  }

  lemma StopLosesWorkspace(s: State, receipt: StagedReceipt, base: Tree, first: Tree, staged: Tree, w: Weather)
    requires s.workspace == Some(base) && receipt.plan.baseVersion == TreeDigest(base)
    requires receipt.stageId in s.stages && s.stages[receipt.stageId] == staged
    requires receipt.staged == TreeDigest(staged) && receipt.plan.intentHash !in s.byIntent
    requires !Aliased(base, s.fold) && !Aliased(first, s.fold) && !Aliased(staged, s.fold)
    requires Trees.Promoted(base, Diff(base, staged)) == Some(first) && first != staged
    requires var stop := 5 + |Diff(base, staged)|;
             w.fate(stop) == Stops && forall t: nat | t < stop :: w.fate(t) == Works
    ensures Answer(s, receipt, TreeDigest(base)).None? && UndoTree(s, receipt).Some?
    ensures CommitLosesWorkspace(s, receipt, w)
  {
    hide Aliased, Trees.Promoted, Diff, PromotionSignal;
    PromotionWorks(base, Diff(base, staged), w, 3);
  }

  lemma {:induction false} PromotionWorks(start: Tree, changes: seq<FileChange>, w: Weather, t: nat)
    requires Trees.Promoted(start, changes).Some?
    requires forall k: nat | k < t + |changes| :: w.fate(k) == Works
    ensures PromotionSignal(start, changes, w, t) == Ok
  {
    hide WriteFile;
    if changes != [] {
      PromotionWorks(start, changes[..|changes| - 1], w, t);
    }
  }

  lemma UndoneIsOnRecord(s: State, receipt: StagedReceipt, guard: TargetVersion, freshId: string, now: int,
                         out: Outcome, end: Ending, s': State, base: Tree)
    requires Valid(s) && Answer(s, receipt, guard).None? && receipt.plan.intentHash !in s.byIntent
    requires CommitAllowed(s, receipt, guard, freshId, now, out, end, s')
    requires s.workspace == Some(base) && s'.workspace == None
    ensures Valid(s') && !out.Returned? && BackupOf(s', receipt.plan.intentHash) == Some(base)
    ensures Reconciled(s', receipt.plan.intentHash) == Failure(Unspecified)
  {
    hide Answer, CommitAllowed, EffectOf, Aliased, DiskOk, Remembers, LeavesOthersAlone;
    WentOn(s, receipt, guard, freshId, now, out, end, s');
  }

  lemma BackupTrees(base: Tree, first: Tree, staged: Tree, damaged: Tree, fold: Folding)
    requires base == map["b" := File("0")] && damaged == map["x" := File("9")] && KeepsCase(fold)
    requires first == base["a" := File("1")] && staged == map["a" := File("1")]
    ensures base != first && first != staged && !Aliased(map[], fold)
    ensures !Aliased(base, fold) && !Aliased(first, fold) && !Aliased(staged, fold) && !Aliased(damaged, fold)
    ensures Executed(base, [("a", "1")]) == Some(first) && Executed(map[], [("a", "1")]) == Some(staged)
    ensures Trees.Promoted(base, Diff(base, first)) == Some(first)
    ensures Trees.Promoted(base, Diff(base, staged)) == Some(first)
  {
    assert "a" in first && "a" !in base && "b" in first && "b" !in staged;
    assert Parents("b") == {};
    assert WellFormed(base) && DistinctPaths([("a", "1")]);
    assert first["a" := File("1")] == first && map["a" := File("1")] == map[]["a" := File("1")];
    var c := FileChange("a", None, Some(File("1")));
    assert Copied(c);
    hide *;
    NothingAliased(map[], fold);
    NothingAliased(base, fold);
    NothingAliased(first, fold);
    NothingAliased(staged, fold);
    NothingAliased(damaged, fold);
    OneFile(base, "a", "1");
    OneFile(map[], "a", "1");
    OneFile(first, "a", "1");
    PromotionRebuildsStage(base, [("a", "1")], first);
    ChangesOf(base, "a", "1");
    OneCopied(base, Diff(base, staged), c, first);
  }
}
