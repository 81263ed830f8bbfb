/** The filesystem adapter: commit, rollback and reconciliation with crashes between any two steps. */
module Filesystem {
  import opened Wrappers
  import opened Domain
  import opened Ordering
  import opened Trees

  datatype ManifestStatus = Prepared | Promoted | RolledBack

  /** The durable record beside a backup. */
  datatype Manifest =
    Manifest(status: ManifestStatus, receipt: EffectReceipt, stageId: string, staged: TargetVersion)

  datatype RecoveryDirectory = RecoveryDirectory(backup: Option<Tree>, manifest: Option<Manifest>)

  datatype Plan =
    Plan(transactionId: string, intentHash: string, baseVersion: TargetVersion, files: Files)

  datatype StagedReceipt = StagedReceipt(stageId: string, plan: Plan, staged: TargetVersion)

  /** What is on disk, the manifests the process remembers, and the case folding. */
  datatype State = State(
    workspace: Option<Tree>, stages: map<string, Tree>, recovery: map<string, RecoveryDirectory>,
    byReceipt: map<string, Manifest>, byIntent: map<string, Manifest>, fold: Folding)

  /** What the operating system does at a step: it works, it raises, or the process stops there. */
  datatype Fate = Works | Raises | Stops

  /** The fates of the steps of a call, and what an interrupted copy leaves behind. */
  datatype Weather = Weather(fate: nat -> Fate, debris: nat -> Tree)

  predicate Calm(w: Weather, t: nat) {
    w.fate(t) == Works
  }

  ghost predicate AllCalm(w: Weather) {
    forall t: nat :: Calm(w, t)
  }

  datatype Signal = Ok | Raised(code: ErrorCode) | Stopped

  datatype Outcome = Returned(receipt: EffectReceipt) | Refused(code: ErrorCode) | Crashed

  // ----- the invariant of the private state ---------------------------------------------------

  /** A manifest lies under its own receipt. */
  predicate InPlace(r: string, d: RecoveryDirectory) {
    d.manifest.Some? ==> d.manifest.value.receipt.receiptId == r
  }

  /** No two manifests for one intent. */
  predicate OneManifestPerIntent(recovery: map<string, RecoveryDirectory>) {
    forall q, r | q in recovery && r in recovery ::
      recovery[q].manifest.Some? && recovery[r].manifest.Some?
      && recovery[q].manifest.value.receipt.intentHash == recovery[r].manifest.value.receipt.intentHash
      ==> q == r
  }

  predicate DiskOk(recovery: map<string, RecoveryDirectory>) {
    && (forall r | r in recovery :: InPlace(r, recovery[r]))
    && OneManifestPerIntent(recovery)
  }

  /** The remembered manifests are the durable ones. */
  predicate Remembers(recovery: map<string, RecoveryDirectory>, byReceipt: map<string, Manifest>,
                      byIntent: map<string, Manifest>)
  {
    && (forall r | r in byReceipt :: r in recovery && recovery[r].manifest == Some(byReceipt[r]))
    && (forall r | r in recovery && recovery[r].manifest.Some? ::
          && r in byReceipt
          && recovery[r].manifest.value.receipt.intentHash in byIntent
          && byIntent[recovery[r].manifest.value.receipt.intentHash] == recovery[r].manifest.value)
    && (forall i | i in byIntent ::
          && byIntent[i].receipt.intentHash == i
          && byIntent[i].receipt.receiptId in recovery
          && recovery[byIntent[i].receipt.receiptId].manifest == Some(byIntent[i]))
  }

  /** The memory agrees with the manifests.  Nothing is said about the backups: what a call does
      with a missing or damaged one is part of what it promises. */
  predicate Valid(s: State) {
    DiskOk(s.recovery) && Remembers(s.recovery, s.byReceipt, s.byIntent)
  }

  /** What the process remembers is determined by the disk. */
  lemma MemoryIsDetermined(recovery: map<string, RecoveryDirectory>,
                           r1: map<string, Manifest>, i1: map<string, Manifest>,
                           r2: map<string, Manifest>, i2: map<string, Manifest>)
    requires DiskOk(recovery) && Remembers(recovery, r1, i1) && Remembers(recovery, r2, i2)
    ensures r1 == r2 && i1 == i2
  {
    assert r1.Keys == r2.Keys;
    forall i ensures i in i1 <==> i in i2 {
      if i in i1 {
        assert recovery[i1[i].receipt.receiptId].manifest.Some?;
      }
      if i in i2 {
        assert recovery[i2[i].receipt.receiptId].manifest.Some?;
      }
    }
    forall i | i in i1 ensures i1[i] == i2[i] {
      assert recovery[i1[i].receipt.receiptId].manifest.Some?;
    }
    assert i1.Keys == i2.Keys;
  }

  // ----- reconciliation -------------------------------------------------------------------------

  datatype ReconcileStatus = ReconcileCommitted | ReconcileNoEffect | ReconcilePartial

  function Reconciled(s: State, intentHash: string): Result<ReconcileStatus> {
    if intentHash !in s.byIntent then Success(ReconcileNoEffect)
    else
      var actual, receipt := Snapshot(s.workspace, s.fold), s.byIntent[intentHash].receipt;
      if actual.Failure? then Failure(actual.error)
      else if actual.value == receipt.versionAfter then Success(ReconcileCommitted)
      else if actual.value == receipt.versionBefore then Success(ReconcileNoEffect)
      else Success(ReconcilePartial)
  }

  // ----- commit ----------------------------------------------------------------------------------

  function NewReceipt(receipt: StagedReceipt, base: Tree, staged: Tree, freshId: string, now: int)
    : EffectReceipt
  {
    EffectReceipt(freshId, receipt.plan.transactionId, receipt.plan.intentHash,
                  TreeDigest(base), TreeDigest(staged), now)
  }

  /** The effect on record for an intent. */
  function Known(s: State, intentHash: string): Option<EffectReceipt> {
    if intentHash in s.byIntent then Some(s.byIntent[intentHash].receipt) else None
  }

  /** The backup in the directory of a receipt. */
  function BackupIn(recovery: map<string, RecoveryDirectory>, receiptId: string): Option<Tree> {
    if receiptId in recovery then recovery[receiptId].backup else None
  }

  /** What `commit` answers before it writes anything; none if it goes on. */
  function Answer(s: State, receipt: StagedReceipt, guard: TargetVersion): Option<Outcome> {
    var plan := receipt.plan;
    var current, known := Snapshot(s.workspace, s.fold), Known(s, plan.intentHash);
    if known.Some? && current.Failure? then Some(Refused(current.error))
    else if known.Some? && current.value == known.value.versionAfter then Some(Returned(known.value))
    else if known.Some? && current.value != known.value.versionBefore then
      Some(Refused(ExternalResultInDoubt))
    else if guard != plan.baseVersion then Some(Refused(StaleTarget))
    else if current.Failure? then Some(Refused(current.error))
    else if current.value != plan.baseVersion then Some(Refused(StaleTarget))
    else if receipt.stageId !in s.stages then Some(Refused(IntegrityError))
    else
      var staged := Snapshot(Some(s.stages[receipt.stageId]), s.fold);
      if staged.Failure? then Some(Refused(staged.error))
      else if staged.value != receipt.staged then Some(Refused(VerificationFailed))
      else if known.Some? && BackupIn(s.recovery, known.value.receiptId).None? then
        Some(Refused(IntegrityError))
      else None
  }

  /** The tree a failed promotion is undone with: the backup on record, or a copy of the workspace
      made by the first attempt. */
  function UndoTree(s: State, receipt: StagedReceipt): Option<Tree> {
    var known := Known(s, receipt.plan.intentHash);
    if known.Some? then BackupIn(s.recovery, known.value.receiptId) else s.workspace
  }

  /** The backup on record, if any, is the tree the effect started from. */
  predicate BackupIntact(s: State, receipt: StagedReceipt) {
    var known := Known(s, receipt.plan.intentHash);
    known.Some? ==>
      var backup := BackupIn(s.recovery, known.value.receiptId);
      backup.Some? && TreeDigest(backup.value) == known.value.versionBefore
  }

  /** The effect receipt a commit that goes on works under. */
  function EffectOf(s: State, receipt: StagedReceipt, freshId: string, now: int): EffectReceipt
    requires s.workspace.Some? && receipt.stageId in s.stages
  {
    if receipt.plan.intentHash in s.byIntent then s.byIntent[receipt.plan.intentHash].receipt
    else NewReceipt(receipt, s.workspace.value, s.stages[receipt.stageId], freshId, now)
  }

  /** How a commit that went on ended. */
  datatype Ending =
    | NotPromoted   // raised before the workspace was touched
    | Restored      // the promotion failed and the backup is back
    | Done          // the workspace is the staged tree
    | Unread        // the promotion left a tree that no snapshot accepts, and nothing was undone
    | Broken        // the process stopped, or the restoration itself raised

  /** A durable manifest of the effect beside this backup. */
  predicate Secured(s: State, effect: EffectReceipt, backup: Tree) {
    && effect.receiptId in s.recovery
    && s.recovery[effect.receiptId].backup == Some(backup)
    && s.recovery[effect.receiptId].manifest.Some?
    && s.recovery[effect.receiptId].manifest.value.receipt == effect
  }

  /** Nothing that belongs to other effects, and no other stage, is touched. */
  predicate LeavesOthersAlone(s: State, s': State, effect: EffectReceipt, stageId: string) {
    && s'.recovery - {effect.receiptId} == s.recovery - {effect.receiptId}
    && s'.stages - {stageId} == s.stages - {stageId}
  }

  /** What holds at every point at which an attempt can stop: the workspace is untouched or there
      are a durable manifest and a backup to undo with, and nothing else was touched. */
  ghost predicate Recoverable(s: State, s': State, effect: EffectReceipt, backup: Tree, stageId: string) {
    && Valid(s') && s'.fold == s.fold
    && LeavesOthersAlone(s, s', effect, stageId)
    && (s'.workspace == s.workspace || Secured(s', effect, backup))
    && (effect.intentHash in s'.byIntent ==> Secured(s', effect, backup))
    && (effect.receiptId in s'.recovery && s'.recovery[effect.receiptId].manifest.Some? ==>
          Secured(s', effect, backup))
    && (effect.intentHash in s.byIntent ==> effect.intentHash in s'.byIntent)
  }

  /** How each ending leaves the workspace. */
  predicate EndsAs(end: Ending, out: Outcome, s: State, s': State, effect: EffectReceipt,
                   backup: Tree, staged: Tree, stageId: string)
  {
    match end
    case NotPromoted =>
      out == Refused(Unspecified) && s'.workspace == s.workspace && s'.stages == s.stages
    case Restored =>
      && (out == Refused(Unspecified) || out == Refused(VerificationFailed))
      && s'.workspace == Some(backup) && s'.stages == s.stages && Secured(s', effect, backup)
      && (out.code == VerificationFailed ==> s'.recovery[effect.receiptId].manifest.value.status == RolledBack)
    case Done =>
      && s'.workspace == Some(staged) && Secured(s', effect, backup)
      && (out.Refused? ==> out.code == Unspecified || out.code == ExternalResultInDoubt)
      && (out == Refused(ExternalResultInDoubt) ==>
            s'.recovery[effect.receiptId].manifest.value.status == Promoted)
      && (out.Returned? ==>
            && out.receipt == effect
            && s'.stages == s.stages - {stageId}
            && s'.recovery[effect.receiptId].manifest.value.status == Promoted)
    case Unread =>
      && out == Refused(ValidationError) && s.workspace.Some?
      && s'.workspace == Trees.Promoted(s.workspace.value, Diff(s.workspace.value, staged))
      && s'.workspace.Some? && Aliased(s'.workspace.value, s.fold)
      && s'.stages == s.stages && Secured(s', effect, backup)
    case Broken =>
      && s'.stages == s.stages
      && (out.Crashed? || out == Refused(Unspecified)
          || (out == Refused(ValidationError) && Aliased(backup, s.fold)))
  }

  /** What one call of `commit` may do. */
  ghost predicate CommitAllowed(s: State, receipt: StagedReceipt, guard: TargetVersion,
                                freshId: string, now: int, out: Outcome, end: Ending, s': State)
  {
    if Answer(s, receipt, guard).Some? then
      out == Answer(s, receipt, guard).value && s' == s
    else
      var backup, staged := UndoTree(s, receipt).value, s.stages[receipt.stageId];
      var effect := EffectOf(s, receipt, freshId, now);
      && Recoverable(s, s', effect, backup, receipt.stageId)
      && EndsAs(end, out, s, s', effect, backup, staged, receipt.stageId)
  }

  /** How a commit that goes on ends when nothing fails. */
  function CalmEnding(s: State, receipt: StagedReceipt): Ending
    requires s.workspace.Some? && receipt.stageId in s.stages && UndoTree(s, receipt).Some?
  {
    CalmEndingOf(s.workspace.value, s.stages[receipt.stageId], UndoTree(s, receipt).value, s.fold)
  }

  function CalmEndingOf(base: Tree, staged: Tree, backup: Tree, fold: Folding): Ending {
    var promoted := Trees.Promoted(base, Diff(base, staged));
    if promoted == Some(staged) then Done
    else if promoted.Some? && Aliased(promoted.value, fold) then Unread
    else if Aliased(backup, fold) then Broken
    else Restored
  }

  /** A restoration that starts at step `t` leaves no workspace: the copy is made and the workspace
      moved away, and then the process stops before the copy is moved in, or moving the copy in and
      moving the workspace back both fail. */
  predicate LosesWorkspace(w: Weather, t: nat) {
    && w.fate(t) == Works && w.fate(t + 1) == Works
    && (w.fate(t + 2) == Stops || (w.fate(t + 2) == Raises && w.fate(t + 3) != Works))
  }

  /** How the promotion loop ends when it starts at step `t`. */
  function PromotionSignal(start: Tree, changes: seq<FileChange>, w: Weather, t: nat): Signal {
    if changes == [] then Ok
    else
      var n := |changes| - 1;
      var before := PromotionSignal(start, changes[..n], w, t);
      if before != Ok || !Copied(changes[n]) then before
      else if w.fate(t + n) != Works then Interrupted(w, t + n)
      else if Trees.Promoted(start, changes).None? then Raised(Unspecified)
      else Ok
  }

  /** The promotion fails and is to be undone. */
  predicate IsUndone(base: Tree, staged: Tree, fold: Folding, w: Weather) {
    var changes := Diff(base, staged);
    var promoted, signal := Trees.Promoted(base, changes), PromotionSignal(base, changes, w, 3);
    || signal.Raised?
    || (signal == Ok && promoted.Some? && promoted != Some(staged) && !Aliased(promoted.value, fold))
  }

  /** The first attempt makes its backup and its manifest; a retry has them. */
  predicate Prepares(s: State, receipt: StagedReceipt, w: Weather) {
    Known(s, receipt.plan.intentHash).Some? || (w.fate(0) == Works && w.fate(2) == Works)
  }

  /** When a commit that goes on leaves no workspace behind. */
  predicate CommitLosesWorkspace(s: State, receipt: StagedReceipt, w: Weather)
    requires s.workspace.Some? && receipt.stageId in s.stages && UndoTree(s, receipt).Some?
  {
    var base, staged := s.workspace.value, s.stages[receipt.stageId];
    && Prepares(s, receipt, w) && IsUndone(base, staged, s.fold, w)
    && !Aliased(UndoTree(s, receipt).value, s.fold) && LosesWorkspace(w, 3 + |Diff(base, staged)|)
  }

  /** The stage is what execution makes of the current workspace. */
  ghost predicate CleanStage(s: State, receipt: StagedReceipt) {
    && s.workspace.Some? && receipt.stageId in s.stages
    && WellFormed(s.workspace.value) && DistinctPaths(receipt.plan.files)
    && Executed(s.workspace.value, receipt.plan.files) == Some(s.stages[receipt.stageId])
  }

  // ----- rollback --------------------------------------------------------------------------------

  datatype RollbackOutcome = Reported(status: VerificationStatus) | RollbackRaised | RollbackStopped

  /** What `rollback` answers before it writes anything; none if it restores. */
  function RollbackAnswer(s: State, receipt: EffectReceipt): Option<RollbackOutcome> {
    var id := receipt.receiptId;
    var current, expected := Snapshot(s.workspace, s.fold), Snapshot(BackupIn(s.recovery, id), s.fold);
    if id !in s.byReceipt || s.byReceipt[id].receipt != receipt || BackupIn(s.recovery, id).None? then
      Some(Reported(Unknown))
    else if current.Failure? then Some(RollbackRaised)
    else if current.value != receipt.versionAfter then Some(Reported(Unknown))
    else if expected.Failure? then Some(RollbackRaised)
    else if expected.value != receipt.versionBefore then Some(Reported(Error))
    else None
  }

  /** Backups and the effects recorded beside them are never changed. */
  predicate SameBackups(before: map<string, RecoveryDirectory>, after: map<string, RecoveryDirectory>) {
    && after.Keys == before.Keys
    && (forall r | r in before ::
          && after[r].backup == before[r].backup
          && (after[r].manifest.Some? <==> before[r].manifest.Some?)
          && (before[r].manifest.Some? ==>
                after[r].manifest.value.receipt == before[r].manifest.value.receipt))
  }

  /** What one call of `rollback` may do. */
  ghost predicate RollbackAllowed(s: State, receipt: EffectReceipt, out: RollbackOutcome, s': State) {
    if RollbackAnswer(s, receipt).Some? then out == RollbackAnswer(s, receipt).value && s' == s
    else
      var backup := s.recovery[receipt.receiptId].backup;
      && Valid(s') && s'.fold == s.fold && s'.stages == s.stages && SameBackups(s.recovery, s'.recovery)
      && (s'.workspace == s.workspace || s'.workspace == backup || s'.workspace == None)
      && (out.Reported? ==>
            && out == Reported(Pass) && s'.workspace == backup
            && s'.recovery[receipt.receiptId].manifest.Some?
            && s'.recovery[receipt.receiptId].manifest.value.status == RolledBack)
  }

  // ----- verification ----------------------------------------------------------------------------

  /** What `verify_committed` reports. */
  function Verdict(s: State, receipt: EffectReceipt): Result<VerificationStatus> {
    var actual, id := Snapshot(s.workspace, s.fold), receipt.receiptId;
    if actual.Failure? then Failure(actual.error)
    else if id in s.byReceipt && s.byReceipt[id].receipt == receipt && actual.value == receipt.versionAfter then
      Success(Pass)
    else Success(Fail)
  }

  /** What `verify_staged` reports. */
  function StageVerdict(s: State, receipt: StagedReceipt): Result<VerificationStatus> {
    if receipt.stageId !in s.stages then Success(Unknown)
    else
      var actual := Snapshot(Some(s.stages[receipt.stageId]), s.fold);
      if actual.Failure? then Failure(actual.error)
      else Success(if actual.value == receipt.staged then Pass else Fail)
  }

  // ----- inspection ------------------------------------------------------------------------------

  function KeysOf(files: Files, fold: Folding): set<string> {
    set i | 0 <= i < |files| :: PortableKey(files[i].0, fold)
  }

  /** No two requested paths share a portable key. */
  predicate DistinctKeys(files: Files, fold: Folding) {
    forall i, j | 0 <= i < j < |files| :: PortableKey(files[i].0, fold) != PortableKey(files[j].0, fold)
  }

  lemma KeysSnoc(files: Files, n: nat, fold: Folding)
    requires n < |files| && DistinctKeys(files[..n], fold)
    ensures KeysOf(files[..n + 1], fold) == KeysOf(files[..n], fold) + {PortableKey(files[n].0, fold)}
    ensures DistinctKeys(files[..n + 1], fold) <==> PortableKey(files[n].0, fold) !in KeysOf(files[..n], fold)
    ensures PortableKey(files[n].0, fold) in KeysOf(files[..n], fold) ==> !DistinctKeys(files, fold)
  {
    var front, longer := files[..n], files[..n + 1];
    forall i | 0 <= i < n ensures front[i] == files[i] && longer[i] == files[i] {}
    forall k ensures k in KeysOf(longer, fold) <==> k in KeysOf(front, fold) + {PortableKey(files[n].0, fold)} {
      if k in KeysOf(longer, fold) {
        var i :| 0 <= i < |longer| && PortableKey(longer[i].0, fold) == k;
        assert i < n ==> PortableKey(front[i].0, fold) == k;
      }
      if k in KeysOf(front, fold) {
        var i :| 0 <= i < n && PortableKey(front[i].0, fold) == k;
        assert PortableKey(longer[i].0, fold) == k;
      }
      assert PortableKey(longer[n].0, fold) == PortableKey(files[n].0, fold);
    }
  }

  class FilesystemAdapter {
    var workspace: Option<Tree>
    var stages: map<string, Tree>
    var recovery: map<string, RecoveryDirectory>
    var byReceipt: map<string, Manifest>
    var byIntent: map<string, Manifest>
    const fold: Folding

    function Contents(): State
      reads this
    {
      State(workspace, stages, recovery, byReceipt, byIntent, fold)
    }

    constructor (workspace: Tree, fold: Folding)
      ensures Contents() == State(Some(workspace), map[], map[], map[], map[], fold)
    {
      this.workspace, this.fold := Some(workspace), fold;
      stages, recovery, byReceipt, byIntent := map[], map[], map[], map[];
    }

    /** `_load_recovery_manifests`, after a restart: succeeds exactly on a sound disk, and then
        remembers exactly what is durable; otherwise stops at the first directory, in sorted order,
        that is not sound, and remembers the ones before it. */
    method Load() returns (r: Result<()>)
      modifies this`byReceipt, this`byIntent
      ensures r.Success? <==> DiskOk(recovery)
      ensures r.Success? ==> Valid(Contents())
      ensures Valid(old(Contents())) ==> Contents() == old(Contents())
      ensures r.Failure? ==>
                && r.error == IntegrityError
                && exists n: nat :: StoppedAt(recovery, SortedKeys(recovery.Keys), n, byReceipt, byIntent)
    {
      hide DiskOk, Loaded, Increasing, Less, SortedKeys, Remembers, Unsound, InPlace, OneManifestPerIntent;
      ghost var before := Contents();
      byReceipt, byIntent := map[], map[];
      var directories := SortedKeys(recovery.Keys);
      NothingLoaded(recovery);
      assert directories[..0] == [];
      for n := 0 to |directories|
        invariant Loaded(recovery, directories[..n], byReceipt, byIntent)
      {
        var name := directories[n];
        assert name in directories;
        assert directories[..n + 1] == directories[..n] + [name];
        NotSeen(directories, n);
        LoadOneMore(recovery, directories[..n], name, byReceipt, byIntent);
        var found := recovery[name].manifest;
        if found.Some? {
          var receipt := found.value.receipt;
          assert Unsound(recovery[name], name, byIntent) ==>
                   StoppedAt(recovery, directories, n, byReceipt, byIntent);
          if name != receipt.receiptId {
            return Failure(IntegrityError);
          }
          if receipt.intentHash in byIntent {
            return Failure(IntegrityError);
          }
          byReceipt := byReceipt[receipt.receiptId := found.value];
          byIntent := byIntent[receipt.intentHash := found.value];
        }
      }
      assert directories[..|directories|] == directories;
      AllLoaded(before, Contents(), directories);
      return Success(());
    }

    /** `_persist_recovery_manifest`: an atomic rename, then the memory. */
    method PersistManifest(m: Manifest, w: Weather, t: nat) returns (signal: Signal)
      requires m.receipt.receiptId in recovery
      modifies this`recovery, this`byReceipt, this`byIntent
      ensures signal == (match w.fate(t) case Works => Ok case Raises => Raised(Unspecified) case Stops => Stopped)
      ensures signal == Ok ==>
                && recovery == old(recovery)[m.receipt.receiptId :=
                     old(recovery)[m.receipt.receiptId].(manifest := Some(m))]
                && byReceipt == old(byReceipt)[m.receipt.receiptId := m]
                && byIntent == old(byIntent)[m.receipt.intentHash := m]
      ensures signal != Ok ==> Contents() == old(Contents())
    {
      if w.fate(t) == Stops {
        return Stopped;
      }
      if w.fate(t) == Raises {
        return Raised(Unspecified);
      }
      var id := m.receipt.receiptId;
      recovery := recovery[id := recovery[id].(manifest := Some(m))];
      byReceipt := byReceipt[id := m];
      byIntent := byIntent[m.receipt.intentHash := m];
      return Ok;
    }

    /** `_restore_backup`: copy the backup aside, move the workspace away, move the copy in. */
    method RestoreBackup(backup: Tree, w: Weather, t: nat) returns (signal: Signal)
      requires workspace.Some?
      modifies this`workspace
      ensures signal == Ok ==> workspace == Some(backup) && !Aliased(backup, fold)
      ensures workspace == old(workspace) || workspace == Some(backup) || workspace == None
      ensures AllCalm(w) ==> signal == if Aliased(backup, fold) then Raised(ValidationError) else Ok
      ensures signal.Raised? ==>
                signal.code == if Aliased(backup, fold) then ValidationError else Unspecified
      ensures Aliased(backup, fold) ==> signal == Raised(ValidationError) && workspace == old(workspace)
      ensures workspace.None? <==> !Aliased(backup, fold) && LosesWorkspace(w, t)
    {
      assert AllCalm(w) ==> Calm(w, t) && Calm(w, t + 1) && Calm(w, t + 2) && Calm(w, t + 4);
      var expected := SnapshotTree(Some(backup), fold);
      if expected.Failure? {
        return Raised(expected.error);
      }
      if w.fate(t) != Works {
        return Interrupted(w, t);
      }
      if w.fate(t + 1) != Works {
        return Interrupted(w, t + 1);
      }
      var displaced := workspace;
      workspace := None;
      if w.fate(t + 2) != Works {
        if w.fate(t + 2) == Raises && w.fate(t + 3) == Works {
          workspace := displaced;
        }
        return Interrupted(w, t + 2);
      }
      workspace := Some(backup);
      if w.fate(t + 4) != Works {
        return Interrupted(w, t + 4);
      }
      return Ok;
    }

    /** The promotion loop: created and modified files, one at a time.  An interrupted copy may
        leave anything in the workspace. */
    method Promote(changes: seq<FileChange>, w: Weather, t: nat) returns (signal: Signal)
      requires workspace.Some?
      modifies this`workspace
      ensures workspace.Some?
      ensures signal == Ok ==> workspace == Trees.Promoted(old(workspace).value, changes)
      ensures AllCalm(w) ==>
                signal == if Trees.Promoted(old(workspace).value, changes).Some? then Ok else Raised(Unspecified)
      ensures signal == PromotionSignal(old(workspace).value, changes, w, t)
      ensures signal.Raised? ==> signal.code == Unspecified
    {
      ghost var start := workspace.value;
      hide WriteFile, Trees.Promoted;
      assert changes[..|changes|] == changes && changes[..0] == [];
      NothingPromoted(start);
      hide PromotionSignal;
      NoSignal(start, w, t);
      for n := 0 to |changes|
        invariant workspace.Some?
        invariant workspace == Trees.Promoted(start, changes[..n])
        invariant PromotionSignal(start, changes[..n], w, t) == Ok
      {
        PromotedOneMore(start, changes, n, workspace.value);
        SignalOneMore(start, changes, n, w, t);
        var change := changes[n];
        if Copied(change) {
          var written := WriteFile(workspace.value, change.path, change.after.value.content);
          if w.fate(t + n) != Works {
            assert AllCalm(w) ==> Calm(w, t + n);
            workspace := Some(w.debris(t + n));
            return Interrupted(w, t + n);
          }
          if written.None? {
            workspace := Some(w.debris(t + n));
            return Raised(Unspecified);
          }
          workspace := written;
        }
      }
      return Ok;
    }

    /** What `rollback` and the failure path of `commit` share: restore the backup, then record
        ROLLED_BACK. */
    method RestoreAndRecord(m: Manifest, backup: Tree, w: Weather, t: nat)
      returns (restored: bool, signal: Signal)
      requires workspace.Some? && m.receipt.receiptId in recovery
      requires recovery[m.receipt.receiptId].backup == Some(backup)
      requires recovery[m.receipt.receiptId].manifest.Some?
      requires recovery[m.receipt.receiptId].manifest.value.receipt == m.receipt
      requires Valid(Contents()) && m.receipt.intentHash in byIntent
      modifies this`workspace, this`recovery, this`byReceipt, this`byIntent
      ensures Valid(Contents())
      ensures restored ==> workspace == Some(backup) && !Aliased(backup, fold)
      ensures workspace.None? <==> !Aliased(backup, fold) && LosesWorkspace(w, t)
      ensures workspace == old(workspace) || workspace == Some(backup) || workspace == None
      ensures m.receipt.intentHash in byIntent
      ensures recovery - {m.receipt.receiptId} == old(recovery) - {m.receipt.receiptId}
      ensures m.receipt.receiptId in recovery
      ensures recovery[m.receipt.receiptId].backup == Some(backup)
      ensures recovery[m.receipt.receiptId].manifest.Some?
      ensures recovery[m.receipt.receiptId].manifest.value.receipt == m.receipt
      ensures signal == Ok ==>
                restored && recovery[m.receipt.receiptId].manifest.value.status == RolledBack
      ensures AllCalm(w) ==> signal == if Aliased(backup, fold) then Raised(ValidationError) else Ok
      ensures signal.Raised? ==>
                signal.code == if Aliased(backup, fold) then ValidationError else Unspecified
    {
      hide DiskOk, Remembers;
      signal := RestoreBackup(backup, w, t);
      restored := signal == Ok;
      assert AllCalm(w) ==> Calm(w, t + 5);
      if restored {
        ghost var before := Contents();
        signal := PersistManifest(m.(status := RolledBack), w, t + 5);
        if signal == Ok {
          UpdatedManifestIsValid(before, Contents(), m.(status := RolledBack));
        }
      }
    }

    /** `inspect` of normalized paths: refused for two paths with one portable key and for the
        conflicts that the neighbour scan sees; the base version is the digest of the workspace. */
    method Inspect(files: Files, transactionId: string, intentHash: string) returns (r: Result<Plan>)
      ensures r == if !DistinctKeys(files, fold)
                      || OpenConflict(SortedKeys(KeysOf(files, fold))) then Failure(ValidationError)
                   else if Snapshot(workspace, fold).Failure? then Failure(Snapshot(workspace, fold).error)
                   else Success(Plan(transactionId, intentHash, Snapshot(workspace, fold).value, files))
    {
      hide SortedKeys, Less, StartsWith, PortableKey;
      var keys: set<string> := {};
      assert files[..|files|] == files;
      for n := 0 to |files|
        invariant keys == KeysOf(files[..n], fold) && DistinctKeys(files[..n], fold)
      {
        var key := PortableKey(files[n].0, fold);
        KeysSnoc(files, n, fold);
        if key in keys {
          return Failure(ValidationError);
        }
        keys := keys + {key};
      }
      var conflict := ScanNeighbours(SortedKeys(keys));
      if conflict {
        return Failure(ValidationError);
      }
      var base := SnapshotTree(workspace, fold);
      if base.Failure? {
        return Failure(base.error);
      }
      return Success(Plan(transactionId, intentHash, base.value, files));
    }

    /** `stage`: a private copy of the workspace as it is now, whatever the plan was based on. */
    method Stage(stageId: string, w: Weather) returns (r: Result<()>)
      requires stageId !in stages
      modifies this`stages
      ensures r.Success? ==>
                && Snapshot(workspace, fold).Success?
                && stages == old(stages)[stageId := workspace.value]
      ensures r.Failure? ==>
                && stages == old(stages)
                && r.error == if Snapshot(workspace, fold).Failure? then Snapshot(workspace, fold).error
                              else Unspecified
      ensures AllCalm(w) ==> (r.Success? <==> Snapshot(workspace, fold).Success?)
    {
      assert AllCalm(w) ==> Calm(w, 0);
      var expected := SnapshotTree(workspace, fold);
      if expected.Failure? {
        return Failure(expected.error);
      }
      if w.fate(0) != Works {
        return Failure(Unspecified);
      }
      stages := stages[stageId := workspace.value];
      return Success(());
    }

    /** `execute`: the requested files, one after another, into the stage alone; a result with
        aliased entries is refused by the closing snapshot, and stays in the stage. */
    method Execute(stageId: string, plan: Plan, w: Weather) returns (r: Result<StagedReceipt>)
      modifies this`stages
      ensures stageId !in old(stages) ==> r == Failure(IntegrityError) && stages == old(stages)
      ensures r.Success? ==>
                && stageId in old(stages)
                && Executed(old(stages)[stageId], plan.files).Some?
                && !Aliased(Executed(old(stages)[stageId], plan.files).value, fold)
                && stages == old(stages)[stageId := Executed(old(stages)[stageId], plan.files).value]
                && r.value == StagedReceipt(stageId, plan, TreeDigest(stages[stageId]))
      ensures stageId in old(stages) && r.Failure? ==>
                stageId in stages && stages - {stageId} == old(stages) - {stageId}
      ensures AllCalm(w) && stageId in old(stages) ==>
                var made := Executed(old(stages)[stageId], plan.files);
                && (made.None? ==> r == Failure(Unspecified))
                && (made.Some? ==> stages[stageId] == made.value)
                && (made.Some? && Aliased(made.value, fold) ==> r == Failure(ValidationError))
                && (made.Some? && !Aliased(made.value, fold) ==> r.Success?)
    {
      hide Executed, Aliased, AllCalm;
      if stageId !in stages {
        return Failure(IntegrityError);
      }
      var written := WriteFiles(stageId, plan.files, w);
      if !written {
        return Failure(Unspecified);
      }
      var snapshot := SnapshotTree(Some(stages[stageId]), fold);
      if snapshot.Failure? {
        return Failure(snapshot.error);
      }
      return Success(StagedReceipt(stageId, plan, snapshot.value));
    }

    method WriteFiles(stageId: string, files: Files, w: Weather) returns (written: bool)
      requires stageId in stages
      modifies this`stages
      ensures stageId in stages && stages == old(stages)[stageId := stages[stageId]]
      ensures written ==> Executed(old(stages)[stageId], files) == Some(stages[stageId])
      ensures AllCalm(w) ==> written == Executed(old(stages)[stageId], files).Some?
    {
      ghost var start := stages[stageId];
      hide WriteFile, Executed;
      assert files[..|files|] == files && files[..0] == [];
      NothingExecuted(start);
      for n := 0 to |files|
        invariant stageId in stages && stages == old(stages)[stageId := stages[stageId]]
        invariant Executed(start, files[..n]) == Some(stages[stageId])
      {
        ExecutedOneMore(start, files, n, stages[stageId]);
        var next := WriteFile(stages[stageId], files[n].0, files[n].1);
        if w.fate(n) != Works || next.None? {
          assert AllCalm(w) ==> Calm(w, n);
          stages := stages[stageId := w.debris(n)];
          return false;
        }
        stages := stages[stageId := next.value];
      }
      return true;
    }

    /** `commit`, up to its first write. */
    method Check(receipt: StagedReceipt, guard: TargetVersion) returns (r: Option<Outcome>)
      ensures r == Answer(Contents(), receipt, guard)
    {
      hide Aliased;
      var plan := receipt.plan;
      if plan.intentHash in byIntent {
        var existing := byIntent[plan.intentHash].receipt;
        var actual := SnapshotTree(workspace, fold);
        if actual.Failure? {
          return Some(Refused(actual.error));
        }
        if actual.value == existing.versionAfter {
          return Some(Returned(existing));
        }
        if actual.value != existing.versionBefore {
          return Some(Refused(ExternalResultInDoubt));
        }
      }
      if guard != plan.baseVersion {
        return Some(Refused(StaleTarget));
      }
      var current := SnapshotTree(workspace, fold);
      if current.Failure? {
        return Some(Refused(current.error));
      }
      if current.value != plan.baseVersion {
        return Some(Refused(StaleTarget));
      }
      if receipt.stageId !in stages {
        return Some(Refused(IntegrityError));
      }
      var staged := SnapshotTree(Some(stages[receipt.stageId]), fold);
      if staged.Failure? {
        return Some(Refused(staged.error));
      }
      if staged.value != receipt.staged {
        return Some(Refused(VerificationFailed));
      }
      if plan.intentHash in byIntent && BackupIn(recovery, byIntent[plan.intentHash].receipt.receiptId).None? {
        return Some(Refused(IntegrityError));
      }
      return None;
    }

    /** `commit`: what it may do under any faults, and exactly how it ends when nothing fails. */
    method Commit(receipt: StagedReceipt, guard: TargetVersion, freshId: string, now: int, w: Weather)
      returns (out: Outcome, ghost end: Ending)
      requires Valid(Contents()) && freshId !in recovery
      modifies this
      ensures CommitAllowed(old(Contents()), receipt, guard, freshId, now, out, end, Contents())
      ensures AllCalm(w) && Answer(old(Contents()), receipt, guard).None? ==>
                && end == CalmEnding(old(Contents()), receipt)
                && (end.Done? ==> out.Returned?)
      ensures Answer(old(Contents()), receipt, guard).None? ==>
                (workspace.None? <==> CommitLosesWorkspace(old(Contents()), receipt, w))
    {
      var refused := Check(receipt, guard);
      if refused.Some? {
        return refused.value, NotPromoted;
      }
      GoesOn(Contents(), receipt, guard);
      hide Answer, Valid, Diff, EffectOf, Recoverable, EndsAs, CalmEnding, UndoTree, Aliased,
           CommitLosesWorkspace;
      out, end := Attempt(receipt, freshId, now, w);
    }

    /** `commit` once nothing speaks against it. */
    method Attempt(receipt: StagedReceipt, freshId: string, now: int, w: Weather)
      returns (out: Outcome, ghost end: Ending)
      requires Valid(Contents()) && freshId !in recovery
      requires workspace.Some? && receipt.stageId in stages && !Aliased(stages[receipt.stageId], fold)
      requires UndoTree(Contents(), receipt).Some?
      modifies this
      ensures var s := old(Contents());
              var effect, backup := EffectOf(s, receipt, freshId, now), UndoTree(s, receipt).value;
              && Recoverable(s, Contents(), effect, backup, receipt.stageId)
              && EndsAs(end, out, s, Contents(), effect, backup, s.stages[receipt.stageId], receipt.stageId)
      ensures AllCalm(w) ==> end == CalmEnding(old(Contents()), receipt) && (end.Done? ==> out.Returned?)
      ensures workspace.None? <==> CommitLosesWorkspace(old(Contents()), receipt, w)
    {
      hide DiskOk, Remembers, Diff, EffectOf, UndoTree, Aliased, CalmEndingOf, IsUndone, LosesWorkspace;
      var effect, signal := Prepare(receipt, freshId, now, w);
      if signal != Ok {
        return Ended(signal), if signal == Stopped then Broken else NotPromoted;
      }
      hide Valid;
      out, end := Apply(byIntent[effect.intentHash], receipt.stageId, w);
    }

    /** The promotion under a durable manifest, and what follows it. */
    method Apply(manifest: Manifest, stageId: string, w: Weather) returns (out: Outcome, ghost end: Ending)
      requires Valid(Contents()) && workspace.Some?
      requires stageId in stages && !Aliased(stages[stageId], fold)
      requires BackupIn(recovery, manifest.receipt.receiptId).Some?
      requires Secured(Contents(), manifest.receipt, BackupIn(recovery, manifest.receipt.receiptId).value)
      requires manifest.receipt.intentHash in byIntent
      modifies this
      ensures var s := old(Contents());
              var effect, backup := manifest.receipt, BackupIn(s.recovery, manifest.receipt.receiptId).value;
              && Recoverable(s, Contents(), effect, backup, stageId)
              && EndsAs(end, out, s, Contents(), effect, backup, s.stages[stageId], stageId)
              && (AllCalm(w) ==>
                    && end == CalmEndingOf(s.workspace.value, s.stages[stageId], backup, s.fold)
                    && (end.Done? ==> out.Returned?))
      ensures var s := old(Contents());
              var backup := BackupIn(s.recovery, manifest.receipt.receiptId).value;
              workspace.None? <==>
                && IsUndone(s.workspace.value, s.stages[stageId], s.fold, w) && !Aliased(backup, s.fold)
                && LosesWorkspace(w, 3 + |Diff(s.workspace.value, s.stages[stageId])|)
    {
      hide DiskOk, Remembers, Diff, Aliased, Trees.Promoted, AllCalm, LosesWorkspace, PromotionSignal;
      var staged, backup := stages[stageId], recovery[manifest.receipt.receiptId].backup.value;
      var changes := DiffSnapshots(workspace.value, staged);
      var signal := Promote(changes, w, 3);
      if signal == Stopped {
        return Crashed, Broken;
      }
      if signal == Ok {
        var final := SnapshotTree(workspace, fold);
        if final.Failure? {
          return Refused(final.error), Unread;
        }
        if final.value == TreeDigest(staged) {
          out := Conclude(manifest, stageId, w, 3 + |changes|);
          return out, Done;
        }
      }
      var code := if signal.Raised? then signal.code else VerificationFailed;
      var restored, undone := RestoreAndRecord(manifest, backup, w, 3 + |changes|);
      return if undone == Ok then Refused(code) else Ended(undone),
             if restored && undone != Stopped then Restored else Broken;
    }

    /** Record the promotion and discard the stage; a removal that fails leaves part of it. */
    method Conclude(manifest: Manifest, stageId: string, w: Weather, t: nat) returns (out: Outcome)
      requires Valid(Contents()) && manifest.receipt.receiptId in recovery
      requires recovery[manifest.receipt.receiptId].manifest.Some?
      requires recovery[manifest.receipt.receiptId].manifest.value.receipt == manifest.receipt
      requires manifest.receipt.intentHash in byIntent
      modifies this`stages, this`recovery, this`byReceipt, this`byIntent
      ensures Valid(Contents()) && manifest.receipt.intentHash in byIntent
      ensures var effect := manifest.receipt;
              && recovery - {effect.receiptId} == old(recovery) - {effect.receiptId}
              && effect.receiptId in recovery
              && recovery[effect.receiptId].backup == old(recovery)[effect.receiptId].backup
              && recovery[effect.receiptId].manifest.Some?
              && recovery[effect.receiptId].manifest.value.receipt == effect
      ensures stages - {stageId} == old(stages) - {stageId}
      ensures out.Returned? ==>
                && out.receipt == manifest.receipt
                && stages == old(stages) - {stageId}
                && recovery[manifest.receipt.receiptId].manifest.value.status == Promoted
      ensures out.Refused? ==> out.code == Unspecified || out.code == ExternalResultInDoubt
      ensures out == Refused(ExternalResultInDoubt) ==>
                recovery[manifest.receipt.receiptId].manifest.value.status == Promoted
      ensures AllCalm(w) ==> out.Returned?
    {
      hide DiskOk, Remembers;
      ghost var before := Contents();
      assert AllCalm(w) ==> Calm(w, t) && Calm(w, t + 1);
      var persisted := PersistManifest(manifest.(status := Promoted), w, t);
      if persisted != Ok {
        return Ended(persisted);
      }
      UpdatedManifestIsValid(before, Contents(), manifest.(status := Promoted));
      if w.fate(t + 1) != Works {
        stages := stages[stageId := w.debris(t + 1)];
        return if w.fate(t + 1) == Stops then Crashed else Refused(ExternalResultInDoubt);
      }
      stages := stages - {stageId};
      return Returned(manifest.receipt);
    }

    method Reconcile(intentHash: string) returns (r: Result<ReconcileStatus>)
      ensures r == Reconciled(Contents(), intentHash)
    {
      if intentHash !in byIntent {
        return Success(ReconcileNoEffect);
      }
      var receipt := byIntent[intentHash].receipt;
      var actual := SnapshotTree(workspace, fold);
      if actual.Failure? {
        return Failure(actual.error);
      }
      if actual.value == receipt.versionAfter {
        return Success(ReconcileCommitted);
      }
      if actual.value == receipt.versionBefore {
        return Success(ReconcileNoEffect);
      }
      return Success(ReconcilePartial);
    }

    method Rollback(receipt: EffectReceipt, w: Weather) returns (out: RollbackOutcome)
      requires Valid(Contents())
      modifies this
      ensures RollbackAllowed(old(Contents()), receipt, out, Contents())
      ensures AllCalm(w) && RollbackAnswer(old(Contents()), receipt).None? ==> out.Reported?
      ensures RollbackAnswer(old(Contents()), receipt).None? ==> (workspace.None? <==> LosesWorkspace(w, 0))
    {
      hide Aliased, LosesWorkspace;
      var id := receipt.receiptId;
      if id !in byReceipt || byReceipt[id].receipt != receipt || BackupIn(recovery, id).None? {
        return Reported(Unknown);
      }
      var current := SnapshotTree(workspace, fold);
      if current.Failure? {
        return RollbackRaised;
      }
      if current.value != receipt.versionAfter {
        return Reported(Unknown);
      }
      var manifest, backup := byReceipt[id], recovery[id].backup.value;
      var expected := SnapshotTree(Some(backup), fold);
      if expected.Failure? {
        return RollbackRaised;
      }
      if expected.value != receipt.versionBefore {
        return Reported(Error);
      }
      assert recovery[id].manifest == Some(manifest) && manifest.receipt.intentHash in byIntent
             && manifest.receipt.receiptId == id;
      hide Remembers, DiskOk;
      var restored, signal := RestoreAndRecord(manifest, backup, w, 0);
      KeptBackups(recovery, old(recovery), id);
      if signal != Ok {
        return if signal == Stopped then RollbackStopped else RollbackRaised;
      }
      return Reported(if TreeDigest(workspace.value) == expected.value then Pass else Fail);
    }

    /** `verify_staged`: the stage is the tree that was executed. */
    method VerifyStaged(receipt: StagedReceipt) returns (r: Result<VerificationStatus>)
      ensures r == StageVerdict(Contents(), receipt)
    {
      hide Aliased;
      if receipt.stageId !in stages {
        return Success(Unknown);
      }
      var actual := SnapshotTree(Some(stages[receipt.stageId]), fold);
      if actual.Failure? {
        return Failure(actual.error);
      }
      return Success(if actual.value == receipt.staged then Pass else Fail);
    }

    /** `verify_committed`: the receipt is the durable one, and the workspace its after-tree. */
    method VerifyCommitted(receipt: EffectReceipt) returns (r: Result<VerificationStatus>)
      ensures r == Verdict(Contents(), receipt)
    {
      hide Aliased;
      var actual := SnapshotTree(workspace, fold);
      if actual.Failure? {
        return Failure(actual.error);
      }
      var status := Fail;
      if receipt.receiptId in byReceipt && byReceipt[receipt.receiptId].receipt == receipt
         && actual.value == receipt.versionAfter {
        status := Pass;
      }
      return Success(status);
    }

    /** `abort` discards the stage and nothing else; a removal that fails leaves part of it.  The
        report holds the digest of the workspace, so that it can fail after the removal. */
    method Abort(stageId: string, w: Weather) returns (r: Result<VerificationStatus>)
      modifies this`stages
      ensures stages - {stageId} == old(stages) - {stageId}
      ensures r.Failure? <==> Snapshot(workspace, fold).Failure?
      ensures r.Failure? ==> r.error == Snapshot(workspace, fold).error
      ensures r.Success? ==> r.value == if stageId in stages then Error else Pass
      ensures stageId in stages ==> stageId in old(stages)
      ensures AllCalm(w) ==> stages == old(stages) - {stageId}
    {
      assert AllCalm(w) ==> Calm(w, 0);
      var status := Pass;
      if stageId in stages && w.fate(0) != Works {
        stages := stages[stageId := w.debris(0)];
        status := Error;
      } else {
        stages := stages - {stageId};
      }
      var restored := SnapshotTree(workspace, fold);
      return if restored.Failure? then Failure(restored.error) else Success(status);
    }

    /** The backup and the PREPARED manifest of a first attempt; a retry finds both. */
    method Prepare(receipt: StagedReceipt, freshId: string, now: int, w: Weather)
      returns (effect: EffectReceipt, signal: Signal)
      requires Valid(Contents()) && freshId !in recovery
      requires workspace.Some? && receipt.stageId in stages && UndoTree(Contents(), receipt).Some?
      modifies this`recovery, this`byReceipt, this`byIntent
      ensures effect == EffectOf(old(Contents()), receipt, freshId, now)
      ensures Valid(Contents())
      ensures recovery - {effect.receiptId} == old(recovery) - {effect.receiptId}
      ensures receipt.plan.intentHash in old(byIntent) ==> Contents() == old(Contents()) && signal == Ok
      ensures effect.intentHash == receipt.plan.intentHash
      ensures signal == Ok ==>
                && Secured(Contents(), effect, UndoTree(old(Contents()), receipt).value)
                && effect.intentHash in byIntent && byIntent[effect.intentHash].receipt == effect
      ensures signal != Ok ==>
                && byIntent == old(byIntent)
                && (effect.receiptId in recovery ==> recovery[effect.receiptId].manifest.None?)
      ensures AllCalm(w) ==> signal == Ok
      ensures signal == Ok <==> Prepares(old(Contents()), receipt, w)
      ensures signal.Raised? ==> signal.code == Unspecified
    {
      hide DiskOk, Remembers;
      ghost var s := Contents();
      assert AllCalm(w) ==> Calm(w, 0) && Calm(w, 2);
      var staged := stages[receipt.stageId];
      if receipt.plan.intentHash in byIntent {
        effect := byIntent[receipt.plan.intentHash].receipt;
        RememberedIsSecured(s, receipt.plan.intentHash);
        return effect, Ok;
      }
      effect := NewReceipt(receipt, workspace.value, staged, freshId, now);
      if w.fate(0) == Stops {
        recovery := recovery[freshId := RecoveryDirectory(Some(w.debris(0)), None)];
        AddedDirectoryIsValid(s, Contents(), freshId);
        return effect, Stopped;
      }
      if w.fate(0) == Raises {
        if w.fate(1) != Works {
          recovery := recovery[freshId := RecoveryDirectory(Some(w.debris(1)), None)];
          AddedDirectoryIsValid(s, Contents(), freshId);
        }
        return effect, Interrupted(w, 0);
      }
      recovery := recovery[freshId := RecoveryDirectory(workspace, None)];
      AddedDirectoryIsValid(s, Contents(), freshId);
      ghost var backed := Contents();
      var manifest := Manifest(Prepared, effect, receipt.stageId, receipt.staged);
      signal := PersistManifest(manifest, w, 2);
      if signal == Ok {
        NewManifestIsValid(backed, Contents(), manifest);
      }
    }
  }

  lemma NothingExecuted(start: Tree)
    ensures Executed(start, []) == Some(start)
  {}

  lemma ExecutedOneMore(start: Tree, files: Files, n: nat, reached: Tree)
    requires n < |files| && Executed(start, files[..n]) == Some(reached)
    ensures Executed(start, files[..n + 1]) == WriteFile(reached, files[n].0, files[n].1)
    ensures WriteFile(reached, files[n].0, files[n].1).None? ==> Executed(start, files).None?
  {
    assert files[..n + 1][..n] == files[..n];
    hide WriteFile;
    if WriteFile(reached, files[n].0, files[n].1).None? {
      ExecutionStuck(start, files, n + 1);
    }
  }

  /** A file that cannot be staged stops the execution for good. */
  lemma {:induction false} ExecutionStuck(start: Tree, files: Files, n: nat)
    requires n <= |files| && Executed(start, files[..n]).None?
    ensures Executed(start, files).None?
    decreases |files| - n
  {
    if n == |files| {
      assert files[..n] == files;
    } else {
      assert files[..n + 1][..n] == files[..n];
      ExecutionStuck(start, files, n + 1);
    }
  }

  /** A remembered effect is durable, beside the backup that is there. */
  lemma RememberedIsSecured(s: State, intentHash: string)
    requires Valid(s) && intentHash in s.byIntent
    ensures var effect := s.byIntent[intentHash].receipt;
            && effect.intentHash == intentHash && effect.receiptId in s.recovery
            && (BackupIn(s.recovery, effect.receiptId).Some? ==>
                  Secured(s, effect, BackupIn(s.recovery, effect.receiptId).value))
  {}

  lemma KeptBackups(after: map<string, RecoveryDirectory>, before: map<string, RecoveryDirectory>, id: string)
    requires id in before && id in after && after - {id} == before - {id}
    requires after[id].backup == before[id].backup
    requires before[id].manifest.Some? && after[id].manifest.Some?
    requires after[id].manifest.value.receipt == before[id].manifest.value.receipt
    ensures SameBackups(before, after)
  {
    forall r ensures r in after <==> r in before {
      assert r in after - {id} <==> r in before - {id};
    }
    forall r | r in before ensures r in after && (r != id ==> after[r] == before[r]) {
      assert r != id ==> r in after - {id} && (after - {id})[r] == (before - {id})[r];
    }
  }

  /** What is known when `commit` goes on. */
  lemma GoesOn(s: State, receipt: StagedReceipt, guard: TargetVersion)
    requires Answer(s, receipt, guard).None?
    ensures s.workspace.Some? && !Aliased(s.workspace.value, s.fold)
    ensures receipt.stageId in s.stages && !Aliased(s.stages[receipt.stageId], s.fold)
    ensures UndoTree(s, receipt).Some?
    ensures TreeDigest(s.workspace.value) == receipt.plan.baseVersion
    ensures TreeDigest(s.stages[receipt.stageId]) == receipt.staged
    ensures receipt.plan.intentHash in s.byIntent ==>
              && s.byIntent[receipt.plan.intentHash].receipt.versionBefore == TreeDigest(s.workspace.value)
              && s.byIntent[receipt.plan.intentHash].receipt.versionAfter != TreeDigest(s.workspace.value)
    ensures UndoTree(s, receipt) == s.workspace <==> BackupIntact(s, receipt)
  {}

  /** A clean stage is promoted, whatever else the adapter holds. */
  lemma CleanStageIsDone(s: State, receipt: StagedReceipt)
    requires CleanStage(s, receipt) && UndoTree(s, receipt).Some?
    ensures CalmEnding(s, receipt) == Done
  {
    PromotionRebuildsStage(s.workspace.value, receipt.plan.files, s.stages[receipt.stageId]);
  }

  function Interrupted(w: Weather, t: nat): Signal {
    if w.fate(t) == Stops then Stopped else Raised(Unspecified)
  }

  function Ended(signal: Signal): Outcome {
    if signal.Raised? then Refused(signal.code) else Crashed
  }

  function Part(recovery: map<string, RecoveryDirectory>, seen: seq<string>): map<string, RecoveryDirectory> {
    map r | r in recovery && r in seen :: recovery[r]
  }

  /** Loading has seen exactly the manifests of the directories so far, and they are sound. */
  predicate Loaded(recovery: map<string, RecoveryDirectory>, seen: seq<string>,
                   byReceipt: map<string, Manifest>, byIntent: map<string, Manifest>)
  {
    DiskOk(Part(recovery, seen)) && Remembers(Part(recovery, seen), byReceipt, byIntent)
  }

  /** A manifest under the wrong receipt, or for an intent that another manifest has. */
  predicate Unsound(d: RecoveryDirectory, name: string, byIntent: map<string, Manifest>) {
    d.manifest.Some? &&
    (d.manifest.value.receipt.receiptId != name || d.manifest.value.receipt.intentHash in byIntent)
  }

  /** Loading stopped at directory `n` and remembers the ones before it. */
  predicate StoppedAt(recovery: map<string, RecoveryDirectory>, directories: seq<string>, n: nat,
                      byReceipt: map<string, Manifest>, byIntent: map<string, Manifest>)
  {
    && n < |directories| && directories[n] in recovery
    && Loaded(recovery, directories[..n], byReceipt, byIntent)
    && Unsound(recovery[directories[n]], directories[n], byIntent)
  }

  lemma NothingLoaded(recovery: map<string, RecoveryDirectory>)
    ensures Loaded(recovery, [], map[], map[])
  {}

  /** An unsound directory makes the disk unsound, and of a sound one the manifest is remembered. */
  lemma LoadOneMore(recovery: map<string, RecoveryDirectory>, seen: seq<string>, name: string,
                    byReceipt: map<string, Manifest>, byIntent: map<string, Manifest>)
    requires Loaded(recovery, seen, byReceipt, byIntent)
    requires name in recovery && name !in seen
    ensures var m := recovery[name].manifest;
            && (Unsound(recovery[name], name, byIntent) <==>
                  m.Some? && (m.value.receipt.receiptId != name || m.value.receipt.intentHash in byIntent))
            && (Unsound(recovery[name], name, byIntent) ==> !DiskOk(recovery))
            && (m.None? ==> Loaded(recovery, seen + [name], byReceipt, byIntent))
            && (m.Some? && !Unsound(recovery[name], name, byIntent) ==>
                  Loaded(recovery, seen + [name], byReceipt[name := m.value],
                         byIntent[m.value.receipt.intentHash := m.value]))
  {
    var part := Part(recovery, seen);
    assert Part(recovery, seen + [name]) == part[name := recovery[name]];
    if Unsound(recovery[name], name, byIntent) {
      UnsoundIsNotOk(recovery, part, name, byReceipt, byIntent);
    } else {
      SoundOneMore(part, byReceipt, byIntent, name, recovery[name]);
      if recovery[name].manifest.Some? {
        hide DiskOk, InPlace, OneManifestPerIntent;
        RememberOneMore(part, byReceipt, byIntent, name, recovery[name]);
      } else {
        hide DiskOk, InPlace, OneManifestPerIntent;
      }
    }
  }

  lemma UnsoundIsNotOk(recovery: map<string, RecoveryDirectory>, part: map<string, RecoveryDirectory>,
                       name: string, byReceipt: map<string, Manifest>, byIntent: map<string, Manifest>)
    requires Remembers(part, byReceipt, byIntent) && name in recovery && name !in part
    requires forall r | r in part :: r in recovery && recovery[r] == part[r]
    requires Unsound(recovery[name], name, byIntent)
    ensures !DiskOk(recovery)
  {
    var m := recovery[name].manifest.value;
    if m.receipt.receiptId == name {
      var other := byIntent[m.receipt.intentHash].receipt.receiptId;
      assert recovery[other].manifest.Some? && recovery[name].manifest.Some? && other != name;
    } else {
      assert !InPlace(name, recovery[name]);
    }
  }

  lemma SoundOneMore(part: map<string, RecoveryDirectory>, byReceipt: map<string, Manifest>,
                     byIntent: map<string, Manifest>, name: string, d: RecoveryDirectory)
    requires DiskOk(part) && Remembers(part, byReceipt, byIntent) && name !in part
    requires !Unsound(d, name, byIntent)
    ensures DiskOk(part[name := d])
  {
    assert InPlace(name, d);
  }

  lemma RememberOneMore(part: map<string, RecoveryDirectory>, byReceipt: map<string, Manifest>,
                        byIntent: map<string, Manifest>, name: string, d: RecoveryDirectory)
    requires Remembers(part, byReceipt, byIntent) && name !in part && d.manifest.Some?
    requires d.manifest.value.receipt.receiptId == name
    requires d.manifest.value.receipt.intentHash !in byIntent
    ensures Remembers(part[name := d], byReceipt[name := d.manifest.value],
                      byIntent[d.manifest.value.receipt.intentHash := d.manifest.value])
  {}

  lemma AllLoaded(before: State, s: State, seen: seq<string>)
    requires Loaded(s.recovery, seen, s.byReceipt, s.byIntent)
    requires forall r | r in s.recovery :: r in seen
    requires s == before.(byReceipt := s.byReceipt, byIntent := s.byIntent)
    ensures DiskOk(s.recovery) && Valid(s)
    ensures Valid(before) ==> s == before
  {
    assert s.recovery == Part(s.recovery, seen);
    hide DiskOk, Remembers, Part;
    if Valid(before) {
      MemoryIsDetermined(s.recovery, s.byReceipt, s.byIntent, before.byReceipt, before.byIntent);
    }
  }

  lemma NotSeen(keys: seq<string>, n: nat)
    requires Increasing(keys) && n < |keys|
    ensures keys[n] !in keys[..n]
  {
    forall i | 0 <= i < n ensures keys[..n][i] != keys[n] {
      LessIsStrict(keys[i], keys[n]);
    }
  }

  lemma NoSignal(start: Tree, w: Weather, t: nat)
    ensures PromotionSignal(start, [], w, t) == Ok
  {}

  lemma SignalOneMore(start: Tree, changes: seq<FileChange>, n: nat, w: Weather, t: nat)
    requires n < |changes| && PromotionSignal(start, changes[..n], w, t) == Ok
    ensures var signal := PromotionSignal(start, changes[..n + 1], w, t);
            && signal == (if !Copied(changes[n]) then Ok
                          else if w.fate(t + n) != Works then Interrupted(w, t + n)
                          else if Trees.Promoted(start, changes[..n + 1]).None? then Raised(Unspecified)
                          else Ok)
            && (signal != Ok ==> PromotionSignal(start, changes, w, t) == signal)
  {
    assert changes[..n + 1][..n] == changes[..n];
    hide Copied, Trees.Promoted, Interrupted;
    var signal := PromotionSignal(start, changes[..n + 1], w, t);
    if signal != Ok {
      SignalStays(start, changes, n + 1, w, t);
    }
  }

  lemma {:induction false} SignalStays(start: Tree, changes: seq<FileChange>, n: nat, w: Weather, t: nat)
    requires n <= |changes| && PromotionSignal(start, changes[..n], w, t) != Ok
    ensures PromotionSignal(start, changes, w, t) == PromotionSignal(start, changes[..n], w, t)
    decreases |changes| - n
  {
    if n == |changes| {
      assert changes[..n] == changes;
    } else {
      assert changes[..n + 1][..n] == changes[..n];
      SignalStays(start, changes, n + 1, w, t);
    }
  }

  lemma NothingPromoted(start: Tree)
    ensures Trees.Promoted(start, []) == Some(start)
  {}

  lemma PromotedOneMore(start: Tree, changes: seq<FileChange>, n: nat, reached: Tree)
    requires n < |changes| && Trees.Promoted(start, changes[..n]) == Some(reached)
    ensures !Copied(changes[n]) ==> Trees.Promoted(start, changes[..n + 1]) == Some(reached)
    ensures Copied(changes[n]) ==>
              var written := WriteFile(reached, changes[n].path, changes[n].after.value.content);
              && Trees.Promoted(start, changes[..n + 1]) == written
              && (written.None? ==> Trees.Promoted(start, changes).None?)
  {
    assert changes[..n + 1][..n] == changes[..n];
    hide WriteFile;
    if Copied(changes[n])
       && WriteFile(reached, changes[n].path, changes[n].after.value.content).None? {
      PromotionStuck(start, changes, n);
    }
  }

  /** A change that cannot be written stops the promotion for good. */
  lemma {:induction false} PromotionStuck(start: Tree, changes: seq<FileChange>, n: nat)
    requires n < |changes| && Trees.Promoted(start, changes[..n]).Some? && Copied(changes[n])
    requires WriteFile(Trees.Promoted(start, changes[..n]).value, changes[n].path,
                       changes[n].after.value.content).None?
    ensures Trees.Promoted(start, changes).None?
  {
    if n == |changes| - 1 {
      assert changes[..n] == changes[..|changes| - 1];
    } else {
      assert changes[..|changes| - 1][..n] == changes[..n];
      PromotionStuck(start, changes[..|changes| - 1], n);
    }
  }

  lemma AddedDirectoryIsValid(s: State, s': State, id: string)
    requires Valid(s) && id !in s.recovery
    requires s' == s.(recovery := s'.recovery)
    requires id in s'.recovery && s'.recovery == s.recovery[id := s'.recovery[id]]
    requires s'.recovery[id].manifest.None?
    ensures Valid(s')
    ensures s'.recovery - {id} == s.recovery - {id}
  {}

  lemma NewManifestIsValid(s: State, s': State, m: Manifest)
    requires Valid(s) && m.receipt.receiptId in s.recovery
    requires s.recovery[m.receipt.receiptId].manifest.None? && m.receipt.intentHash !in s.byIntent
    requires s'.recovery == s.recovery[m.receipt.receiptId :=
                              s.recovery[m.receipt.receiptId].(manifest := Some(m))]
    requires s'.byReceipt == s.byReceipt[m.receipt.receiptId := m]
    requires s'.byIntent == s.byIntent[m.receipt.intentHash := m]
    ensures Valid(s')
  {}

  lemma UpdatedManifestIsValid(s: State, s': State, m: Manifest)
    requires Valid(s) && m.receipt.receiptId in s.recovery
    requires s.recovery[m.receipt.receiptId].manifest.Some?
    requires s.recovery[m.receipt.receiptId].manifest.value.receipt == m.receipt
    requires s'.recovery == s.recovery[m.receipt.receiptId :=
                              s.recovery[m.receipt.receiptId].(manifest := Some(m))]
    requires s'.byReceipt == s.byReceipt[m.receipt.receiptId := m]
    requires s'.byIntent == s.byIntent[m.receipt.intentHash := m]
    ensures Valid(s')
  {}
}
