/** The reference adapter: dictionary updates on a versioned in-memory target. */
module Mock {
  import opened Wrappers
  import opened Domain

  type Values = map<string, string>

  /** What an action asks for; `intentHash` is the digest of its semantic material. */
  datatype Proposal = Proposal(transactionId: string, goalId: string, intentHash: string, values: Values)

  datatype EffectPlan =
    EffectPlan(transactionId: string, intentHash: string, baseVersion: TargetVersion, values: Values)

  datatype StagedEffect = StagedEffect(stageId: string, plan: EffectPlan, state: Values)

  datatype StagedReceipt = StagedReceipt(staged: StagedEffect, state: Values)

  /** The adapter with its target. */
  datatype Adapter = Adapter(
    state: Values, version: nat,
    stages: map<string, StagedReceipt>,
    snapshots: map<string, Values>,
    receipts: map<string, EffectReceipt>)

  function NewAdapter(state: Values, version: nat): Adapter {
    Adapter(state, version, map[], map[], map[])
  }

  function Inspect(a: Adapter, p: Proposal): EffectPlan {
    EffectPlan(p.transactionId, p.intentHash, Counter(a.version), p.values)
  }

  function Stage(a: Adapter, plan: EffectPlan, stageId: string): StagedEffect {
    StagedEffect(stageId, plan, a.state)
  }

  function Execute(a: Adapter, staged: StagedEffect): (StagedReceipt, Adapter) {
    var receipt := StagedReceipt(staged, staged.state + staged.plan.values);
    (receipt, a.(stages := a.stages[staged.stageId := receipt]))
  }

  function Commit(a: Adapter, receipt: StagedReceipt, guard: TargetVersion, receiptId: string, now: int)
    : (Result<EffectReceipt>, Adapter)
  {
    var plan := receipt.staged.plan;
    if plan.intentHash in a.receipts then (Success(a.receipts[plan.intentHash]), a)
    else if guard != plan.baseVersion then (Failure(StaleTarget), a)
    else if Counter(a.version) != plan.baseVersion then (Failure(StaleTarget), a)
    else
      var effect := EffectReceipt(receiptId, plan.transactionId, plan.intentHash,
                                  Counter(a.version), Counter(a.version + 1), now);
      (Success(effect),
       Adapter(receipt.state, a.version + 1, a.stages - {receipt.staged.stageId},
               a.snapshots[receiptId := a.state], a.receipts[plan.intentHash := effect]))
  }

  function VerifyCommitted(a: Adapter, receipt: EffectReceipt): VerificationStatus {
    if receipt.intentHash in a.receipts && a.receipts[receipt.intentHash] == receipt
       && Counter(a.version) == receipt.versionAfter then Pass
    else Fail
  }

  function Abort(a: Adapter, stageId: string): Adapter {
    a.(stages := a.stages - {stageId})
  }

  function Rollback(a: Adapter, receipt: EffectReceipt): (VerificationStatus, Adapter) {
    if receipt.receiptId !in a.snapshots then (Unknown, a)
    else if Counter(a.version) != receipt.versionAfter then (Unknown, a)
    else (Pass, a.(state := a.snapshots[receipt.receiptId], version := a.version + 1))
  }

  datatype ReconcileStatus = ReconcileCommitted | ReconcileNoEffect | ReconcilePartial

  function Reconcile(a: Adapter, intentHash: string): ReconcileStatus {
    if intentHash in a.receipts then ReconcileCommitted else ReconcileNoEffect
  }

  /** Rollback right after an effectful commit restores the state, not the version; a second
      rollback finds the version moved and changes nothing. */
  lemma RollbackInvertsCommit(a: Adapter, receipt: StagedReceipt, guard: TargetVersion,
                              receiptId: string, now: int)
    requires receipt.staged.plan.intentHash !in a.receipts
    requires Commit(a, receipt, guard, receiptId, now).0.Success?
    ensures var (r, a1) := Commit(a, receipt, guard, receiptId, now);
            var (status, a2) := Rollback(a1, r.value);
            && status == Pass && a2.state == a.state && a2.version == a.version + 2
            && Rollback(a2, r.value) == (Unknown, a2)
  {
    var (r, a1) := Commit(a, receipt, guard, receiptId, now);
    assert r.value.receiptId == receiptId && receiptId in a1.snapshots;
  }

  /** `reconcile` reports what was committed, not what is in the target: after that rollback it
      still says COMMITTED, though the state is the one before the commit. */
  lemma ReconcileForgetsRollback(a: Adapter, receipt: StagedReceipt, guard: TargetVersion,
                                 receiptId: string, now: int)
    requires receipt.staged.plan.intentHash !in a.receipts
    requires Commit(a, receipt, guard, receiptId, now).0.Success?
    ensures var (r, a1) := Commit(a, receipt, guard, receiptId, now);
            var a2 := Rollback(a1, r.value).1;
            a2.state == a.state && Reconcile(a2, r.value.intentHash) == ReconcileCommitted
  {
    RollbackInvertsCommit(a, receipt, guard, receiptId, now);
  }

  /** The verdict on a commit is PASS right after it, and FAIL once anything else was written, the commit
      was rolled back, or for a receipt other than the one remembered. */
  lemma VerdictOnCommit(a: Adapter, receipt: StagedReceipt, guard: TargetVersion, receiptId: string, now: int,
                        state: Values, other: EffectReceipt)
    requires receipt.staged.plan.intentHash !in a.receipts
    requires Commit(a, receipt, guard, receiptId, now).0.Success?
    requires other.intentHash == receipt.staged.plan.intentHash
    ensures var (r, a1) := Commit(a, receipt, guard, receiptId, now);
            && r.value == EffectReceipt(receiptId, receipt.staged.plan.transactionId, other.intentHash,
                                        guard, Counter(a1.version), now)
            && VerifyCommitted(a1, r.value) == Pass
            && VerifyCommitted(a1.(state := state, version := a1.version + 1), r.value) == Fail
            && VerifyCommitted(Rollback(a1, r.value).1, r.value) == Fail
            && (other != r.value ==> VerifyCommitted(a1, other) == Fail)
  {
  }

  class VersionedMemoryTarget {
    var state: Values
    var version: nat

    constructor (state: Values, version: nat)
      ensures this.state == state && this.version == version
    {
      this.state, this.version := state, version;
    }
  }

  class MockReversibleAdapter {
    const target: VersionedMemoryTarget
    var stages: map<string, StagedReceipt>
    var snapshots: map<string, Values>
    var receipts: map<string, EffectReceipt>

    constructor (target: VersionedMemoryTarget)
      ensures this.target == target && Contents() == NewAdapter(target.state, target.version)
    {
      this.target := target;
      stages, snapshots, receipts := map[], map[], map[];
    }

    function Contents(): Adapter
      reads this, target
    {
      Adapter(target.state, target.version, stages, snapshots, receipts)
    }

    method DoInspect(p: Proposal) returns (plan: EffectPlan)
      ensures plan == Inspect(Contents(), p)
    {
      plan := EffectPlan(p.transactionId, p.intentHash, Counter(target.version), p.values);
    }

    method DoStage(plan: EffectPlan, stageId: string) returns (staged: StagedEffect)
      ensures staged == Stage(Contents(), plan, stageId)
    {
      staged := StagedEffect(stageId, plan, target.state);
    }

    method DoExecute(staged: StagedEffect) returns (receipt: StagedReceipt)
      modifies this
      ensures (receipt, Contents()) == Execute(old(Contents()), staged)
    {
      var stagedState := staged.state;
      stagedState := stagedState + staged.plan.values;
      receipt := StagedReceipt(staged, stagedState);
      stages := stages[staged.stageId := receipt];
    }

    method DoCommit(receipt: StagedReceipt, guard: TargetVersion, receiptId: string, now: int)
      returns (r: Result<EffectReceipt>)
      modifies this, target
      ensures (r, Contents()) == Commit(old(Contents()), receipt, guard, receiptId, now)
    {
      var plan := receipt.staged.plan;
      if plan.intentHash in receipts {
        return Success(receipts[plan.intentHash]);
      }
      if guard != plan.baseVersion {
        return Failure(StaleTarget);
      }
      if Counter(target.version) != plan.baseVersion {
        return Failure(StaleTarget);
      }
      var beforeState, beforeVersion := target.state, target.version;
      target.state := receipt.state;
      target.version := target.version + 1;
      var effect := EffectReceipt(receiptId, plan.transactionId, plan.intentHash,
                                  Counter(beforeVersion), Counter(target.version), now);
      snapshots := snapshots[receiptId := beforeState];
      receipts := receipts[plan.intentHash := effect];
      stages := stages - {receipt.staged.stageId};
      return Success(effect);
    }

    method DoVerifyCommitted(receipt: EffectReceipt) returns (status: VerificationStatus)
      ensures status == VerifyCommitted(Contents(), receipt)
    {
      if receipt.intentHash in receipts && receipts[receipt.intentHash] == receipt
         && Counter(target.version) == receipt.versionAfter {
        status := Pass;
      } else {
        status := Fail;
      }
    }

    method DoAbort(stageId: string) returns (status: VerificationStatus)
      modifies this
      ensures status == Pass && Contents() == Abort(old(Contents()), stageId)
    {
      stages := stages - {stageId};
      status := Pass;
    }

    method DoRollback(receipt: EffectReceipt) returns (status: VerificationStatus)
      modifies target
      ensures (status, Contents()) == Rollback(old(Contents()), receipt)
    {
      if receipt.receiptId !in snapshots {
        return Unknown;
      }
      if Counter(target.version) != receipt.versionAfter {
        return Unknown;
      }
      target.state := snapshots[receipt.receiptId];
      target.version := target.version + 1;
      return Pass;
    }

    method DoReconcile(intentHash: string) returns (status: ReconcileStatus)
      ensures status == Reconcile(Contents(), intentHash)
    {
      if intentHash !in receipts {
        return ReconcileNoEffect;
      }
      return ReconcileCommitted;
    }
  }
}
