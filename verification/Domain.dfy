/** Records shared by the journal, the adapters and the coordinator. */
module Domain {
  import opened Wrappers
  import opened StateMachine

  datatype VerificationStatus = Pass | Fail | Unknown | Error

  /** A rule id names one row of the transition table, and the row is fixed by its key. */
  datatype ReasonCode = Text(text: string) | RuleOf(source: TransactionState, event: TransitionEvent)

  datatype TransactionRecord = TransactionRecord(
    transactionId: string, goalId: string, state: TransactionState, version: nat,
    intentHash: Option<string>, intended: Option<IntendedOutcome>,
    createdAt: int, updatedAt: int, reasonCode: Option<ReasonCode>, supersedes: Option<string>)

  /** The record every transaction is admitted with. */
  function NewRecord(transactionId: string, goalId: string, now: int): TransactionRecord {
    TransactionRecord(transactionId, goalId, New, 0, None, None, now, now, None, None)
  }

  datatype Node = File(content: string) | Directory

  /** A directory tree below its root: paths are '/'-separated and relative. */
  type Tree = map<string, Node>

  /** Versions of a target: the decimal text of a counter, or the digest of a tree.  Both
      renderings are modelled as injective. */
  datatype TargetVersion = Counter(n: nat) | TreeDigest(tree: Tree)

  datatype EffectReceipt = EffectReceipt(
    receiptId: string, transactionId: string, intentHash: string,
    versionBefore: TargetVersion, versionAfter: TargetVersion, createdAt: int)
}
