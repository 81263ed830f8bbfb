/** The coordinator's sessions over one journal and one mock adapter, as an interleaved machine.

    Every step is one atomic action: one journal operation, one adapter call, or a purely local
    decision.  Any session may step at any time, so all interleavings of journal operations and
    adapter calls are runs of the machine; a session that is never stepped again has crashed. */
module Protocol {
  import opened Wrappers
  import opened StateMachine
  import opened Ledger
  import opened Domain
  import opened Journal
  import M = Mock

  // ----- what the environment decides -------------------------------------------------------

  /** What `_ensure_pre_effect_guards` finds. */
  datatype Guard = GuardsPass | DeadlineElapsed | ManifestChanged

  /** The exceptions an awaited call can raise. */
  datatype Exception = CancelledError | KernelError(code: ErrorCode) | OtherError

  /** The environment's part in one step: guard results, the exception raised by an awaited call,
      whether it is raised only after the call took effect (a lost acknowledgement), the status an
      adapter reports, whether journal storage works, and the identifiers drawn. */
  datatype Env = Env(
    guard: Guard, fault: Option<Exception>, late: bool, status: VerificationStatus,
    storageUp: bool, stamp: Stamp, reason: Option<string>, freshId: string)

  // ----- sessions ---------------------------------------------------------------------------

  datatype Operation = Opening | Entering | CommittingOp | Cancelling | EnforcingDeadline | Exiting

  /** What follows a journalled transition. */
  datatype Next =
    | ThenRest | ThenAuthorize | ThenLease | ThenStage | ThenVerifyStaged | ThenNoApproval
    | ThenCommit | ThenDiscard | ThenFinishAbort

  /** Where a session stands: which atomic action it does next. */
  datatype Point =
    | AtAdmission
    | AtInspect
    | AtBind(plan: M.EffectPlan)
    | AtRest
    | AtReserve
    | AtLink(previous: string)
    | AtSend(event: TransitionEvent, next: Next)
    | AtStage
    | AtExecute
    | AtVerifyStaged
    | AtReinspect
    | AtCommit
    | AtReceipt(receipt: EffectReceipt)
    | AtVerifyCommitted
    | AtDiscard

  /** Whether a journal operation of a session failed, and whether the link did. */
  datatype StorageHistory = AllWorked | SomeFailed | LinkFailed

  /** The fields of a session, its control point, and its history: `adapter.abort` raised, the staged
      handle was discarded with PASS, and what failed in the journal. */
  datatype Session = Session(
    proposal: M.Proposal, plan: Option<M.EffectPlan>, record: TransactionRecord,
    effect: Option<M.StagedEffect>, staged: Option<M.StagedReceipt>, cleanupFailed: bool,
    point: Point, operation: Operation,
    abortRaised: bool, discarded: bool, storage: StorageHistory)

  function Resume(next: Next): Point {
    match next
    case ThenRest => AtRest
    case ThenAuthorize => AtSend(AuthorizedForStaging, ThenLease)
    case ThenLease => AtSend(WorkerLeaseAcquired, ThenStage)
    case ThenStage => AtStage
    case ThenVerifyStaged => AtVerifyStaged
    case ThenNoApproval => AtSend(NoApprovalRequired, ThenRest)
    case ThenCommit => AtCommit
    case ThenDiscard => AtDiscard
    case ThenFinishAbort => AtSend(StagingDiscardSucceeded, ThenRest)
  }

  /** `_PRE_COMMIT_STATES`. */
  predicate PreCommit(s: TransactionState) {
    s == New || InPreparation(s)
  }

  /** `transaction()` gives up: a cancellation aborts, anything else rejects. */
  function Refuse(e: Exception): Point {
    if e == CancelledError then AtSend(Cancelled, ThenFinishAbort)
    else AtSend(ValidationFailed, ThenRest)
  }

  /** The event for an exception while staging or verifying the stage. */
  function EventFor(e: Exception, otherwise: TransitionEvent): TransitionEvent {
    match e
    case CancelledError => Cancelled
    case KernelError(code) => if code == DeadlineExceeded then DeadlinePassed else otherwise
    case OtherError => otherwise
  }

  function GuardEvent(g: Guard): TransitionEvent {
    if g == DeadlineElapsed then DeadlinePassed else CommitRevalidationFailed
  }

  /** `_abort_precommit`. */
  function AbortPrecommit(me: Session, event: TransitionEvent): Point {
    if IsTerminal(me.record.state) && me.record.state != Committed then AtRest
    else if !PreCommit(me.record.state) then AtRest
    else AtSend(event, ThenDiscard)
  }

  /** The first step of an operation of a session, up to its first atomic action. */
  function Open(me: Session, op: Operation, env: Env): Point {
    var state := me.record.state;
    match op
    case Opening => AtRest
    case Entering =>
      if state != New then AtRest
      else if env.guard != GuardsPass then AtSend(ValidationFailed, ThenRest)
      else AtReserve
    case CommittingOp =>
      if state != ReadyToCommit || me.staged.None? then AtRest
      else if env.guard != GuardsPass then AtSend(GuardEvent(env.guard), ThenDiscard)
      else AtReinspect
    case Cancelling => AbortPrecommit(me, Cancelled)
    case EnforcingDeadline =>
      if IsTerminal(state) || env.guard != DeadlineElapsed then AtRest
      else if state == New then AtSend(ValidationFailed, ThenRest)
      else AbortPrecommit(me, DeadlinePassed)
    case Exiting =>
      if IsTerminal(state) then AtRest
      else if PreCommit(state) then AbortPrecommit(me, ContextExited)
      else if state == Aborting then AtDiscard
      else AtRest
  }

  // ----- the system -------------------------------------------------------------------------

  /** Authoritative writes, in the order in which they happened. */
  datatype Write = Effect(transactionId: string, intentHash: string, values: M.Values)
                 | Outside(state: M.Values)

  datatype System = System(
    tables: Tables, mock: M.Adapter, sessions: map<string, Session>,
    writes: seq<Write>, grants: map<string, seq<string>>)

  datatype Action =
    | Admit(proposal: M.Proposal, env: Env)
    | Start(id: string, op: Operation, env: Env)
    | Advance(id: string, env: Env)
    | OutsideWrite(state: M.Values)

  function Initial(state: M.Values, version: nat): System {
    System(EMPTY_TABLES, M.NewAdapter(state, version), map[], [], map[])
  }

  function With(s: System, id: string, me: Session): System {
    s.(sessions := s.sessions[id := me])
  }

  /** A journal operation that did not work out: the exception ends the current operation. */
  function Stop(me: Session): Session {
    me.(point := AtRest, storage := AfterFailure(me))
  }

  /** A link that failed is remembered, whatever fails later. */
  function AfterFailure(me: Session): StorageHistory {
    if me.point.AtLink? || me.storage == LinkFailed then LinkFailed else SomeFailed
  }

  function DoAdmit(hash: EventHash, s: System, p: M.Proposal, env: Env): System {
    var record := NewRecord(p.transactionId, p.goalId, env.stamp.now);
    var (r, t) := if env.storageUp then CreateTransaction(hash, s.tables, record, env.stamp)
                  else (Failure(StorageError), s.tables);
    if r.Failure? then s
    else
      With(s.(tables := t), p.transactionId,
           Session(p, None, record, None, None, false, AtAdmission, Opening, false, false, AllWorked))
  }

  function DoBind(s: System, id: string, me: Session, plan: M.EffectPlan, env: Env): System {
    var (r, t) := if env.storageUp then SetTransactionIntent(s.tables, id, plan.intentHash)
                  else (Failure(StorageError), s.tables);
    if r.Success? then
      With(s.(tables := t), id, me.(plan := Some(plan), record := r.value, point := AtRest))
    else
      With(s, id, me.(point := AtSend(ValidationFailed, ThenRest), storage := AfterFailure(me)))
  }

  function DoReserve(s: System, id: string, me: Session, intent: string, env: Env): System {
    var (r, t) := if env.storageUp then ReserveIntent(s.tables, intent, id)
                  else (Failure(StorageError), s.tables);
    if r.Failure? then With(s, id, Stop(me))
    else if r.value.transactionId != id then
      With(s, id, me.(point := AtSend(ValidationFailed, ThenRest)))
    else
      var earlier := if intent in s.grants then s.grants[intent] else [];
      var s' := if r.value.created
                then s.(tables := t, grants := s.grants[intent := earlier + [id]])
                else s;
      With(s', id, me.(point := if r.value.previous.Some? then AtLink(r.value.previous.value)
                                else AtSend(ProposalValid, ThenAuthorize)))
  }

  function DoLink(s: System, id: string, me: Session, previous: string, env: Env): System {
    var (r, t) := if env.storageUp then LinkSupersession(s.tables, id, previous)
                  else (Failure(StorageError), s.tables);
    if r.Failure? then With(s, id, Stop(me))
    else
      With(s.(tables := t), id,
           me.(record := r.value, point := AtSend(ProposalValid, ThenAuthorize)))
  }

  function DoSend(hash: EventHash, s: System, id: string, me: Session, event: TransitionEvent,
                  next: Next, env: Env): System
  {
    var (r, t) := if env.storageUp
                  then Transition(hash, s.tables, id, me.record.version, event, env.stamp, env.reason)
                  else (Failure(StorageError), s.tables);
    if r.Failure? then With(s, id, Stop(me))
    else With(s.(tables := t), id, me.(record := r.value, point := Resume(next)))
  }

  function DoReceipt(s: System, id: string, me: Session, receipt: EffectReceipt, env: Env): System {
    var (r, t) := if env.storageUp then AppendReceipt(s.tables, receipt)
                  else (Failure(StorageError), s.tables);
    if r.Failure? then With(s, id, me.(point := AtSend(CommitOutcomeUnknown, ThenRest)))
    else With(s.(tables := t), id, me.(point := AtVerifyCommitted))
  }

  /** Where an exception from `adapter.commit` leads. */
  function CommitFault(e: Exception): Point {
    if e == KernelError(StaleTarget) then AtSend(CommitFailedNoEffect, ThenDiscard)
    else AtSend(CommitOutcomeUnknown, ThenRest)
  }

  /** `adapter.commit`: it may raise before doing anything, raise what the target makes it raise,
      return its receipt, or take effect and lose the acknowledgement. */
  function DoCommit(s: System, id: string, me: Session, plan: M.EffectPlan, staged: M.StagedReceipt,
                    env: Env): System
  {
    if env.fault.Some? && !env.late then With(s, id, me.(point := CommitFault(env.fault.value)))
    else
      var (r, mock) := M.Commit(s.mock, staged, plan.baseVersion, env.freshId, env.stamp.now);
      if r.Failure? then With(s, id, me.(point := CommitFault(KernelError(r.error))))
      else
        var s' := if mock.version == s.mock.version then s
                  else s.(mock := mock,
                          writes := s.writes + [Effect(id, plan.intentHash, plan.values)]);
        With(s', id, me.(point := if env.fault.Some? then CommitFault(env.fault.value)
                                  else AtReceipt(r.value)))
  }

  /** The points that touch neither the journal nor the authoritative target. */
  function Converse(me: Session, plan: M.EffectPlan, mock: M.Adapter, env: Env): (Session, M.Adapter) {
    match me.point
    case AtStage =>
      if env.fault.Some? then
        (me.(cleanupFailed := env.fault.value == KernelError(RollbackFailed),
             point := AtSend(EventFor(env.fault.value, StagingFailed), ThenDiscard)), mock)
      else (me.(effect := Some(M.Stage(mock, plan, env.freshId)), point := AtExecute), mock)
    case AtExecute =>
      if me.effect.None? then (me, mock)
      else
        var (receipt, mock') := M.Execute(mock, me.effect.value);
        if env.fault.Some? then
          (me.(cleanupFailed := env.fault.value == KernelError(RollbackFailed),
               point := AtSend(EventFor(env.fault.value, StagingFailed), ThenDiscard)),
           if env.late then mock' else mock)
        else (me.(staged := Some(receipt), point := AtSend(StagingSucceeded, ThenVerifyStaged)), mock')
    case AtVerifyStaged =>
      if env.fault.Some? then
        (me.(point := AtSend(EventFor(env.fault.value, StagedVerificationFailed), ThenDiscard)), mock)
      else if env.status != Pass then
        (me.(point := AtSend(StagedVerificationFailed, ThenDiscard)), mock)
      else (me.(point := AtSend(StagedVerificationPassed, ThenNoApproval)), mock)
    case AtReinspect =>
      if env.fault.Some? then (me.(point := AtRest), mock)
      else if M.Inspect(mock, me.proposal).baseVersion != plan.baseVersion then
        (me.(point := AtSend(TargetVersionChanged, ThenDiscard)), mock)
      else if env.guard != GuardsPass then
        (me.(point := AtSend(GuardEvent(env.guard), ThenDiscard)), mock)
      else (me.(point := AtSend(CommitGuardsPassed, ThenCommit)), mock)
    case AtVerifyCommitted =>
      if env.fault.None? && env.status == Pass then (me.(point := AtSend(CommitVerified, ThenRest)), mock)
      else (me.(point := AtSend(CommitPartialOrInvalid, ThenRest)), mock)
    case AtDiscard =>
      if me.cleanupFailed then (me.(point := AtSend(StagingDiscardFailed, ThenRest)), mock)
      else if me.staged.None? && me.effect.None? then
        (me.(point := AtSend(StagingDiscardSucceeded, ThenRest)), mock)
      else if env.fault.Some? then (me.(point := AtRest, abortRaised := true), mock)
      else if env.status != Pass then (me.(point := AtSend(StagingDiscardFailed, ThenRest)), mock)
      else
        var stageId := if me.staged.Some? then me.staged.value.staged.stageId
                       else me.effect.value.stageId;
        (me.(point := AtSend(StagingDiscardSucceeded, ThenRest), discarded := true),
         M.Abort(mock, stageId))
    case _ => (me, mock)
  }

  function DoAdvance(hash: EventHash, s: System, id: string, env: Env): System
    requires id in s.sessions
  {
    var me := s.sessions[id];
    match me.point
    case AtRest => s
    case AtSend(event, next) => DoSend(hash, s, id, me, event, next, env)
    case AtAdmission =>
      With(s, id, me.(point := if env.fault.Some? then Refuse(env.fault.value) else AtInspect))
    case AtInspect =>
      With(s, id, me.(point := if env.fault.Some? then Refuse(env.fault.value)
                               else AtBind(M.Inspect(s.mock, me.proposal))))
    case AtBind(plan) => DoBind(s, id, me, plan, env)
    case AtReceipt(receipt) => DoReceipt(s, id, me, receipt, env)
    case AtReserve => if me.plan.None? then s else DoReserve(s, id, me, me.plan.value.intentHash, env)
    case AtLink(previous) => DoLink(s, id, me, previous, env)
    case AtCommit =>
      if me.plan.None? || me.staged.None? then s
      else DoCommit(s, id, me, me.plan.value, me.staged.value, env)
    case _ =>
      if me.plan.None? then s
      else
        var (me', mock') := Converse(me, me.plan.value, s.mock, env);
        With(s.(mock := mock'), id, me')
  }

  function Step(hash: EventHash, s: System, a: Action): System {
    match a
    case Admit(p, env) => DoAdmit(hash, s, p, env)
    case Start(id, op, env) =>
      if id !in s.sessions || s.sessions[id].point != AtRest || s.sessions[id].plan.None?
         || op == Opening then s
      else
        var me := s.sessions[id];
        With(s, id, me.(operation := op, point := Open(me, op, env)))
    case Advance(id, env) => if id in s.sessions then DoAdvance(hash, s, id, env) else s
    case OutsideWrite(state) =>
      s.(mock := s.mock.(state := state, version := s.mock.version + 1),
         writes := s.writes + [Outside(state)])
  }

  /** The adapter contract: STALE_STATE is raised only when this attempt changed nothing. */
  predicate Lawful(a: Action) {
    a.Advance? && a.env.late ==> a.env.fault != Some(KernelError(StaleTarget))
  }

  ghost predicate LawfulRun(actions: seq<Action>) {
    forall i | 0 <= i < |actions| :: Lawful(actions[i])
  }

  function Reach(hash: EventHash, init: System, actions: seq<Action>): System {
    if actions == [] then init
    else Step(hash, Reach(hash, init, actions[..|actions| - 1]), actions[|actions| - 1])
  }
}
