/** What one session knows about itself, and that it never sends an illegal transition. */
module ProtocolLocal {
  import opened Wrappers
  import opened StateMachine
  import opened Domain
  import opened Protocol

  /** The record of a session and the handles it holds, without its control point. */
  datatype Holdings = Holdings(
    proposal: M.Proposal, record: TransactionRecord, plan: Option<M.EffectPlan>,
    effect: Option<M.StagedEffect>, staged: Option<M.StagedReceipt>)

  function Hold(me: Session): Holdings {
    Holdings(me.proposal, me.record, me.plan, me.effect, me.staged)
  }

  /** A staged receipt exists from STAGED to the commit boundary. */
  predicate AfterStaging(s: TransactionState) {
    s.Staged? || s.StageVerified? || s.AwaitingApproval? || s.ReadyToCommit? || s.Committing?
  }

  /** The handles a state calls for. */
  predicate Equipped(h: Holdings, state: TransactionState) {
    && (AfterStaging(state) ==> h.staged.Some?)
    && (InPreparation(state) || PastCommit(state) ==> h.plan.Some?)
    && (state == New || state == Planned || state == AuthorizedToStage ==> h.effect.None?)
  }

  /** The handles a session holds belong to its plan, its plan to its transaction, and both fit
      the state of its record. */
  predicate SteadyOk(h: Holdings, id: string) {
    && h.record.transactionId == id && h.proposal.transactionId == id
    && (h.plan.Some? ==>
          && h.plan.value == M.EffectPlan(id, h.proposal.intentHash, h.plan.value.baseVersion,
                                          h.proposal.values)
          && h.record.intentHash == Some(h.plan.value.intentHash))
    && (h.plan.None? ==> h.effect.None? && h.record.intentHash.None?)
    && (h.effect.None? ==> h.staged.None?)
    && (h.effect.Some? ==> h.plan == Some(h.effect.value.plan))
    && (h.staged.Some? ==>
          && h.effect == Some(h.staged.value.staged)
          && h.staged.value.state == h.effect.value.state + h.plan.value.values)
    && (h.record.state == New ==> h.record.intended.None?)
    && (h.record.state == Aborting ==> h.record.intended.Some?)
    && Equipped(h, h.record.state)
  }

  /** States in which an operation of a session may end. */
  predicate Settled(s: TransactionState) {
    IsTerminal(s) || s.InDoubt? || s.Failed? || s.ReadyToCommit?
  }

  /** The state each continuation expects. */
  predicate NextOk(next: Next, target: TransactionState) {
    match next
    case ThenRest => Settled(target)
    case ThenAuthorize => target == Planned
    case ThenLease => target == AuthorizedToStage
    case ThenStage => target == TransactionState.Staging
    case ThenVerifyStaged => target == Staged
    case ThenNoApproval => target == StageVerified
    case ThenCommit => target == Committing
    case ThenDiscard => target == Aborting
    case ThenFinishAbort => target == Aborting
  }

  /** Recovery and reconciliation events exist in the table but the coordinator never sends them. */
  predicate Recovers(e: TransitionEvent) {
    || e.StartRollback? || e.StartCompensation? || e.RecoveryUnavailable?
    || e.RollbackVerified? || e.RollbackFailedOrUnknown?
    || e.CompensationVerified? || e.CompensationFailedOrUnknown?
    || e.ReconciliationStarted? || e.ReconciliationCommitted? || e.ReconciliationNoEffect?
    || e.ReconciliationPartialOrInvalid? || e.ReconciliationUnknown?
  }

  /** The next transition is legal, and leads where its continuation can go on. */
  predicate SendOk(event: TransitionEvent, next: Next, h: Holdings) {
    var d := ApplyTransition(h.record.state, event, h.record.intended);
    && d.Success?
    && !Recovers(event)
    && NextOk(next, d.value.target)
    && Equipped(h, d.value.target)
    && (next == ThenDiscard ==> h.plan.Some?)
    && (next == ThenStage || next == ThenFinishAbort ==> h.effect.None?)
  }

  predicate PointOk(p: Point, h: Holdings) {
    var state := h.record.state;
    match p
    case AtAdmission => state == New && h.plan.None?
    case AtInspect => state == New && h.plan.None?
    case AtBind(plan) =>
      state == New && h.plan.None? && plan == M.EffectPlan(h.record.transactionId,
        h.proposal.intentHash, plan.baseVersion, h.proposal.values)
    case AtRest => true
    case AtReserve => state == New && h.plan.Some?
    case AtLink(_) => state == New && h.plan.Some? && h.record.supersedes.None?
    case AtSend(event, next) => SendOk(event, next, h)
    case AtStage => state == TransactionState.Staging && h.effect.None?
    case AtExecute => state == TransactionState.Staging && h.effect.Some? && h.staged.None?
    case AtVerifyStaged => state == Staged
    case AtReinspect => state == ReadyToCommit
    case AtCommit => state == Committing
    case AtReceipt(_) => state == Committing
    case AtVerifyCommitted => state == Committing
    case AtDiscard => state == Aborting && h.plan.Some?
  }

  predicate LocalOk(me: Session, id: string) {
    SteadyOk(Hold(me), id) && PointOk(me.point, Hold(me))
  }

  // ----- local decisions keep it ------------------------------------------------------------

  lemma RefuseIsLegal(h: Holdings, id: string, e: Exception)
    requires SteadyOk(h, id) && h.record.state == New && h.plan.None?
    ensures PointOk(Refuse(e), h)
  {
  }

  lemma OpenIsLegal(me: Session, id: string, op: Operation, env: Env)
    requires LocalOk(me, id) && me.point == AtRest && me.plan.Some?
    ensures PointOk(Open(me, op, env), Hold(me))
  {
  }

  /** The points `Converse` answers. */
  predicate Conversing(p: Point) {
    || p.AtStage? || p.AtExecute? || p.AtVerifyStaged? || p.AtReinspect?
    || p.AtVerifyCommitted? || p.AtDiscard?
  }

  lemma AbortIsLegal(h: Holdings, id: string, e: Exception, otherwise: TransitionEvent)
    requires SteadyOk(h, id)
    requires (h.record.state == TransactionState.Staging && otherwise == StagingFailed)
             || (h.record.state == Staged && otherwise == StagedVerificationFailed)
    ensures PointOk(AtSend(EventFor(e, otherwise), ThenDiscard), h)
    ensures PointOk(AtSend(otherwise, ThenDiscard), h)
  {
  }

  lemma StageKeepsLocal(me: Session, id: string, mock: M.Adapter, env: Env)
    requires LocalOk(me, id) && me.point.AtStage?
    ensures me.plan.Some?
    ensures LocalOk(Converse(me, me.plan.value, mock, env).0, id)
  {
    if env.fault.Some? {
      AbortIsLegal(Hold(me), id, env.fault.value, StagingFailed);
      hide SendOk;
    }
  }

  lemma ExecuteKeepsLocal(me: Session, id: string, mock: M.Adapter, env: Env)
    requires LocalOk(me, id) && me.point.AtExecute?
    ensures me.plan.Some?
    ensures LocalOk(Converse(me, me.plan.value, mock, env).0, id)
  {
    if env.fault.Some? {
      AbortIsLegal(Hold(me), id, env.fault.value, StagingFailed);
      hide SendOk;
    }
  }

  lemma VerifyStagedIsLegal(me: Session, id: string, mock: M.Adapter, env: Env)
    requires LocalOk(me, id) && me.point.AtVerifyStaged?
    ensures me.plan.Some?
    ensures var me' := Converse(me, me.plan.value, mock, env).0;
            Hold(me') == Hold(me) && PointOk(me'.point, Hold(me))
  {
    if env.fault.Some? || env.status != Pass {
      AbortIsLegal(Hold(me), id, if env.fault.Some? then env.fault.value else OtherError,
                   StagedVerificationFailed);
      hide SendOk;
    }
  }

  lemma ReadySends(h: Holdings, id: string)
    requires SteadyOk(h, id) && h.record.state == ReadyToCommit
    ensures SendOk(TargetVersionChanged, ThenDiscard, h)
    ensures SendOk(CommitGuardsPassed, ThenCommit, h)
  {
  }

  lemma ReadyGuardSends(h: Holdings, id: string, g: Guard)
    requires SteadyOk(h, id) && h.record.state == ReadyToCommit
    ensures SendOk(GuardEvent(g), ThenDiscard, h)
  {
  }

  lemma CommittingSends(h: Holdings, id: string)
    requires SteadyOk(h, id) && h.record.state == Committing
    ensures SendOk(CommitVerified, ThenRest, h)
    ensures SendOk(CommitPartialOrInvalid, ThenRest, h)
  {
  }

  lemma CommitFaultSends(h: Holdings, id: string)
    requires SteadyOk(h, id) && h.record.state == Committing
    ensures SendOk(CommitOutcomeUnknown, ThenRest, h)
    ensures SendOk(CommitFailedNoEffect, ThenDiscard, h)
  {
  }

  lemma AbortingSends(h: Holdings, id: string)
    requires SteadyOk(h, id) && h.record.state == Aborting
    ensures SendOk(StagingDiscardSucceeded, ThenRest, h)
    ensures SendOk(StagingDiscardFailed, ThenRest, h)
  {
  }

  lemma ReinspectOutcome(me: Session, plan: M.EffectPlan, mock: M.Adapter, env: Env)
    requires me.point.AtReinspect?
    ensures var me' := Converse(me, plan, mock, env).0;
            || me' == me.(point := AtRest)
            || me' == me.(point := AtSend(TargetVersionChanged, ThenDiscard))
            || me' == me.(point := AtSend(GuardEvent(env.guard), ThenDiscard))
            || me' == me.(point := AtSend(CommitGuardsPassed, ThenCommit))
  {
    hide M.Inspect, GuardEvent;
  }

  lemma ReinspectIsLegal(me: Session, id: string, mock: M.Adapter, env: Env)
    requires LocalOk(me, id) && me.point.AtReinspect?
    ensures me.plan.Some?
    ensures var me' := Converse(me, me.plan.value, mock, env).0;
            Hold(me') == Hold(me) && PointOk(me'.point, Hold(me))
  {
    ReadySends(Hold(me), id);
    ReadyGuardSends(Hold(me), id, env.guard);
    hide SendOk, GuardEvent, Converse;
    ReinspectOutcome(me, me.plan.value, mock, env);
  }

  lemma VerifyCommittedIsLegal(me: Session, id: string, mock: M.Adapter, env: Env)
    requires LocalOk(me, id) && me.point.AtVerifyCommitted?
    ensures me.plan.Some?
    ensures var me' := Converse(me, me.plan.value, mock, env).0;
            Hold(me') == Hold(me) && PointOk(me'.point, Hold(me))
  {
    CommittingSends(Hold(me), id);
    hide SendOk;
  }

  lemma DiscardIsLegal(me: Session, id: string, mock: M.Adapter, env: Env)
    requires LocalOk(me, id) && me.point.AtDiscard?
    ensures me.plan.Some?
    ensures var me' := Converse(me, me.plan.value, mock, env).0;
            Hold(me') == Hold(me) && PointOk(me'.point, Hold(me))
  {
    AbortingSends(Hold(me), id);
    hide SendOk;
  }

  lemma ConverseKeepsLocal(me: Session, id: string, mock: M.Adapter, env: Env)
    requires LocalOk(me, id) && me.plan.Some? && Conversing(me.point)
    ensures LocalOk(Converse(me, me.plan.value, mock, env).0, id)
  {
    hide Converse, SteadyOk, PointOk;
    match me.point {
      case AtStage => StageKeepsLocal(me, id, mock, env);
      case AtExecute => ExecuteKeepsLocal(me, id, mock, env);
      case AtVerifyStaged => VerifyStagedIsLegal(me, id, mock, env);
      case AtReinspect => ReinspectIsLegal(me, id, mock, env);
      case AtVerifyCommitted => VerifyCommittedIsLegal(me, id, mock, env);
      case _ => DiscardIsLegal(me, id, mock, env);
    }
  }

  lemma AbortingIsIntended(s: TransactionState, e: TransitionEvent, o: Option<IntendedOutcome>)
    requires ApplyTransition(s, e, o).Success?
    ensures ApplyTransition(s, e, o).value.target == Aborting ==>
              ApplyTransition(s, e, o).value.intended.Some?
  {
    hide RuleFor;
  }

  lemma NewHasNoPredecessor(s: TransactionState, e: TransitionEvent, o: Option<IntendedOutcome>)
    requires ApplyTransition(s, e, o).Success?
    ensures ApplyTransition(s, e, o).value.target != New
  {
  }

  /** The holdings after a decided transition. */
  function Moved(h: Holdings, d: TransitionDecision, now: int, event: TransitionEvent,
                 reason: Option<string>): Holdings
  {
    h.(record := Journal.Advance(h.record, d, now, event, reason))
  }

  lemma ResumeIsLegal(h: Holdings, id: string, next: Next)
    requires SteadyOk(h, id) && NextOk(next, h.record.state)
    requires next == ThenDiscard ==> h.plan.Some?
    requires next == ThenStage ==> h.effect.None?
    ensures PointOk(Resume(next), h)
  {
  }

  /** A decided transition lands where its continuation expects it. */
  lemma SentKeepsLocal(h: Holdings, id: string, event: TransitionEvent, next: Next,
                       now: int, reason: Option<string>)
    requires SteadyOk(h, id) && SendOk(event, next, h)
    ensures var d := ApplyTransition(h.record.state, event, h.record.intended).value;
            && SteadyOk(Moved(h, d, now, event, reason), id)
            && PointOk(Resume(next), Moved(h, d, now, event, reason))
  {
    var d := ApplyTransition(h.record.state, event, h.record.intended).value;
    AbortingIsIntended(h.record.state, event, h.record.intended);
    NewHasNoPredecessor(h.record.state, event, h.record.intended);
    hide ApplyTransition;
    assert SteadyOk(Moved(h, d, now, event, reason), id);
    ResumeIsLegal(Moved(h, d, now, event, reason), id, next);
    hide PointOk;
  }

  lemma BindKeepsLocal(h: Holdings, id: string, plan: M.EffectPlan)
    requires SteadyOk(h, id) && PointOk(AtBind(plan), h)
    ensures SteadyOk(h.(plan := Some(plan),
                        record := h.record.(intentHash := Some(plan.intentHash))), id)
    ensures PointOk(AtSend(ValidationFailed, ThenRest), h)
  {
  }

  lemma ReserveIsLegal(h: Holdings, id: string)
    requires SteadyOk(h, id) && PointOk(AtReserve, h)
    ensures PointOk(AtSend(ValidationFailed, ThenRest), h)
    ensures PointOk(AtSend(ProposalValid, ThenAuthorize), h)
  {
  }

  lemma LinkKeepsLocal(h: Holdings, id: string, previous: string)
    requires SteadyOk(h, id) && PointOk(AtLink(previous), h)
    ensures var h' := h.(record := h.record.(supersedes := Some(previous)));
            SteadyOk(h', id) && PointOk(AtSend(ProposalValid, ThenAuthorize), h')
  {
  }

  lemma CommitFaultIsLegal(h: Holdings, id: string, e: Exception)
    requires SteadyOk(h, id) && h.record.state == Committing
    ensures PointOk(CommitFault(e), h)
    ensures PointOk(AtSend(CommitOutcomeUnknown, ThenRest), h)
  {
    CommitFaultSends(h, id);
    hide SendOk;
  }
}
