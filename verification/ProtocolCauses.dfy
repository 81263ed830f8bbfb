/** Why a session sends an event: what it met in the step that decided on it. */
module ProtocolCauses {
  import opened Wrappers
  import opened StateMachine
  import opened Ledger
  import opened Domain
  import opened Journal
  import opened Protocol
  import opened ProtocolLocal
  import opened ProtocolSync
  import opened ProtocolOwners
  import opened ProtocolEffects
  import opened ProtocolSerial
  import opened ProtocolClosing
  import opened ProtocolSteps
  import opened ProtocolMoves

  // ----- what a step meets ---------------------------------------------------------------------

  /** The session takes its next action in this step. */
  predicate Acting(s: System, a: Action, id: string) {
    a.Advance? && a.id == id && id in s.sessions
  }

  /** An operation of the session starts in this step. */
  predicate Starting(s: System, a: Action, id: string, op: Operation) {
    && a.Start? && a.id == id && a.op == op && id in s.sessions
    && s.sessions[id].point.AtRest? && s.sessions[id].plan.Some?
  }

  /** The guards find this when `commit` starts. */
  predicate CommitGuarded(s: System, a: Action, id: string, g: Guard) {
    && Starting(s, a, id, CommittingOp) && a.env.guard == g
    && s.sessions[id].record.state.ReadyToCommit? && s.sessions[id].staged.Some?
  }

  /** The session takes its action at a point of this kind. */
  predicate FillingStage(s: System, a: Action, id: string) {
    Acting(s, a, id) && (s.sessions[id].point.AtStage? || s.sessions[id].point.AtExecute?)
  }

  predicate CheckingStage(s: System, a: Action, id: string) {
    Acting(s, a, id) && s.sessions[id].point.AtVerifyStaged?
  }

  predicate CallingCommit(s: System, a: Action, id: string) {
    Acting(s, a, id) && s.sessions[id].point.AtCommit?
  }

  predicate CheckingCommit(s: System, a: Action, id: string) {
    Acting(s, a, id) && s.sessions[id].point.AtVerifyCommitted?
  }

  /** `adapter.verify_staged` reports PASS. */
  predicate StagePassed(s: System, a: Action, id: string) {
    CheckingStage(s, a, id) && a.env.fault.None? && a.env.status.Pass?
  }

  /** `adapter.verify_committed` reports PASS. */
  predicate CommitPassed(s: System, a: Action, id: string) {
    CheckingCommit(s, a, id) && a.env.fault.None? && a.env.status.Pass?
  }

  /** It raises, or reports anything else. */
  predicate CommitNotPassed(s: System, a: Action, id: string) {
    CheckingCommit(s, a, id) && (a.env.fault.Some? || !a.env.status.Pass?)
  }

  /** The second `inspect` returns, and finds the target moved or not. */
  predicate Reinspected(s: System, a: Action, id: string, moved: bool) {
    && Acting(s, a, id) && s.sessions[id].point.AtReinspect? && a.env.fault.None?
    && s.sessions[id].plan.Some?
    && (moved <==> s.sessions[id].plan.value.baseVersion != Counter(s.mock.version))
  }

  /** `adapter.commit` raises STALE_STATE: of itself, or because the target is not at the planned
      version any more. */
  predicate CommitRefused(s: System, a: Action, id: string) {
    && CallingCommit(s, a, id)
    && if a.env.fault.Some? && !a.env.late then a.env.fault.value == KernelError(StaleTarget)
       else s.sessions[id].plan.Some? && s.sessions[id].plan.value.baseVersion != Counter(s.mock.version)
  }

  /** `adapter.commit` raises anything else, or loses its acknowledgement. */
  predicate CommitUnheard(s: System, a: Action, id: string) {
    CallingCommit(s, a, id) && a.env.fault.Some? && !CommitRefused(s, a, id)
  }

  /** The journal does not take the receipt. */
  predicate ReceiptLost(s: System, a: Action, id: string) {
    && Acting(s, a, id) && s.sessions[id].point.AtReceipt?
    && (!a.env.storageUp || s.sessions[id].point.receipt.receiptId in s.tables.receipts)
  }

  /** What there is to discard at the discard. */
  predicate Discarding(s: System, a: Action, id: string, held: bool) {
    && Acting(s, a, id) && s.sessions[id].point.AtDiscard?
    && (held <==> s.sessions[id].staged.Some? || s.sessions[id].effect.Some?)
  }

  /** Nothing is held, or `adapter.abort` reports PASS. */
  predicate Discarded(s: System, a: Action, id: string) {
    || (Discarding(s, a, id, false) && !s.sessions[id].cleanupFailed)
    || (Discarding(s, a, id, true) && !s.sessions[id].cleanupFailed && a.env.fault.None? && a.env.status.Pass?)
  }

  /** Staging could not clean up after itself, or `adapter.abort` reports anything else. */
  predicate NotDiscarded(s: System, a: Action, id: string) {
    || (Acting(s, a, id) && s.sessions[id].point.AtDiscard? && s.sessions[id].cleanupFailed)
    || (Discarding(s, a, id, true) && a.env.fault.None? && !a.env.status.Pass?)
  }

  /** Before the session is handed out: the action raises this. */
  predicate AdmissionRaises(s: System, a: Action, id: string, cancelled: bool) {
    && Acting(s, a, id) && (s.sessions[id].point.AtAdmission? || s.sessions[id].point.AtInspect?)
    && a.env.fault.Some? && (cancelled <==> a.env.fault.value.CancelledError?)
  }

  /** The intent, when the session asks for it: nobody holds it, or the session, or an attempt that
      ended without effect, or anybody else. */
  datatype Finding = Free | Own | Ended | Foreign

  function Found(t: Tables, intent: string, id: string): Finding {
    if intent !in t.intents then Free
    else if t.intents[intent] == id then Own
    else if t.intents[intent] in t.transactions && EndedIdle(t.transactions[t.intents[intent]].state)
            && (forall r | r in t.receipts :: t.receipts[r].transactionId != t.intents[intent]) then Ended
    else Foreign
  }

  predicate EndedIdle(s: TransactionState) {
    s.Rejected? || s.Aborted? || s.StaleState?
  }

  predicate Reserves(s: System, a: Action, id: string, found: Finding) {
    && Acting(s, a, id) && s.sessions[id].point.AtReserve? && s.sessions[id].plan.Some? && a.env.storageUp
    && found == Found(s.tables, s.sessions[id].plan.value.intentHash, id)
  }

  /** The journal takes the event that the session has been about to send. */
  predicate Stores(hash: EventHash, s: System, a: Action, id: string, event: TransitionEvent, next: Next) {
    && Acting(s, a, id) && s.sessions[id].point.AtSend?
    && s.sessions[id].point.event == event && s.sessions[id].point.next == next
    && Step(hash, s, a).tables.events != s.tables.events
  }

  /** The journal takes the abort of a session that never planned anything. */
  predicate AbandonsNothing(hash: EventHash, s: System, a: Action, id: string) {
    && Acting(s, a, id) && s.sessions[id].point.AtSend? && s.sessions[id].point.next.ThenFinishAbort?
    && Step(hash, s, a).tables.events != s.tables.events
  }

  /** While staging or verifying the stage: the action raises this. */
  predicate Raises(s: System, a: Action, id: string, cause: Option<Exception>) {
    && (FillingStage(s, a, id) || CheckingStage(s, a, id))
    && a.env.fault.Some?
    && match cause
       case Some(e) => a.env.fault.value == e
       case None => !a.env.fault.value.CancelledError? && a.env.fault.value != KernelError(DeadlineExceeded)
  }

  /** The step calls for the event. */
  predicate Calls(hash: EventHash, s: System, a: Action, id: string, event: TransitionEvent) {
    match event
    case ValidationFailed =>
      || AdmissionRaises(s, a, id, false)
      || (Acting(s, a, id) && s.sessions[id].point.AtBind? && !a.env.storageUp)
      || (Starting(s, a, id, Entering) && s.sessions[id].record.state.New? && !a.env.guard.GuardsPass?)
      || (Starting(s, a, id, EnforcingDeadline) && s.sessions[id].record.state.New?
          && a.env.guard.DeadlineElapsed?)
      || Reserves(s, a, id, Foreign)
    case ProposalValid =>
      || Reserves(s, a, id, Free) || Reserves(s, a, id, Own)
      || (Acting(s, a, id) && s.sessions[id].point.AtLink? && a.env.storageUp)
    case AuthorizedForStaging => Stores(hash, s, a, id, ProposalValid, ThenAuthorize)
    case WorkerLeaseAcquired => Stores(hash, s, a, id, AuthorizedForStaging, ThenLease)
    case StagingSucceeded => Acting(s, a, id) && s.sessions[id].point.AtExecute? && a.env.fault.None?
    case StagingFailed => FillingStage(s, a, id) && Raises(s, a, id, None)
    case StagedVerificationPassed => StagePassed(s, a, id)
    case StagedVerificationFailed =>
      CheckingStage(s, a, id) && if a.env.fault.None? then !a.env.status.Pass? else Raises(s, a, id, None)
    case NoApprovalRequired => Stores(hash, s, a, id, StagedVerificationPassed, ThenNoApproval)
    case TargetVersionChanged => Reinspected(s, a, id, true)
    case CommitRevalidationFailed =>
      || CommitGuarded(s, a, id, ManifestChanged)
      || (Reinspected(s, a, id, false) && a.env.guard.ManifestChanged?)
    case CommitGuardsPassed => Reinspected(s, a, id, false) && a.env.guard.GuardsPass?
    case CommitVerified => CommitPassed(s, a, id)
    case CommitPartialOrInvalid => CommitNotPassed(s, a, id)
    case CommitFailedNoEffect => CommitRefused(s, a, id)
    case CommitOutcomeUnknown => CommitUnheard(s, a, id) || ReceiptLost(s, a, id)
    case Cancelled =>
      || AdmissionRaises(s, a, id, true)
      || (Starting(s, a, id, Cancelling) && PreCommit(s.sessions[id].record.state))
      || Raises(s, a, id, Some(CancelledError))
    case DeadlinePassed =>
      || (Starting(s, a, id, EnforcingDeadline) && InPreparation(s.sessions[id].record.state)
          && a.env.guard.DeadlineElapsed?)
      || CommitGuarded(s, a, id, DeadlineElapsed)
      || (Reinspected(s, a, id, false) && a.env.guard.DeadlineElapsed?)
      || Raises(s, a, id, Some(KernelError(DeadlineExceeded)))
    case ContextExited => Starting(s, a, id, Exiting) && PreCommit(s.sessions[id].record.state)
    case StagingDiscardSucceeded => Discarded(s, a, id) || AbandonsNothing(hash, s, a, id)
    case StagingDiscardFailed => NotDiscarded(s, a, id)
    case _ => false
  }

  /** The session is about to send the event. */
  predicate Pending(s: System, id: string, event: TransitionEvent) {
    id in s.sessions && s.sessions[id].point.AtSend? && s.sessions[id].point.event == event
  }

  /** The step puts the event before the session. */
  predicate Sets(hash: EventHash, s: System, a: Action, id: string, event: TransitionEvent) {
    && Pending(Step(hash, s, a), id, event)
    && (id in s.sessions ==> Step(hash, s, a).sessions[id].point != s.sessions[id].point)
  }

  // ----- one step --------------------------------------------------------------------------------

  predicate Puts(p: Point, event: TransitionEvent) {
    p.AtSend? && p.event == event
  }

  lemma SetsMeans(hash: EventHash, s: System, a: Action, id: string, event: TransitionEvent, p: Point)
    requires id in s.sessions && id in Step(hash, s, a).sessions && p == Step(hash, s, a).sessions[id].point
    requires p != s.sessions[id].point
    ensures Sets(hash, s, a, id, event) <==> Puts(p, event)
  {
    hide Step;
  }

  /** A step of the session moves it to `p`; the log and its state change only where it sends. */
  ghost predicate Leads(hash: EventHash, s: System, id: string, env: Env, p: Point) {
    var s' := Step(hash, s, Action.Advance(id, env));
    && id in s.sessions && id in s'.sessions && p == s'.sessions[id].point && p != s.sessions[id].point
    && (s'.sessions[id].storage.AllWorked? ==> s.sessions[id].storage.AllWorked?)
    && (!s.sessions[id].point.AtSend? ==>
          s'.tables.events == s.tables.events && s'.sessions[id].record.state == s.sessions[id].record.state)
  }

  lemma StartCalls(hash: EventHash, s: System, id: string, op: Operation, env: Env, event: TransitionEvent)
    requires id in s.sessions && LocalOk(s.sessions[id], id)
    ensures var a := Action.Start(id, op, env);
            Calls(hash, s, a, id, event) <==> Sets(hash, s, a, id, event)
  {
    hide SteadyOk, Found;
    OpenCalls(hash, s, id, op, env, event);
    OpenLeads(hash, s, id, op, env);
    hide Calls, Open, LocalOk, Sets, Step;
    var a := Action.Start(id, op, env);
    var me := s.sessions[id];
    if me.point.AtRest? && me.plan.Some? && op != Opening && Open(me, op, env) != AtRest {
      SetsMeans(hash, s, a, id, event, Open(me, op, env));
    } else {
      StaysUnset(hash, s, a, id, event);
    }
  }

  lemma StaysUnset(hash: EventHash, s: System, a: Action, id: string, event: TransitionEvent)
    requires id in s.sessions && id in Step(hash, s, a).sessions
    requires Step(hash, s, a).sessions[id].point == s.sessions[id].point
    ensures !Sets(hash, s, a, id, event)
  {
    hide Step;
  }

  lemma OpenLeads(hash: EventHash, s: System, id: string, op: Operation, env: Env)
    requires id in s.sessions
    ensures var me, s' := s.sessions[id], Step(hash, s, Action.Start(id, op, env));
            && id in s'.sessions
            && s'.sessions[id].point ==
               if me.point.AtRest? && me.plan.Some? && op != Opening then Open(me, op, env) else me.point
  {
    hide Open;
  }

  lemma OpenCalls(hash: EventHash, s: System, id: string, op: Operation, env: Env, event: TransitionEvent)
    requires id in s.sessions && LocalOk(s.sessions[id], id)
    ensures var me := s.sessions[id];
            Calls(hash, s, Action.Start(id, op, env), id, event) <==>
            me.point.AtRest? && me.plan.Some? && op != Opening && Puts(Open(me, op, env), event)
  {
    hide LocalOk, Calls, Open, Puts;
    if op.Entering? || op.CommittingOp? {
      EnteringCalls(hash, s, id, op, env, event);
    } else if op.EnforcingDeadline? {
      DeadlineCalls(hash, s, id, op, env, event);
    } else {
      AbortingCalls(hash, s, id, op, env, event);
    }
  }

  lemma DeadlineCalls(hash: EventHash, s: System, id: string, op: Operation, env: Env, event: TransitionEvent)
    requires id in s.sessions && op.EnforcingDeadline?
    ensures var me := s.sessions[id];
            Calls(hash, s, Action.Start(id, op, env), id, event) <==>
            me.point.AtRest? && me.plan.Some? && op != Opening && Puts(Open(me, op, env), event)
  {
    hide Found, Step;
  }

  lemma EnteringCalls(hash: EventHash, s: System, id: string, op: Operation, env: Env, event: TransitionEvent)
    requires id in s.sessions && LocalOk(s.sessions[id], id) && (op.Entering? || op.CommittingOp?)
    ensures var me := s.sessions[id];
            Calls(hash, s, Action.Start(id, op, env), id, event) <==>
            me.point.AtRest? && me.plan.Some? && op != Opening && Puts(Open(me, op, env), event)
  {
    hide SteadyOk, Found, Step;
  }

  lemma AbortingCalls(hash: EventHash, s: System, id: string, op: Operation, env: Env, event: TransitionEvent)
    requires id in s.sessions && !op.Entering? && !op.CommittingOp? && !op.EnforcingDeadline?
    ensures var me := s.sessions[id];
            Calls(hash, s, Action.Start(id, op, env), id, event) <==>
            me.point.AtRest? && me.plan.Some? && op != Opening && Puts(Open(me, op, env), event)
  {
    hide Found, Step;
  }

  lemma StagingLeads(hash: EventHash, s: System, id: string, env: Env) returns (p: Point)
    requires id in s.sessions && s.sessions[id].plan.Some?
    requires s.sessions[id].point.AtStage? || s.sessions[id].point.AtExecute?
    requires s.sessions[id].point.AtExecute? ==> s.sessions[id].effect.Some?
    ensures Leads(hash, s, id, env, p)
    ensures if env.fault.Some? then p == AtSend(EventFor(env.fault.value, StagingFailed), ThenDiscard)
            else if s.sessions[id].point.AtStage? then p == AtExecute
            else p == AtSend(StagingSucceeded, ThenVerifyStaged)
  {
    ConverseStep(hash, s, id, env);
    hide Step, M.Stage, M.Execute, M.Abort, M.Inspect, EventFor;
    p := Step(hash, s, Action.Advance(id, env)).sessions[id].point;
  }

  lemma StagingCalls(hash: EventHash, s: System, id: string, env: Env, event: TransitionEvent, p: Point)
    requires id in s.sessions && s.sessions[id].plan.Some?
    requires s.sessions[id].point.AtStage? || s.sessions[id].point.AtExecute?
    requires if env.fault.Some? then p == AtSend(EventFor(env.fault.value, StagingFailed), ThenDiscard)
            else if s.sessions[id].point.AtStage? then p == AtExecute
            else p == AtSend(StagingSucceeded, ThenVerifyStaged)
    ensures Calls(hash, s, Action.Advance(id, env), id, event) <==> Puts(p, event)
  {
    hide Step;
  }

  lemma StageCheckLeads(hash: EventHash, s: System, id: string, env: Env) returns (p: Point)
    requires id in s.sessions && s.sessions[id].plan.Some? && s.sessions[id].point.AtVerifyStaged?
    ensures Leads(hash, s, id, env, p)
    ensures if env.fault.Some? then p == AtSend(EventFor(env.fault.value, StagedVerificationFailed), ThenDiscard)
            else if !env.status.Pass? then p == AtSend(StagedVerificationFailed, ThenDiscard)
            else p == AtSend(StagedVerificationPassed, ThenNoApproval)
  {
    ConverseStep(hash, s, id, env);
    hide Step, M.Stage, M.Execute, M.Abort, M.Inspect, EventFor;
    p := Step(hash, s, Action.Advance(id, env)).sessions[id].point;
  }

  lemma StageCheckCalls(hash: EventHash, s: System, id: string, env: Env, event: TransitionEvent, p: Point)
    requires id in s.sessions && s.sessions[id].plan.Some? && s.sessions[id].point.AtVerifyStaged?
    requires if env.fault.Some? then p == AtSend(EventFor(env.fault.value, StagedVerificationFailed), ThenDiscard)
            else if !env.status.Pass? then p == AtSend(StagedVerificationFailed, ThenDiscard)
            else p == AtSend(StagedVerificationPassed, ThenNoApproval)
    ensures Calls(hash, s, Action.Advance(id, env), id, event) <==> Puts(p, event)
  {
    hide Step;
  }

  lemma ReinspectLeads(hash: EventHash, s: System, id: string, env: Env) returns (p: Point)
    requires id in s.sessions && s.sessions[id].plan.Some? && s.sessions[id].point.AtReinspect?
    ensures Leads(hash, s, id, env, p)
    ensures if env.fault.Some? then p == AtRest
            else if s.sessions[id].plan.value.baseVersion != Counter(s.mock.version) then
              p == AtSend(TargetVersionChanged, ThenDiscard)
            else if !env.guard.GuardsPass? then p == AtSend(GuardEvent(env.guard), ThenDiscard)
            else p == AtSend(CommitGuardsPassed, ThenCommit)
  {
    ConverseStep(hash, s, id, env);
    hide Step, M.Stage, M.Execute, M.Abort, GuardEvent;
    p := Step(hash, s, Action.Advance(id, env)).sessions[id].point;
  }

  lemma ReinspectCalls(hash: EventHash, s: System, id: string, env: Env, event: TransitionEvent, p: Point)
    requires id in s.sessions && s.sessions[id].plan.Some? && s.sessions[id].point.AtReinspect?
    requires if env.fault.Some? then p == AtRest
            else if s.sessions[id].plan.value.baseVersion != Counter(s.mock.version) then
              p == AtSend(TargetVersionChanged, ThenDiscard)
            else if !env.guard.GuardsPass? then p == AtSend(GuardEvent(env.guard), ThenDiscard)
            else p == AtSend(CommitGuardsPassed, ThenCommit)
    ensures Calls(hash, s, Action.Advance(id, env), id, event) <==> Puts(p, event)
  {
    hide Step;
  }

  lemma CommitCheckLeads(hash: EventHash, s: System, id: string, env: Env) returns (p: Point)
    requires id in s.sessions && s.sessions[id].plan.Some? && s.sessions[id].point.AtVerifyCommitted?
    ensures Leads(hash, s, id, env, p)
    ensures p == if env.fault.None? && env.status.Pass? then AtSend(CommitVerified, ThenRest)
                 else AtSend(CommitPartialOrInvalid, ThenRest)
  {
    ConverseStep(hash, s, id, env);
    hide Step, M.Stage, M.Execute, M.Abort, M.Inspect;
    p := Step(hash, s, Action.Advance(id, env)).sessions[id].point;
  }

  lemma CommitCheckCalls(hash: EventHash, s: System, id: string, env: Env, event: TransitionEvent, p: Point)
    requires id in s.sessions && s.sessions[id].plan.Some? && s.sessions[id].point.AtVerifyCommitted?
    requires p == if env.fault.None? && env.status.Pass? then AtSend(CommitVerified, ThenRest)
                 else AtSend(CommitPartialOrInvalid, ThenRest)
    ensures Calls(hash, s, Action.Advance(id, env), id, event) <==> Puts(p, event)
  {
    hide Step;
  }

  lemma DiscardLeads(hash: EventHash, s: System, id: string, env: Env) returns (p: Point)
    requires id in s.sessions && s.sessions[id].plan.Some? && s.sessions[id].point.AtDiscard?
    ensures Leads(hash, s, id, env, p)
    ensures var held := s.sessions[id].staged.Some? || s.sessions[id].effect.Some?;
            if s.sessions[id].cleanupFailed then p == AtSend(StagingDiscardFailed, ThenRest)
            else if !held then p == AtSend(StagingDiscardSucceeded, ThenRest)
            else if env.fault.Some? then p == AtRest
            else if !env.status.Pass? then p == AtSend(StagingDiscardFailed, ThenRest)
            else p == AtSend(StagingDiscardSucceeded, ThenRest)
  {
    ConverseStep(hash, s, id, env);
    hide Step, M.Stage, M.Execute, M.Abort, M.Inspect;
    p := Step(hash, s, Action.Advance(id, env)).sessions[id].point;
  }

  lemma DiscardCalls(hash: EventHash, s: System, id: string, env: Env, event: TransitionEvent, p: Point)
    requires id in s.sessions && s.sessions[id].plan.Some? && s.sessions[id].point.AtDiscard?
    requires var held := s.sessions[id].staged.Some? || s.sessions[id].effect.Some?;
            if s.sessions[id].cleanupFailed then p == AtSend(StagingDiscardFailed, ThenRest)
            else if !held then p == AtSend(StagingDiscardSucceeded, ThenRest)
            else if env.fault.Some? then p == AtRest
            else if !env.status.Pass? then p == AtSend(StagingDiscardFailed, ThenRest)
            else p == AtSend(StagingDiscardSucceeded, ThenRest)
    ensures Calls(hash, s, Action.Advance(id, env), id, event) <==> Puts(p, event)
  {
    hide Step;
  }

  lemma CommitLeads(hash: EventHash, s: System, id: string, env: Env) returns (p: Point)
    requires id in s.sessions && s.sessions[id].plan.Some? && s.sessions[id].point.AtCommit?
    requires s.sessions[id].staged.Some? && s.sessions[id].staged.value.staged.plan == s.sessions[id].plan.value
    requires s.sessions[id].plan.value.intentHash !in s.mock.receipts
    requires Lawful(Action.Advance(id, env))
    ensures Leads(hash, s, id, env, p)
    ensures var moved := s.sessions[id].plan.value.baseVersion != Counter(s.mock.version);
            if env.fault.Some? && !env.late then p == CommitFault(env.fault.value)
            else if moved then p == CommitFault(KernelError(StaleTarget))
            else if env.fault.Some? then p == AtSend(CommitOutcomeUnknown, ThenRest)
            else p.AtReceipt?
  {
    CommitStep(hash, s, id, env);
    hide Step;
    p := Step(hash, s, Action.Advance(id, env)).sessions[id].point;
  }

  lemma CommitCalls(hash: EventHash, s: System, id: string, env: Env, event: TransitionEvent, p: Point)
    requires id in s.sessions && s.sessions[id].plan.Some? && s.sessions[id].point.AtCommit?
    requires var moved := s.sessions[id].plan.value.baseVersion != Counter(s.mock.version);
            if env.fault.Some? && !env.late then p == CommitFault(env.fault.value)
            else if moved then p == CommitFault(KernelError(StaleTarget))
            else if env.fault.Some? then p == AtSend(CommitOutcomeUnknown, ThenRest)
            else p.AtReceipt?
    ensures Calls(hash, s, Action.Advance(id, env), id, event) <==> Puts(p, event)
  {
    hide Step;
  }

  lemma ReceiptLeads(hash: EventHash, s: System, id: string, env: Env) returns (p: Point)
    requires id in s.sessions && s.sessions[id].point.AtReceipt?
    requires s.sessions[id].point.receipt.transactionId in s.tables.transactions
    ensures Leads(hash, s, id, env, p)
    ensures var refused := !env.storageUp || s.sessions[id].point.receipt.receiptId in s.tables.receipts;
            p == if refused then AtSend(CommitOutcomeUnknown, ThenRest) else AtVerifyCommitted
  {
    ReceiptStep(hash, s, id, s.sessions[id].point.receipt, env);
    hide Step;
    p := Step(hash, s, Action.Advance(id, env)).sessions[id].point;
  }

  lemma ReceiptCalls(hash: EventHash, s: System, id: string, env: Env, event: TransitionEvent, p: Point)
    requires id in s.sessions && s.sessions[id].point.AtReceipt?
    requires var refused := !env.storageUp || s.sessions[id].point.receipt.receiptId in s.tables.receipts;
            p == if refused then AtSend(CommitOutcomeUnknown, ThenRest) else AtVerifyCommitted
    ensures Calls(hash, s, Action.Advance(id, env), id, event) <==> Puts(p, event)
  {
    hide Step;
  }

  lemma OpeningLeads(hash: EventHash, s: System, id: string, env: Env) returns (p: Point)
    requires id in s.sessions && (s.sessions[id].point.AtAdmission? || s.sessions[id].point.AtInspect?)
    ensures Leads(hash, s, id, env, p)
    ensures if env.fault.None? then p.AtInspect? || p.AtBind?
            else p == Refuse(env.fault.value)
  {
    if s.sessions[id].point.AtAdmission? {
      AdmissionStep(hash, s, id, env);
    } else {
      InspectStep(hash, s, id, env);
    }
    hide Step;
    p := Step(hash, s, Action.Advance(id, env)).sessions[id].point;
  }

  lemma OpeningCalls(hash: EventHash, s: System, id: string, env: Env, event: TransitionEvent, p: Point)
    requires id in s.sessions && (s.sessions[id].point.AtAdmission? || s.sessions[id].point.AtInspect?)
    requires if env.fault.None? then p.AtInspect? || p.AtBind?
            else p == Refuse(env.fault.value)
    ensures Calls(hash, s, Action.Advance(id, env), id, event) <==> Puts(p, event)
  {
    hide Step;
  }

  /** What a reservation finds decides what it gives. */
  lemma FoundDecides(t: Tables, intent: string, id: string)
    requires id in t.transactions
    ensures var r, found := ReserveIntent(t, intent, id).0, Found(t, intent, id);
            && r.Success?
            && (r.value.transactionId != id <==> found.Foreign?)
            && (r.value.previous.Some? <==> found.Ended?)
  {
  }

  lemma ReservingLeads(hash: EventHash, s: System, id: string, env: Env) returns (p: Point)
    requires id in s.sessions && s.sessions[id].plan.Some? && s.sessions[id].point.AtReserve?
    requires id in s.tables.transactions
    ensures Leads(hash, s, id, env, p)
    ensures var found := Found(s.tables, s.sessions[id].plan.value.intentHash, id);
            if !env.storageUp then p == AtRest
            else if found == Foreign then p == AtSend(ValidationFailed, ThenRest)
            else if found == Ended then p.AtLink?
            else p == AtSend(ProposalValid, ThenAuthorize)
  {
    ReserveStep(hash, s, id, env);
    FoundDecides(s.tables, s.sessions[id].plan.value.intentHash, id);
    hide Step, ReserveIntent, Found;
    p := Step(hash, s, Action.Advance(id, env)).sessions[id].point;
  }

  lemma ReservingCalls(hash: EventHash, s: System, id: string, env: Env, event: TransitionEvent, p: Point)
    requires id in s.sessions && s.sessions[id].plan.Some? && s.sessions[id].point.AtReserve?
    requires var found := Found(s.tables, s.sessions[id].plan.value.intentHash, id);
            if !env.storageUp then p == AtRest
            else if found == Foreign then p == AtSend(ValidationFailed, ThenRest)
            else if found == Ended then p.AtLink?
            else p == AtSend(ProposalValid, ThenAuthorize)
    ensures Calls(hash, s, Action.Advance(id, env), id, event) <==> Puts(p, event)
  {
    hide Step, SafeNoEffect, HasReceipt, Found;
  }

  lemma LinkingLeads(hash: EventHash, s: System, id: string, env: Env) returns (p: Point)
    requires id in s.sessions && LocalOk(s.sessions[id], id) && s.sessions[id].point.AtLink?
    requires id in s.tables.transactions && RowOk(s.tables.transactions[id], s.sessions[id], id)
    ensures Leads(hash, s, id, env, p)
    ensures p == if env.storageUp then AtSend(ProposalValid, ThenAuthorize) else AtRest
  {
    LinkStep(hash, s, id, s.sessions[id].point.previous, env);
    hide Step;
    p := Step(hash, s, Action.Advance(id, env)).sessions[id].point;
  }

  lemma LinkingCalls(hash: EventHash, s: System, id: string, env: Env, event: TransitionEvent, p: Point)
    requires id in s.sessions && s.sessions[id].point.AtLink?
    requires p == if env.storageUp then AtSend(ProposalValid, ThenAuthorize) else AtRest
    ensures Calls(hash, s, Action.Advance(id, env), id, event) <==> Puts(p, event)
  {
    hide Step;
  }

  lemma BindingLeads(hash: EventHash, s: System, id: string, env: Env) returns (p: Point)
    requires id in s.sessions && LocalOk(s.sessions[id], id) && s.sessions[id].point.AtBind?
    requires id in s.tables.transactions && RowOk(s.tables.transactions[id], s.sessions[id], id)
    ensures Leads(hash, s, id, env, p)
    ensures p == if env.storageUp then AtRest else AtSend(ValidationFailed, ThenRest)
  {
    BindStep(hash, s, id, s.sessions[id].point.plan, env);
    hide Step;
    p := Step(hash, s, Action.Advance(id, env)).sessions[id].point;
  }

  lemma BindingCalls(hash: EventHash, s: System, id: string, env: Env, event: TransitionEvent, p: Point)
    requires id in s.sessions && s.sessions[id].point.AtBind?
    requires p == if env.storageUp then AtRest else AtSend(ValidationFailed, ThenRest)
    ensures Calls(hash, s, Action.Advance(id, env), id, event) <==> Puts(p, event)
  {
    hide Step;
  }

  /** The journal takes what a session sends, with the event, or nothing of it. */
  lemma SendingStores(hash: EventHash, s: System, id: string, env: Env)
    requires id in s.sessions && s.sessions[id].point.AtSend?
    ensures var me, s' := s.sessions[id], Step(hash, s, Action.Advance(id, env));
            && id in s'.sessions
            && s'.sessions[id].plan == me.plan && s'.sessions[id].operation == me.operation
            && if s'.tables.events == s.tables.events then s'.sessions[id] == Stop(me)
               else
                 && s'.sessions[id].point == Resume(me.point.next)
                 && s'.sessions[id].storage == me.storage
                 && |s'.tables.events| == |s.tables.events| + 1
                 && s'.tables.events[..|s.tables.events|] == s.tables.events
                 && var m := s'.tables.events[|s.tables.events|].material;
                    && m.transactionId == Some(id) && m.eventType == TRANSITIONED
                    && m.payload.TransitionPayload? && m.payload.event == me.point.event
  {
    var me := s.sessions[id];
    SendStep(hash, s, id, me.point.event, me.point.next, env);
    hide Step, ApplyTransition, Insertable, NextEventPosition, Resume;
  }

  lemma SendingLeads(hash: EventHash, s: System, id: string, env: Env) returns (p: Point)
    requires id in s.sessions && s.sessions[id].point.AtSend? && LocalOk(s.sessions[id], id)
    ensures Leads(hash, s, id, env, p)
    ensures p == if Step(hash, s, Action.Advance(id, env)).tables.events == s.tables.events then AtRest
                 else Resume(s.sessions[id].point.next)
  {
    SendingStores(hash, s, id, env);
    ContinuesOnce(s.sessions[id], id);
    hide Step, LocalOk, Resume;
    p := Step(hash, s, Action.Advance(id, env)).sessions[id].point;
  }

  /** The events that follow others of themselves. */
  predicate Continues(next: Next, event: TransitionEvent) {
    match event
    case AuthorizedForStaging => next.ThenAuthorize?
    case WorkerLeaseAcquired => next.ThenLease?
    case NoApprovalRequired => next.ThenNoApproval?
    case StagingDiscardSucceeded => next.ThenFinishAbort?
    case _ => false
  }

  lemma ResumePuts(next: Next, event: TransitionEvent)
    ensures Puts(Resume(next), event) <==> Continues(next, event)
  {
  }

  lemma StoringCalls(hash: EventHash, s: System, id: string, env: Env, event: TransitionEvent)
    requires id in s.sessions && s.sessions[id].point.AtSend? && LocalOk(s.sessions[id], id)
    ensures var stored := Step(hash, s, Action.Advance(id, env)).tables.events != s.tables.events;
            Calls(hash, s, Action.Advance(id, env), id, event) <==>
            stored && Continues(s.sessions[id].point.next, event)
  {
    hide Step, LocalOk, Found, Resume;
    ContinuesOnce(s.sessions[id], id);
  }

  lemma SendingCalls(hash: EventHash, s: System, id: string, env: Env, event: TransitionEvent, p: Point)
    requires id in s.sessions && s.sessions[id].point.AtSend? && LocalOk(s.sessions[id], id)
    requires p == if Step(hash, s, Action.Advance(id, env)).tables.events == s.tables.events then AtRest
                  else Resume(s.sessions[id].point.next)
    ensures Calls(hash, s, Action.Advance(id, env), id, event) <==> Puts(p, event)
  {
    hide Step, LocalOk, Calls, Continues, Resume;
    StoringCalls(hash, s, id, env, event);
    ResumePuts(s.sessions[id].point.next, event);
  }

  /** What follows a transition is another one. */
  lemma ContinuesOnce(me: Session, id: string)
    requires LocalOk(me, id) && me.point.AtSend?
    ensures Resume(me.point.next) != me.point
    ensures var e := me.point.event;
            match me.point.next
            case ThenAuthorize => e.ProposalValid?
            case ThenLease => e.AuthorizedForStaging?
            case ThenNoApproval => e.StagedVerificationPassed?
            case _ => true
  {
  }

  // ----- every step ------------------------------------------------------------------------------

  /** At a point that Converse answers. */
  lemma TalkCalls(hash: EventHash, s: System, id: string, env: Env, event: TransitionEvent)
    requires id in s.sessions && Conversing(s.sessions[id].point) && LocalOk(s.sessions[id], id)
    ensures var a := Action.Advance(id, env);
            Calls(hash, s, a, id, event) <==> Sets(hash, s, a, id, event)
  {
    var me := s.sessions[id];
    PlannedPoints(me, id);
    TalkEquipped(me, id);
    hide Calls, Sets, Step, LocalOk, EventFor, GuardEvent;
    var p;
    match me.point {
      case AtVerifyStaged => p := StageCheckLeads(hash, s, id, env); StageCheckCalls(hash, s, id, env, event, p);
      case AtReinspect => p := ReinspectLeads(hash, s, id, env); ReinspectCalls(hash, s, id, env, event, p);
      case AtVerifyCommitted => p := CommitCheckLeads(hash, s, id, env); CommitCheckCalls(hash, s, id, env, event, p);
      case AtDiscard => p := DiscardLeads(hash, s, id, env); DiscardCalls(hash, s, id, env, event, p);
      case _ => p := StagingLeads(hash, s, id, env); StagingCalls(hash, s, id, env, event, p);
    }
    SetsMeans(hash, s, Action.Advance(id, env), id, event, p);
  }

  lemma TalkEquipped(me: Session, id: string)
    requires LocalOk(me, id)
    ensures me.point.AtExecute? ==> me.effect.Some?
    ensures me.point.AtCommit? ==> me.plan.Some? && me.staged.Some? && me.staged.value.staged.plan == me.plan.value
  {}

  /** The step of a session calls for an event exactly if it puts that event before the session. */
  lemma AdvanceCalls(hash: EventHash, s: System, id: string, env: Env, event: TransitionEvent,
                     state: M.Values, version: nat)
    requires Inv(s, state, version) && id in s.sessions && Lawful(Action.Advance(id, env))
    ensures var a := Action.Advance(id, env);
            Calls(hash, s, a, id, event) <==> Sets(hash, s, a, id, event)
  {
    hide Calls, Sets, Step, LocalOk, EventFor, GuardEvent, CommitFault, Refuse, Inv, Found, RowOk, ClosedOk, CopyOk,
         OwnerOk, EffectOk, Lawful, Resume, Conversing;
    Parts(s, id, state, version);
    var me := s.sessions[id];
    PlannedPoints(me, id);
    TalkEquipped(me, id);
    var a := Action.Advance(id, env);
    var p := me.point;
    match me.point {
      case AtRest => RestStays(hash, s, id, env); RestCalls(hash, s, id, env, event);
      case AtSend(_, _) => p := SendingLeads(hash, s, id, env); SendingCalls(hash, s, id, env, event, p);
      case AtAdmission => p := OpeningLeads(hash, s, id, env); OpeningCalls(hash, s, id, env, event, p);
      case AtInspect => p := OpeningLeads(hash, s, id, env); OpeningCalls(hash, s, id, env, event, p);
      case AtBind(_) => p := BindingLeads(hash, s, id, env); BindingCalls(hash, s, id, env, event, p);
      case AtReserve => p := ReservingLeads(hash, s, id, env); ReservingCalls(hash, s, id, env, event, p);
      case AtLink(_) => p := LinkingLeads(hash, s, id, env); LinkingCalls(hash, s, id, env, event, p);
      case AtReceipt(_) =>
        ReceiptIsOwn(s, id, state, version);
        p := ReceiptLeads(hash, s, id, env); ReceiptCalls(hash, s, id, env, event, p);
      case AtCommit =>
        NobodyWrote(s, id, state, version);
        p := CommitLeads(hash, s, id, env); CommitCalls(hash, s, id, env, event, p);
      case _ => IsConversing(me); TalkCalls(hash, s, id, env, event); return;
    }
    if p != me.point {
      SetsMeans(hash, s, a, id, event, p);
    } else {
      StaysUnset(hash, s, a, id, event);
    }
  }

  lemma IsConversing(me: Session)
    requires me.point.AtStage? || me.point.AtExecute? || me.point.AtVerifyStaged? || me.point.AtReinspect?
             || me.point.AtVerifyCommitted? || me.point.AtDiscard?
    ensures Conversing(me.point)
  {}

  lemma RestStays(hash: EventHash, s: System, id: string, env: Env)
    requires id in s.sessions && s.sessions[id].point.AtRest?
    ensures Step(hash, s, Action.Advance(id, env)) == s
  {}

  lemma RestCalls(hash: EventHash, s: System, id: string, env: Env, event: TransitionEvent)
    requires id in s.sessions && s.sessions[id].point.AtRest?
    ensures !Calls(hash, s, Action.Advance(id, env), id, event)
  {
    hide Step;
  }

  lemma ReceiptIsOwn(s: System, id: string, state: M.Values, version: nat)
    requires Inv(s, state, version) && id in s.sessions && s.sessions[id].point.AtReceipt?
    ensures s.sessions[id].point.receipt.transactionId in s.tables.transactions
  {
    Parts(s, id, state, version);
    OwnId(s.sessions[id], id);
    hide Inv, LocalOk;
  }

  lemma NobodyWrote(s: System, id: string, state: M.Values, version: nat)
    requires Inv(s, state, version) && id in s.sessions && s.sessions[id].point.AtCommit?
    ensures s.sessions[id].plan.Some?
    ensures s.sessions[id].plan.value.intentHash !in s.mock.receipts
  {
    hide Synced, Owned, Truthful, Serial, Recorded;
    NobodyElseWrote(s, id);
  }

  // ----- how far a session is --------------------------------------------------------------------

  /** How far a state is on the way to the commit. */
  function Level(s: TransactionState): nat {
    match s
    case New => 0
    case Planned => 1
    case AuthorizedToStage => 2
    case Staging => 3
    case Staged => 4
    case StageVerified => 5
    case AwaitingApproval => 6
    case ReadyToCommit => 7
    case Committing => 8
    case _ => 9
  }

  /** The points at which a session asks its adapter for the effect or a verdict, and stores the receipt,
      in their order; 3 for every other point. */
  function Place(p: Point): nat {
    if p.AtStage? || p.AtVerifyStaged? || p.AtCommit? then 0
    else if p.AtExecute? || p.AtReceipt? then 1
    else if p.AtVerifyCommitted? then 2
    else 3
  }

  function Progress(me: Session): nat {
    4 * Level(me.record.state) + Place(me.point)
  }

  lemma TransitionClimbs(s: TransactionState, e: TransitionEvent, o: Option<IntendedOutcome>)
    requires ApplyTransition(s, e, o).Success?
    ensures var t := ApplyTransition(s, e, o).value.target;
            Level(s) < Level(t) || (Level(t) == 9 && Level(s) == 9)
  {
    RowsClimb(e);
    StopRows(e);
    hide RowOf;
  }

  lemma RowsClimb(e: TransitionEvent)
    ensures var row := RowOf(e);
            row.rule.To? ==>
              || Level(row.source) < Level(row.rule.target)
              || (Level(row.source) == 9 && Level(row.rule.target) == 9)
    ensures RowOf(e).rule.Complete? ==> RowOf(e).source == Aborting
  {
  }

  lemma TalkLeads(hash: EventHash, s: System, id: string, env: Env) returns (p: Point)
    requires id in s.sessions && Conversing(s.sessions[id].point) && LocalOk(s.sessions[id], id)
    ensures Leads(hash, s, id, env, p)
    ensures Place(s.sessions[id].point) < Place(p) || Place(p) == 3
  {
    hide Leads, LocalOk, EventFor, GuardEvent;
    var me := s.sessions[id];
    PlannedPoints(me, id);
    TalkEquipped(me, id);
    match me.point {
      case AtVerifyStaged => p := StageCheckLeads(hash, s, id, env);
      case AtReinspect => p := ReinspectLeads(hash, s, id, env);
      case AtVerifyCommitted => p := CommitCheckLeads(hash, s, id, env);
      case AtDiscard => p := DiscardLeads(hash, s, id, env);
      case _ => p := StagingLeads(hash, s, id, env);
    }
  }

  /** A session that is neither at rest nor sending moves on. */
  lemma AdvanceLeads(hash: EventHash, s: System, id: string, env: Env, state: M.Values, version: nat)
    returns (p: Point)
    requires Inv(s, state, version) && id in s.sessions && Lawful(Action.Advance(id, env))
    requires !s.sessions[id].point.AtRest? && !s.sessions[id].point.AtSend?
    ensures Leads(hash, s, id, env, p)
    ensures Place(s.sessions[id].point) < Place(p) || Place(p) == 3
  {
    hide Leads, LocalOk, EventFor, GuardEvent, Inv, Found, RowOk, ClosedOk, CopyOk, OwnerOk, EffectOk, Lawful,
         Conversing;
    Parts(s, id, state, version);
    var me := s.sessions[id];
    PlannedPoints(me, id);
    TalkEquipped(me, id);
    match me.point {
      case AtAdmission => p := OpeningLeads(hash, s, id, env);
      case AtInspect => p := OpeningLeads(hash, s, id, env);
      case AtBind(_) => p := BindingLeads(hash, s, id, env);
      case AtReserve => p := ReservingLeads(hash, s, id, env);
      case AtLink(_) => p := LinkingLeads(hash, s, id, env);
      case AtReceipt(_) => ReceiptIsOwn(s, id, state, version); p := ReceiptLeads(hash, s, id, env);
      case AtCommit => NobodyWrote(s, id, state, version); p := CommitLeads(hash, s, id, env);
      case _ => IsConversing(me); p := TalkLeads(hash, s, id, env);
    }
  }

  // ----- what a step does to a session and to its log ---------------------------------------------

  /** The journal takes what the session sends in this step. */
  ghost predicate Sends(hash: EventHash, s: System, a: Action, id: string) {
    && Acting(s, a, id) && s.sessions[id].point.AtSend?
    && Step(hash, s, a).tables.events != s.tables.events
  }

  /** What a step leaves of a session and of its part of the log. */
  ghost predicate Follows(hash: EventHash, s: System, a: Action, id: string)
    requires id in s.sessions
  {
    var s' := Step(hash, s, a);
    && id in s'.sessions
    && var me, me' := s.sessions[id], s'.sessions[id];
    && J.Sent(s'.tables.events, id) ==
         J.Sent(s.tables.events, id) + (if Sends(hash, s, a, id) then [me.point.event] else [])
    && (me'.storage.AllWorked? ==> me.storage.AllWorked?)
    && Progress(me) <= Progress(me')
    && (Acting(s, a, id) && Place(me.point) < 3 ==> Progress(me) < Progress(me'))
    && (me.point.AtSend? && me'.point != me.point && !Sends(hash, s, a, id) ==> me' == Stop(me))
    && (me.point.AtRest? && me.record.state.Committing? ==> me'.point.AtRest?)
    && (!Sends(hash, s, a, id) ==> me'.record.state == me.record.state)
  }

  lemma AdmitFollows(hash: EventHash, s: System, p: M.Proposal, env: Env, id: string)
    requires Synced(s) && id in s.sessions
    ensures Follows(hash, s, Action.Admit(p, env), id)
  {
    hide LocalOk, RowOk, J.Sent, Insertable, NextEventPosition;
    AdmitStep(hash, s, p, env);
    hide Step;
    var s' := Step(hash, s, Action.Admit(p, env));
    assert s'.tables.events == s.tables.events || p.transactionId != id;
    if s'.tables.events != s.tables.events {
      var event := s'.tables.events[|s.tables.events|];
      assert s'.tables.events == s.tables.events + [event];
      J.SentSnoc(s.tables.events, event, id);
    }
  }

  lemma StartFollows(hash: EventHash, s: System, other: string, op: Operation, env: Env, id: string)
    requires id in s.sessions && (other == id ==> LocalOk(s.sessions[id], id))
    ensures Follows(hash, s, Action.Start(other, op, env), id)
  {
    hide J.Sent, SteadyOk;
  }

  lemma OtherFollows(hash: EventHash, s: System, other: string, env: Env, id: string, state: M.Values, version: nat)
    requires Inv(s, state, version) && Lawful(Action.Advance(other, env)) && id in s.sessions && other != id
    ensures Follows(hash, s, Action.Advance(other, env), id)
  {
    hide Inv, Step, Lawful;
    var a := Action.Advance(other, env);
    OtherStep(hash, s, a, id);
    OthersLog(hash, s, other, env, id, state, version);
  }

  lemma OthersLog(hash: EventHash, s: System, other: string, env: Env, id: string, state: M.Values, version: nat)
    requires Inv(s, state, version) && Lawful(Action.Advance(other, env)) && other != id
    ensures J.Sent(Step(hash, s, Action.Advance(other, env)).tables.events, id) == J.Sent(s.tables.events, id)
  {
    hide Inv, Lawful, J.Sent;
    var s' := Step(hash, s, Action.Advance(other, env));
    if other in s.sessions {
      if s.sessions[other].point.AtSend? {
        SendingStores(hash, s, other, env);
        hide Step;
        if s'.tables.events != s.tables.events {
          var event := s'.tables.events[|s.tables.events|];
          assert s'.tables.events == s.tables.events + [event];
          J.SentSnoc(s.tables.events, event, id);
        }
      } else if !s.sessions[other].point.AtRest? {
        hide Step;
        var p := AdvanceLeads(hash, s, other, env, state, version);
      }
    }
  }

  lemma OwnFollows(hash: EventHash, s: System, env: Env, id: string, state: M.Values, version: nat)
    requires Inv(s, state, version) && Lawful(Action.Advance(id, env)) && id in s.sessions
    ensures Follows(hash, s, Action.Advance(id, env), id)
  {
    hide Inv, Lawful, J.Sent, LocalOk;
    var s' := Step(hash, s, Action.Advance(id, env));
    if s.sessions[id].point.AtSend? {
      hide Step;
      SendingFollows(hash, s, env, id, state, version);
    } else if !s.sessions[id].point.AtRest? {
      hide Step;
      var p := AdvanceLeads(hash, s, id, env, state, version);
    }
  }

  lemma SendingFollows(hash: EventHash, s: System, env: Env, id: string, state: M.Values, version: nat)
    requires Inv(s, state, version) && id in s.sessions && s.sessions[id].point.AtSend?
    ensures Follows(hash, s, Action.Advance(id, env), id)
  {
    hide Inv, Step, J.Sent;
    var me, s' := s.sessions[id], Step(hash, s, Action.Advance(id, env));
    SendingStores(hash, s, id, env);
    if s'.tables.events != s.tables.events {
      var event := s'.tables.events[|s.tables.events|];
      assert s'.tables.events == s.tables.events + [event];
      J.SentSnoc(s.tables.events, event, id);
      SendingClimbs(hash, s, env, id, state, version);
    }
  }

  /** A transition that is stored takes the session on, and not back to where it asked. */
  lemma SendingClimbs(hash: EventHash, s: System, env: Env, id: string, state: M.Values, version: nat)
    requires Inv(s, state, version) && id in s.sessions && s.sessions[id].point.AtSend?
    requires Step(hash, s, Action.Advance(id, env)).tables.events != s.tables.events
    ensures var s' := Step(hash, s, Action.Advance(id, env));
            id in s'.sessions && Progress(s.sessions[id]) <= Progress(s'.sessions[id])
  {
    hide Inv, Step, ApplyTransition, SteadyOk, Equipped, Recovers, DoSend, Synced;
    var me := s.sessions[id];
    Parts(s, id, state, version);
    SendingStores(hash, s, id, env);
    SendIsDoSend(hash, s, id, env);
    assert Synced(s) by { hide *; InvIsSynced(s, state, version); }
    SendOutcome(hash, s, id, me.point.event, me.point.next, env);
    SendIsLegal(me, id, me.point.event, me.point.next);
    TransitionClimbs(me.record.state, me.point.event, me.record.intended);
  }

  lemma SendIsDoSend(hash: EventHash, s: System, id: string, env: Env)
    requires id in s.sessions && s.sessions[id].point.AtSend?
    ensures var me := s.sessions[id];
            Step(hash, s, Action.Advance(id, env)) == DoSend(hash, s, id, me, me.point.event, me.point.next, env)
  {
    hide DoSend;
  }

  lemma InvIsSynced(s: System, state: M.Values, version: nat)
    requires Inv(s, state, version)
    ensures Synced(s)
  {
    hide Synced;
  }
}
