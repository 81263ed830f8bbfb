/** What the state of a run says about the events that led to it. */
module Outcomes {
  import opened Wrappers
  import opened StateMachine

  // ----- the table, state by state -----------------------------------------------------------

  /** The rows TX-001 to TX-042 that leave a state. */
  function RowsFrom(s: TransactionState, e: TransitionEvent): TransitionRule {
    var aborted := ToAborting(IntendAborted);
    match s
    case New =>
      if e.ProposalValid? then To(Planned)
      else if e.ValidationFailed? then To(Rejected)
      else if e.Cancelled? || e.ContextExited? then aborted
      else NoRule
    case Planned =>
      if e.AuthorizedForStaging? then To(AuthorizedToStage)
      else if e.AuthorityOrPolicyDenied? then To(Rejected)
      else if Stops(e) then aborted
      else NoRule
    case AuthorizedToStage =>
      if e.WorkerLeaseAcquired? then To(Staging) else if Stops(e) then aborted else NoRule
    case Staging =>
      if e.StagingSucceeded? then To(Staged)
      else if e.StagingFailed? || Stops(e) then aborted
      else NoRule
    case Staged =>
      if e.StagedVerificationPassed? then To(StageVerified)
      else if e.StagedVerificationFailed? || Stops(e) then aborted
      else NoRule
    case StageVerified =>
      if e.ApprovalRequired? then To(AwaitingApproval)
      else if e.NoApprovalRequired? then To(ReadyToCommit)
      else if Stops(e) then aborted
      else NoRule
    case AwaitingApproval =>
      if e.ApprovalGranted? then To(ReadyToCommit)
      else if e.ApprovalRejected? || Stops(e) then aborted
      else NoRule
    case ReadyToCommit =>
      if e.TargetVersionChanged? then ToAborting(IntendStale)
      else if e.CommitRevalidationFailed? || Stops(e) then aborted
      else if e.CommitGuardsPassed? then To(Committing)
      else NoRule
    case Committing =>
      if e.CommitVerified? then To(Committed)
      else if e.CommitFailedNoEffect? then aborted
      else if e.CommitPartialOrInvalid? then To(Failed)
      else if e.CommitOutcomeUnknown? then To(InDoubt)
      else NoRule
    case Failed =>
      if e.StartRollback? then To(RollingBack)
      else if e.StartCompensation? then To(Compensating)
      else if e.RecoveryUnavailable? then To(RecoveryFailed)
      else NoRule
    case Aborting =>
      if e.StagingDiscardSucceeded? then Complete
      else if e.StagingDiscardFailed? then To(RecoveryFailed)
      else NoRule
    case RollingBack =>
      if e.RollbackVerified? then To(RolledBack)
      else if e.RollbackFailedOrUnknown? then To(RecoveryFailed)
      else NoRule
    case Compensating =>
      if e.CompensationVerified? then To(Compensated)
      else if e.CompensationFailedOrUnknown? then To(CompensationFailed)
      else NoRule
    case InDoubt => if e.ReconciliationStarted? then To(Reconciling) else NoRule
    case Reconciling =>
      if e.ReconciliationCommitted? then To(Committed)
      else if e.ReconciliationNoEffect? then aborted
      else if e.ReconciliationPartialOrInvalid? then To(Failed)
      else if e.ReconciliationUnknown? then To(InDoubt)
      else NoRule
    case _ => NoRule
  }

  predicate Stops(e: TransitionEvent) {
    e.Cancelled? || e.DeadlinePassed? || e.ContextExited?
  }

  /** The index by event holds the rows of the table and no others. */
  lemma IndexIsTheTable(s: TransactionState, e: TransitionEvent)
    ensures RuleFor(s, e) == RowsFrom(s, e)
  {
    hide RowsFrom, RowOf;
    if Stops(e) {
      StopsAgree(s, e);
      StopRows(e);
    } else {
      RowIsThere(e);
      if RowsFrom(s, e) != NoRule {
        RowIsIndexed(s, e);
      }
    }
  }

  lemma StopsAgree(s: TransactionState, e: TransitionEvent)
    requires Stops(e)
    ensures RowsFrom(s, e) ==
            if InPreparation(s) || (s.New? && !e.DeadlinePassed?) then ToAborting(IntendAborted) else NoRule
  {
  }

  lemma RowIsThere(e: TransitionEvent)
    requires !Stops(e)
    ensures RowsFrom(RowOf(e).source, e) == RowOf(e).rule
  {
  }

  lemma RowIsIndexed(s: TransactionState, e: TransitionEvent)
    requires !Stops(e) && RowsFrom(s, e) != NoRule
    ensures RowOf(e).source == s
  {
    hide RowsFrom, RowOf;
    if BeforeCommit(s) {
      EarlyRowIsIndexed(s, e);
    } else {
      LateRowIsIndexed(s, e);
    }
  }

  lemma EarlyRowIsIndexed(s: TransactionState, e: TransitionEvent)
    requires !Stops(e) && RowsFrom(s, e) != NoRule && BeforeCommit(s)
    ensures RowOf(e).source == s
  {
  }

  lemma LateRowIsIndexed(s: TransactionState, e: TransitionEvent)
    requires !Stops(e) && RowsFrom(s, e) != NoRule && !BeforeCommit(s)
    ensures RowOf(e).source == s
  {
  }

  // ----- the events behind a state -----------------------------------------------------------

  /** The abort of an attempt: what caused it decides what it ends in. */
  predicate AbortTold(events: seq<TransitionEvent>, c: Config) {
    && (c.state.StaleState? <==> TargetVersionChanged in events && StagingDiscardSucceeded in events)
    && (c.state.Aborted? <==> TargetVersionChanged !in events && StagingDiscardSucceeded in events)
    && (TargetVersionChanged in events ==>
          (c.state.Aborting? || c.state.StaleState? || c.state.RecoveryFailed?) && c.intended == Some(IntendStale))
    && (c.intended == Some(IntendStale) ==> TargetVersionChanged in events)
  }

  /** The events that end a run. */
  predicate EndTold(events: seq<TransitionEvent>, c: Config) {
    && (c.state.Committed? <==> CommitVerified in events || ReconciliationCommitted in events)
    && (c.state.Rejected? <==> ValidationFailed in events || AuthorityOrPolicyDenied in events)
  }

  /** The events that end a recovery. */
  predicate RecoveryTold(events: seq<TransitionEvent>, c: Config) {
    && (c.state.RecoveryFailed? <==>
          StagingDiscardFailed in events || RecoveryUnavailable in events || RollbackFailedOrUnknown in events)
    && (c.state.RolledBack? <==> RollbackVerified in events)
    && (c.state.Compensated? <==> CompensationVerified in events)
    && (c.state.CompensationFailed? <==> CompensationFailedOrUnknown in events)
  }

  /** The states an attempt can be in once its stage was verified. */
  predicate AfterVerification(s: TransactionState) {
    s.StageVerified? || s.AwaitingApproval? || s.ReadyToCommit? || PastCommit(s)
  }

  /** The way to the commit boundary and what the commit said. */
  predicate WayTold(events: seq<TransitionEvent>, c: Config) {
    && (c.state.New? <==> events == [])
    && (AfterVerification(c.state) ==> StagedVerificationPassed in events)
    && (StagedVerificationPassed in events ==> AfterVerification(c.state) || Ending(c.state))
    && (PastCommit(c.state) ==> CommitGuardsPassed in events)
    && (CommitGuardsPassed in events ==> PastCommit(c.state) || Ending(c.state))
  }

  /** The answers of `adapter.commit` and `adapter.verify_committed`, while nobody recovers or
      reconciles the attempt. */
  predicate AnswerTold(events: seq<TransitionEvent>, c: Config) {
    && (c.state.Failed? <==> CommitPartialOrInvalid in events)
    && (c.state.InDoubt? <==> CommitOutcomeUnknown in events)
    && (c.state.Committed? <==> CommitVerified in events)
    && (CommitFailedNoEffect in events ==> Ending(c.state))
  }

  predicate Ending(s: TransactionState) {
    s.Aborting? || s.Aborted? || s.StaleState? || s.RecoveryFailed?
  }

  predicate StartsRecovery(e: TransitionEvent) {
    e.StartRollback? || e.StartCompensation? || e.RecoveryUnavailable? || e.ReconciliationStarted?
  }

  predicate Attended(s: TransactionState) {
    s.Reconciling? || s.RollingBack? || s.Compensating?
  }

  predicate Unattended(events: seq<TransitionEvent>) {
    forall e | e in events :: !StartsRecovery(e)
  }

  /** A step follows the row of its event. */
  predicate Taken(c: Config, e: TransitionEvent, d: Config) {
    if IsStop(e) then (InPreparation(c.state) || c.state.New?) && d == Config(Aborting, Some(IntendAborted))
    else
      && c.state == RowOf(e).source
      && match RowOf(e).rule
         case NoRule => false
         case To(target) => d == Config(target, c.intended)
         case ToAborting(outcome) => d == Config(Aborting, Some(outcome))
         case Complete => c.intended.Some? && d == Config(OutcomeState(c.intended.value), c.intended)
  }

  lemma StepIsTaken(c: Config, e: TransitionEvent)
    requires ApplyTransition(c.state, e, c.intended).Success?
    ensures Taken(c, e, After(c, e))
  {
    StopRows(e);
    hide RowOf;
  }

  lemma OneLonger(p: seq<TransitionEvent>, e: TransitionEvent)
    ensures forall x :: x in p + [e] <==> x in p || x == e
  {
  }

  lemma AbortRows(e: TransitionEvent)
    requires !IsStop(e)
    ensures var row := RowOf(e);
            && (row.rule.Complete? <==> e.StagingDiscardSucceeded?)
            && (row.rule == ToAborting(IntendStale) <==> e.TargetVersionChanged?)
            && (row.rule.To? ==>
                  !row.rule.target.Aborting? && !row.rule.target.Aborted? && !row.rule.target.StaleState?)
            && (row.source.Aborting? ==> row.rule.Complete? || row.rule == To(RecoveryFailed))
            && (row.rule.Complete? ==> row.source.Aborting?)
            && !row.source.Aborted? && !row.source.StaleState? && !row.source.RecoveryFailed?
  {
  }

  lemma AbortStep(p: seq<TransitionEvent>, c: Config, e: TransitionEvent, d: Config)
    requires AbortTold(p, c) && Taken(c, e, d)
    ensures AbortTold(p + [e], d)
  {
    hide RowOf;
    OneLonger(p, e);
    if !IsStop(e) {
      AbortRows(e);
    }
  }

  lemma EndRows(e: TransitionEvent)
    requires !IsStop(e)
    ensures var row := RowOf(e);
            && (row.rule == To(Committed) <==> e.CommitVerified? || e.ReconciliationCommitted?)
            && (row.rule == To(Rejected) <==> e.ValidationFailed? || e.AuthorityOrPolicyDenied?)
            && !row.source.Committed? && !row.source.Rejected?
  {
  }

  lemma EndStep(p: seq<TransitionEvent>, c: Config, e: TransitionEvent, d: Config)
    requires EndTold(p, c) && Taken(c, e, d)
    ensures EndTold(p + [e], d)
  {
    hide RowOf;
    OneLonger(p, e);
    if !IsStop(e) {
      EndRows(e);
    }
  }

  lemma RecoveryRows(e: TransitionEvent)
    requires !IsStop(e)
    ensures var row := RowOf(e);
            && (row.rule == To(RecoveryFailed) <==>
                  e.StagingDiscardFailed? || e.RecoveryUnavailable? || e.RollbackFailedOrUnknown?)
            && (row.rule == To(RolledBack) <==> e.RollbackVerified?)
            && (row.rule == To(Compensated) <==> e.CompensationVerified?)
            && (row.rule == To(CompensationFailed) <==> e.CompensationFailedOrUnknown?)
            && !row.source.RecoveryFailed?
            && !row.source.RolledBack? && !row.source.Compensated? && !row.source.CompensationFailed?
  {
  }

  lemma RecoveryStep(p: seq<TransitionEvent>, c: Config, e: TransitionEvent, d: Config)
    requires RecoveryTold(p, c) && Taken(c, e, d)
    ensures RecoveryTold(p + [e], d)
  {
    hide RowOf;
    OneLonger(p, e);
    if !IsStop(e) {
      RecoveryRows(e);
    }
  }

  lemma WayRows(e: TransitionEvent)
    requires !IsStop(e)
    ensures var row := RowOf(e);
            && (row.rule.To? ==> row.rule.target != New)
            && (e.StagedVerificationPassed? ==> row.rule.To? && AfterVerification(row.rule.target))
            && (e.CommitGuardsPassed? ==> row.rule.To? && PastCommit(row.rule.target))
            && (row.rule.To? && AfterVerification(row.rule.target) ==>
                  AfterVerification(row.source) || e.StagedVerificationPassed?)
            && (row.rule.To? && PastCommit(row.rule.target) ==> PastCommit(row.source) || e.CommitGuardsPassed?)
            && (row.rule.To? && AfterVerification(row.source) ==>
                  AfterVerification(row.rule.target) || Ending(row.rule.target))
            && (row.rule.To? && PastCommit(row.source) ==> PastCommit(row.rule.target) || Ending(row.rule.target))
            && (Ending(row.source) ==> row.rule.Complete? || row.rule == To(RecoveryFailed))
  {
  }

  lemma WayStep(p: seq<TransitionEvent>, c: Config, e: TransitionEvent, d: Config)
    requires WayTold(p, c) && Taken(c, e, d)
    ensures WayTold(p + [e], d)
  {
    hide RowOf;
    OneLonger(p, e);
    if !IsStop(e) {
      WayRows(e);
    }
  }

  lemma AnswerRows(e: TransitionEvent)
    requires !IsStop(e)
    ensures var row := RowOf(e);
            && (row.rule == To(Failed) ==> e.CommitPartialOrInvalid? || Attended(row.source))
            && (row.rule == To(InDoubt) ==> e.CommitOutcomeUnknown? || Attended(row.source))
            && (e.CommitPartialOrInvalid? ==> row.rule == To(Failed))
            && (e.CommitOutcomeUnknown? ==> row.rule == To(InDoubt))
            && (e.CommitVerified? ==> row.rule == To(Committed))
            && (e.CommitFailedNoEffect? ==> row.rule.ToAborting?)
            && (row.rule == To(Committed) ==> e.CommitVerified? || Attended(row.source))
            && (row.rule.To? && Attended(row.rule.target) ==> StartsRecovery(e) || Attended(row.source))
            && (row.source.Failed? || row.source.InDoubt? ==> StartsRecovery(e))
            && (Ending(row.source) ==> row.rule.Complete? || row.rule == To(RecoveryFailed))
            && !row.source.Committed?
  {
  }

  lemma AnswerStep(p: seq<TransitionEvent>, c: Config, e: TransitionEvent, d: Config)
    requires AnswerTold(p, c) && Taken(c, e, d) && !StartsRecovery(e) && !Attended(c.state)
    ensures AnswerTold(p + [e], d) && !Attended(d.state)
  {
    hide RowOf;
    OneLonger(p, e);
    if !IsStop(e) {
      AnswerRows(e);
    }
  }

  // ----- over whole runs ---------------------------------------------------------------------

  /** A run tells by its events what its state is: STALE_STATE is an abort that a changed target
      caused, ABORTED one that it did not cause, and every other terminal state has its own events. */
  lemma {:induction false} EndIsToldByEvents(events: seq<TransitionEvent>)
    requires Run(events).Success?
    ensures AbortTold(events, Run(events).value)
    ensures EndTold(events, Run(events).value) && RecoveryTold(events, Run(events).value)
    ensures WayTold(events, Run(events).value)
  {
    hide AbortTold, EndTold, RecoveryTold, WayTold, ApplyTransition;
    if events == [] {
      NothingTold();
    } else {
      var n := |events| - 1;
      EndIsToldByEvents(events[..n]);
      var c, d := Run(events[..n]).value, Run(events).value;
      StepIsTaken(c, events[n]);
      hide Taken;
      AbortStep(events[..n], c, events[n], d);
      EndStep(events[..n], c, events[n], d);
      RecoveryStep(events[..n], c, events[n], d);
      WayStep(events[..n], c, events[n], d);
      assert events[..n] + [events[n]] == events;
    }
  }

  lemma NothingTold()
    ensures AbortTold([], Config(New, None)) && EndTold([], Config(New, None))
    ensures RecoveryTold([], Config(New, None))
    ensures WayTold([], Config(New, None)) && AnswerTold([], Config(New, None))
  {}

  /** While nobody recovers or reconciles an attempt, FAILED and IN_DOUBT have their own events too. */
  lemma {:induction false} AnswersAreToldByEvents(events: seq<TransitionEvent>)
    requires Run(events).Success? && Unattended(events)
    ensures AnswerTold(events, Run(events).value) && !Attended(Run(events).value.state)
  {
    hide AnswerTold, ApplyTransition;
    if events == [] {
      NothingTold();
    } else {
      var n := |events| - 1;
      assert events[..n] + [events[n]] == events;
      AnswersAreToldByEvents(events[..n]);
      var c := Run(events[..n]).value;
      StepIsTaken(c, events[n]);
      hide Taken;
      AnswerStep(events[..n], c, events[n], Run(events).value);
    }
  }

  /** The four things a commit can come to. */
  predicate IsAnswer(e: TransitionEvent) {
    e.CommitVerified? || e.CommitPartialOrInvalid? || e.CommitOutcomeUnknown? || e.CommitFailedNoEffect?
  }

  /** What the answers of a commit leave of an attempt that nobody recovers or reconciles. */
  lemma AnswersLeaveCommitting(events: seq<TransitionEvent>, e: TransitionEvent)
    requires Run(events).Success? && Unattended(events) && IsAnswer(e)
    ensures var s := Run(events).value.state;
            && (e in events ==> !s.Committing?)
            && (e == CommitVerified ==> (e in events <==> s.Committed?))
            && (e == CommitPartialOrInvalid ==> (e in events <==> s.Failed?))
            && (e == CommitOutcomeUnknown ==> (e in events <==> s.InDoubt?))
            && (e == CommitFailedNoEffect && e in events ==> Ending(s))
  {
    AnswersAreToldByEvents(events);
    hide Run, AbortTold, EndTold, WayTold, RecoveryTold;
  }
}
