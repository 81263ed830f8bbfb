/** The durable transaction states, the normative transition table and `apply_transition`. */
module StateMachine {
  import opened Wrappers

  datatype TransactionState =
    | New | Planned | Rejected | AuthorizedToStage | Staging | Staged | StageVerified
    | AwaitingApproval | ReadyToCommit | Committing | Committed | Failed | Aborting | Aborted
    | StaleState | RollingBack | RolledBack | Compensating | Compensated | CompensationFailed
    | RecoveryFailed | InDoubt | Reconciling

  predicate IsTerminal(s: TransactionState) {
    || s.Committed? || s.Rejected? || s.Aborted? || s.StaleState?
    || s.RolledBack? || s.Compensated? || s.RecoveryFailed? || s.CompensationFailed?
  }

  datatype IntendedOutcome = IntendAborted | IntendStale

  function OutcomeState(o: IntendedOutcome): TransactionState {
    match o
    case IntendAborted => Aborted
    case IntendStale => StaleState
  }

  datatype TransitionEvent =
    | ProposalValid | ValidationFailed | Cancelled | DeadlinePassed | ContextExited
    | AuthorizedForStaging | AuthorityOrPolicyDenied | WorkerLeaseAcquired
    | StagingSucceeded | StagingFailed | StagedVerificationPassed | StagedVerificationFailed
    | ApprovalRequired | NoApprovalRequired | ApprovalGranted | ApprovalRejected
    | TargetVersionChanged | CommitRevalidationFailed | CommitGuardsPassed
    | CommitVerified | CommitFailedNoEffect | CommitPartialOrInvalid | CommitOutcomeUnknown
    | StartRollback | StartCompensation | RecoveryUnavailable
    | StagingDiscardSucceeded | StagingDiscardFailed
    | RollbackVerified | RollbackFailedOrUnknown
    | CompensationVerified | CompensationFailedOrUnknown
    | ReconciliationStarted | ReconciliationCommitted | ReconciliationNoEffect
    | ReconciliationPartialOrInvalid | ReconciliationUnknown

  /** What the table says about one (state, event) pair: no row, a row with a fixed target, a row
      into ABORTING with the outcome it records, or the ABORTING completion whose target is the
      durable intended outcome. */
  datatype TransitionRule =
    | NoRule
    | To(target: TransactionState)
    | ToAborting(outcome: IntendedOutcome)
    | Complete

  /** PLANNED to READY_TO_COMMIT: the states the stop events of TX-008, 012, 015, 018, 021 leave. */
  predicate InPreparation(s: TransactionState) {
    || s.Planned? || s.AuthorizedToStage? || s.Staging? || s.Staged? || s.StageVerified?
    || s.AwaitingApproval? || s.ReadyToCommit?
  }

  /** The events that leave a whole range of states. */
  predicate IsStop(e: TransitionEvent) {
    e.Cancelled? || e.DeadlinePassed? || e.ContextExited?
  }

  datatype TransitionRow = TransitionRow(source: TransactionState, rule: TransitionRule)

  /** The normative rows TX-001 to TX-042: every event but the stop events has one source. */
  function RowOf(event: TransitionEvent): TransitionRow {
    match event
    case ProposalValid => TransitionRow(New, To(Planned))
    case ValidationFailed => TransitionRow(New, To(Rejected))
    case AuthorizedForStaging => TransitionRow(Planned, To(AuthorizedToStage))
    case AuthorityOrPolicyDenied => TransitionRow(Planned, To(Rejected))
    case WorkerLeaseAcquired => TransitionRow(AuthorizedToStage, To(Staging))
    case StagingSucceeded => TransitionRow(Staging, To(Staged))
    case StagingFailed => TransitionRow(Staging, ToAborting(IntendAborted))
    case StagedVerificationPassed => TransitionRow(Staged, To(StageVerified))
    case StagedVerificationFailed => TransitionRow(Staged, ToAborting(IntendAborted))
    case ApprovalRequired => TransitionRow(StageVerified, To(AwaitingApproval))
    case NoApprovalRequired => TransitionRow(StageVerified, To(ReadyToCommit))
    case ApprovalGranted => TransitionRow(AwaitingApproval, To(ReadyToCommit))
    case ApprovalRejected => TransitionRow(AwaitingApproval, ToAborting(IntendAborted))
    case TargetVersionChanged => TransitionRow(ReadyToCommit, ToAborting(IntendStale))
    case CommitRevalidationFailed => TransitionRow(ReadyToCommit, ToAborting(IntendAborted))
    case CommitGuardsPassed => TransitionRow(ReadyToCommit, To(Committing))
    case CommitVerified => TransitionRow(Committing, To(Committed))
    case CommitFailedNoEffect => TransitionRow(Committing, ToAborting(IntendAborted))
    case CommitPartialOrInvalid => TransitionRow(Committing, To(Failed))
    case CommitOutcomeUnknown => TransitionRow(Committing, To(InDoubt))
    case StartRollback => TransitionRow(Failed, To(RollingBack))
    case StartCompensation => TransitionRow(Failed, To(Compensating))
    case RecoveryUnavailable => TransitionRow(Failed, To(RecoveryFailed))
    case StagingDiscardSucceeded => TransitionRow(Aborting, Complete)
    case StagingDiscardFailed => TransitionRow(Aborting, To(RecoveryFailed))
    case RollbackVerified => TransitionRow(RollingBack, To(RolledBack))
    case RollbackFailedOrUnknown => TransitionRow(RollingBack, To(RecoveryFailed))
    case CompensationVerified => TransitionRow(Compensating, To(Compensated))
    case CompensationFailedOrUnknown => TransitionRow(Compensating, To(CompensationFailed))
    case ReconciliationStarted => TransitionRow(InDoubt, To(Reconciling))
    case ReconciliationCommitted => TransitionRow(Reconciling, To(Committed))
    case ReconciliationNoEffect => TransitionRow(Reconciling, ToAborting(IntendAborted))
    case ReconciliationPartialOrInvalid => TransitionRow(Reconciling, To(Failed))
    case ReconciliationUnknown => TransitionRow(Reconciling, To(InDoubt))
    case _ => TransitionRow(Planned, ToAborting(IntendAborted))
  }

  /** The index over the rows. */
  function RuleFor(source: TransactionState, event: TransitionEvent): TransitionRule {
    if IsStop(event) then
      if InPreparation(source) || (source == New && event != DeadlinePassed) then RowOf(event).rule
      else NoRule
    else if source == RowOf(event).source then RowOf(event).rule
    else NoRule
  }

  datatype TransitionDecision =
    TransitionDecision(target: TransactionState, intended: Option<IntendedOutcome>)

  function ApplyTransition(source: TransactionState, event: TransitionEvent,
                           current: Option<IntendedOutcome>): Result<TransitionDecision>
  {
    match RuleFor(source, event)
    case NoRule => Failure(IllegalTransition)
    case To(target) =>
      if target == Aborting && current.None? then Failure(IntegrityError)
      else Success(TransitionDecision(target, current))
    case ToAborting(outcome) => Success(TransitionDecision(Aborting, Some(outcome)))
    case Complete =>
      if source != Aborting || event != StagingDiscardSucceeded then Failure(RuntimeFault)
      else if current.None? then Failure(IntegrityError)
      else Success(TransitionDecision(OutcomeState(current.value), current))
  }

  // ----- one step ---------------------------------------------------------------------------

  /** Every row into ABORTING records an outcome, and only ABORTING completion is dynamic. */
  lemma ShapeOfRows(s: TransactionState, e: TransitionEvent)
    ensures RuleFor(s, e) != To(Aborting)
    ensures RuleFor(s, e).Complete? <==> s == Aborting && e == StagingDiscardSucceeded
  {
  }

  /** The only failures are "no such row" and an ABORTING completion without its outcome: the two
      internal guards of the function never fire. */
  lemma FailuresOfApplyTransition(s: TransactionState, e: TransitionEvent, o: Option<IntendedOutcome>)
    ensures ApplyTransition(s, e, o) == Failure(IllegalTransition) <==> RuleFor(s, e).NoRule?
    ensures ApplyTransition(s, e, o) == Failure(IntegrityError) <==>
            s == Aborting && e == StagingDiscardSucceeded && o.None?
    ensures ApplyTransition(s, e, o).Failure? ==>
              ApplyTransition(s, e, o).error in {IllegalTransition, IntegrityError}
  {
    ShapeOfRows(s, e);
    hide RuleFor;
  }

  /** An event that leaves a state that is not terminal. */
  function Onward(s: TransactionState): TransitionEvent {
    match s
    case New => ProposalValid
    case Planned => AuthorizedForStaging
    case AuthorizedToStage => WorkerLeaseAcquired
    case Staging => StagingSucceeded
    case Staged => StagedVerificationPassed
    case StageVerified => NoApprovalRequired
    case AwaitingApproval => ApprovalGranted
    case ReadyToCommit => CommitGuardsPassed
    case Committing => CommitVerified
    case Failed => StartRollback
    case RollingBack => RollbackVerified
    case Compensating => CompensationVerified
    case InDoubt => ReconciliationStarted
    case Reconciling => ReconciliationCommitted
    case _ => StagingDiscardFailed
  }

  /** A state is terminal exactly when no event leaves it, whatever outcome is recorded. */
  lemma TerminalMeansNoSuccessor(s: TransactionState, o: Option<IntendedOutcome>)
    ensures IsTerminal(s) <==> forall e :: ApplyTransition(s, e, o).Failure?
  {
    if IsTerminal(s) {
      forall e ensures RuleFor(s, e).NoRule? {}
    } else {
      assert ApplyTransition(s, Onward(s), o).Success?;
    }
  }

  /** Distance to the end of the longest run that sees no RECONCILIATION_UNKNOWN. */
  function Rank(s: TransactionState): nat {
    match s
    case New => 13
    case Planned => 12
    case AuthorizedToStage => 11
    case Staging => 10
    case Staged => 9
    case StageVerified => 8
    case AwaitingApproval => 7
    case ReadyToCommit => 6
    case Committing => 5
    case InDoubt => 4
    case Reconciling => 3
    case Failed => 2
    case RollingBack => 1
    case Compensating => 1
    case Aborting => 1
    case _ => 0
  }

  /** The rank a rule leads to; -1 where there is no row. */
  function RankInto(rule: TransitionRule): int {
    match rule
    case To(t) => Rank(t)
    case ToAborting(_) => Rank(Aborting)
    case Complete => 0
    case NoRule => -1
  }

  lemma StopRows(e: TransitionEvent)
    ensures IsStop(e) ==> RowOf(e).rule == ToAborting(IntendAborted)
  {
  }

  lemma RowsLowerRank(e: TransitionEvent)
    ensures RankInto(RowOf(e).rule)
            < Rank(RowOf(e).source) + (if e == ReconciliationUnknown then 2 else 0)
  {
  }

  lemma StepLowersRank(s: TransactionState, e: TransitionEvent, o: Option<IntendedOutcome>)
    requires ApplyTransition(s, e, o).Success?
    ensures Rank(ApplyTransition(s, e, o).value.target)
            <= Rank(s) - 1 + (if e == ReconciliationUnknown then 2 else 0)
  {
    RowsLowerRank(e);
    hide RowOf;
    assert IsStop(e) ==> RowOf(e).rule == ToAborting(IntendAborted) by { StopRows(e); }
  }

  // ----- whole runs -------------------------------------------------------------------------

  datatype Config = Config(state: TransactionState, intended: Option<IntendedOutcome>)

  /** The configuration after a sequence of events from NEW, or the first failure. */
  function Run(events: seq<TransitionEvent>): Result<Config> {
    if events == [] then Success(Config(New, None))
    else
      var before := Run(events[..|events| - 1]);
      if before.Failure? then before
      else
        var step := ApplyTransition(before.value.state, events[|events| - 1], before.value.intended);
        if step.Failure? then Failure(step.error)
        else Success(Config(step.value.target, step.value.intended))
  }

  function Unknowns(events: seq<TransitionEvent>): nat {
    if events == [] then 0
    else Unknowns(events[..|events| - 1])
         + (if events[|events| - 1] == ReconciliationUnknown then 1 else 0)
  }

  /** A run with u RECONCILIATION_UNKNOWN events has at most 13 + 2u steps. */
  lemma {:induction false} RunsAreBounded(events: seq<TransitionEvent>)
    requires Run(events).Success?
    ensures |events| + Rank(Run(events).value.state) <= 13 + 2 * Unknowns(events)
  {
    if events != [] {
      var before := Run(events[..|events| - 1]).value;
      RunsAreBounded(events[..|events| - 1]);
      StepLowersRank(before.state, events[|events| - 1], before.intended);
    }
  }

  function LongTail(u: nat): seq<TransitionEvent> {
    if u == 0 then FIRST_HALF + SECOND_HALF
    else LongTail(u - 1) + [ReconciliationUnknown, ReconciliationStarted]
  }

  lemma RunSnoc(events: seq<TransitionEvent>, e: TransitionEvent)
    requires Run(events).Success?
    ensures Run(events + [e]) ==
            var c := Run(events).value;
            var d := ApplyTransition(c.state, e, c.intended);
            if d.Failure? then Failure(d.error) else Success(Config(d.value.target, d.value.intended))
    ensures Unknowns(events + [e]) ==
            Unknowns(events) + (if e == ReconciliationUnknown then 1 else 0)
  {
    assert (events + [e])[..|events + [e]| - 1] == events;
  }

  /** One more event, with the configurations named. */
  lemma Then(events: seq<TransitionEvent>, c: Config, e: TransitionEvent, d: Config)
    requires Run(events) == Success(c)
    requires ApplyTransition(c.state, e, c.intended) == Success(TransitionDecision(d.state, d.intended))
    ensures Run(events + [e]) == Success(d)
    ensures Unknowns(events + [e]) == Unknowns(events) + (if e == ReconciliationUnknown then 1 else 0)
  {
    RunSnoc(events, e);
  }

  lemma RunEmpty()
    ensures Run([]) == Success(Config(New, None)) && Unknowns([]) == 0
  {}

  const FIRST_HALF := [ProposalValid, AuthorizedForStaging, WorkerLeaseAcquired, StagingSucceeded,
                       StagedVerificationPassed]
  const SECOND_HALF := [ApprovalRequired, ApprovalGranted, CommitGuardsPassed,
                        CommitOutcomeUnknown, ReconciliationStarted]

  lemma FirstHalf()
    ensures Run(FIRST_HALF) == Success(Config(StageVerified, None)) && Unknowns(FIRST_HALF) == 0
  {
    RunEmpty();
    hide Run, Unknowns;
    var a: seq<TransitionEvent> := [];
    Then(a, Config(New, None), ProposalValid, Config(Planned, None));
    var b := a + [ProposalValid];
    Then(b, Config(Planned, None), AuthorizedForStaging, Config(AuthorizedToStage, None));
    var c := b + [AuthorizedForStaging];
    Then(c, Config(AuthorizedToStage, None), WorkerLeaseAcquired, Config(Staging, None));
    var d := c + [WorkerLeaseAcquired];
    Then(d, Config(Staging, None), StagingSucceeded, Config(Staged, None));
    var f := d + [StagingSucceeded];
    Then(f, Config(Staged, None), StagedVerificationPassed, Config(StageVerified, None));
    var g := f + [StagedVerificationPassed];
    assert g == FIRST_HALF;
  }

  lemma ShortestTail()
    ensures Run(FIRST_HALF + SECOND_HALF) == Success(Config(Reconciling, None))
    ensures Unknowns(FIRST_HALF + SECOND_HALF) == 0
  {
    FirstHalf();
    hide Run, Unknowns;
    var a := FIRST_HALF;
    Then(a, Config(StageVerified, None), ApprovalRequired, Config(AwaitingApproval, None));
    var b := a + [ApprovalRequired];
    Then(b, Config(AwaitingApproval, None), ApprovalGranted, Config(ReadyToCommit, None));
    var c := b + [ApprovalGranted];
    Then(c, Config(ReadyToCommit, None), CommitGuardsPassed, Config(Committing, None));
    var d := c + [CommitGuardsPassed];
    Then(d, Config(Committing, None), CommitOutcomeUnknown, Config(InDoubt, None));
    var f := d + [CommitOutcomeUnknown];
    Then(f, Config(InDoubt, None), ReconciliationStarted, Config(Reconciling, None));
    var g := f + [ReconciliationStarted];
    assert g == FIRST_HALF + SECOND_HALF;
  }

  lemma OneMoreUnknown(p: seq<TransitionEvent>)
    requires Run(p) == Success(Config(Reconciling, None))
    ensures Run(p + [ReconciliationUnknown, ReconciliationStarted]) == Run(p)
    ensures Unknowns(p + [ReconciliationUnknown, ReconciliationStarted]) == Unknowns(p) + 1
  {
    hide Run, Unknowns;
    var q := p + [ReconciliationUnknown];
    Then(p, Config(Reconciling, None), ReconciliationUnknown, Config(InDoubt, None));
    Then(q, Config(InDoubt, None), ReconciliationStarted, Config(Reconciling, None));
    assert q + [ReconciliationStarted] == p + [ReconciliationUnknown, ReconciliationStarted];
  }

  lemma {:induction false} LongTailReconciles(u: nat)
    ensures |LongTail(u)| == 10 + 2 * u && Unknowns(LongTail(u)) == u
    ensures Run(LongTail(u)) == Success(Config(Reconciling, None))
  {
    hide Run, Unknowns, RuleFor;
    if u == 0 {
      ShortestTail();
    } else {
      LongTailReconciles(u - 1);
      OneMoreUnknown(LongTail(u - 1));
    }
  }

  /** The bound is reached for every u, so it cannot be improved. */
  lemma BoundIsTight(u: nat)
    ensures exists events :: Run(events).Success? && Unknowns(events) == u && |events| == 13 + 2 * u
  {
    hide Run, Unknowns, LongTail;
    LongTailReconciles(u);
    var p := LongTail(u);
    var q := p + [ReconciliationPartialOrInvalid];
    var r := q + [StartRollback];
    Then(p, Config(Reconciling, None), ReconciliationPartialOrInvalid, Config(Failed, None));
    Then(q, Config(Failed, None), StartRollback, Config(RollingBack, None));
    Then(r, Config(RollingBack, None), RollbackVerified, Config(RolledBack, None));
    var s := r + [RollbackVerified];
    assert Run(s).Success? && Unknowns(s) == u && |s| == 13 + 2 * u;
  }

  /** The states a run passes through, NEW first. */
  ghost predicate Visits(events: seq<TransitionEvent>, s: TransactionState) {
    exists i :: 0 <= i <= |events| && Run(events[..i]).Success? && Run(events[..i]).value.state == s
  }

  lemma {:induction false} PrefixesRun(events: seq<TransitionEvent>, i: nat)
    requires Run(events).Success? && i <= |events|
    ensures Run(events[..i]).Success?
    decreases |events| - i
  {
    if i == |events| {
      assert events[..i] == events;
    } else {
      PrefixesRun(events, i + 1);
      assert events[..i + 1][..i] == events[..i];
    }
  }

  lemma VisitsSnoc(events: seq<TransitionEvent>, s: TransactionState)
    requires events != [] && Run(events).Success?
    ensures Visits(events, s) <==> Visits(events[..|events| - 1], s) || Run(events).value.state == s
  {
    var n := |events|;
    var prefix := events[..n - 1];
    hide RuleFor, ApplyTransition, Run;
    assert events[..n] == events;
    forall i | 0 <= i < n ensures prefix[..i] == events[..i] {}
    if Visits(events, s) {
      var i :| 0 <= i <= n && Run(events[..i]).Success? && Run(events[..i]).value.state == s;
      if i < n {
        assert Run(prefix[..i]).value.state == s;
      }
    }
    if Visits(prefix, s) {
      var i :| 0 <= i <= n - 1 && Run(prefix[..i]).Success? && Run(prefix[..i]).value.state == s;
      assert Run(events[..i]).value.state == s;
    }
  }

  /** Which states can follow, and which cannot follow, the commit boundary. */
  predicate PastCommit(s: TransactionState) {
    || s.Committing? || s.Committed? || s.Failed? || s.InDoubt? || s.Reconciling?
    || s.RollingBack? || s.RolledBack? || s.Compensating? || s.Compensated? || s.CompensationFailed?
  }

  predicate BeforeCommit(s: TransactionState) {
    || s.New? || s.Planned? || s.AuthorizedToStage? || s.Staging? || s.Staged?
    || s.StageVerified? || s.AwaitingApproval? || s.ReadyToCommit? || s.Rejected?
  }

  /** What a configuration tells about the run behind it, `crossed` saying whether the run went
      through COMMITTING. */
  predicate Explained(c: Config, crossed: bool) {
    && (PastCommit(c.state) ==> crossed && c.intended.None?)
    && (BeforeCommit(c.state) ==> !crossed && c.intended.None?)
    && (c.intended == Some(IntendStale) ==> !crossed)
    && (c.state == TransactionState.StaleState ==> c.intended == Some(IntendStale))
    && (c.state == Aborted ==> c.intended == Some(IntendAborted))
    && (c.state == Aborting ==> c.intended.Some?)
  }

  function After(c: Config, e: TransitionEvent): Config
    requires ApplyTransition(c.state, e, c.intended).Success?
  {
    var d := ApplyTransition(c.state, e, c.intended).value;
    Config(d.target, d.intended)
  }

  lemma EarlyRows(e: TransitionEvent)
    requires BeforeCommit(RowOf(e).source)
    ensures RowOf(e).rule.ToAborting? || RowOf(e).rule.To?
    ensures RowOf(e).rule.To? ==>
              BeforeCommit(RowOf(e).rule.target) || RowOf(e).rule.target == Committing
  {
  }

  lemma LateRows(e: TransitionEvent)
    requires !BeforeCommit(RowOf(e).source)
    ensures RowOf(e).rule.Complete? ==> RowOf(e).source == Aborting
    ensures RowOf(e).rule.ToAborting? ==>
              RowOf(e).rule.outcome == IntendAborted && PastCommit(RowOf(e).source)
    ensures RowOf(e).rule.To? ==>
              var t := RowOf(e).rule.target;
              || t == RecoveryFailed
              || (PastCommit(t) && t != Committing && PastCommit(RowOf(e).source))
  {
  }

  lemma EarlyStepKeepsExplained(c: Config, crossed: bool, e: TransitionEvent)
    requires Explained(c, crossed) && ApplyTransition(c.state, e, c.intended).Success?
    requires IsStop(e) || BeforeCommit(c.state)
    ensures Explained(After(c, e), crossed || After(c, e).state == Committing)
  {
    hide RowOf;
    if IsStop(e) {
      StopRows(e);
    } else {
      EarlyRows(e);
    }
  }

  lemma LateStepKeepsExplained(c: Config, crossed: bool, e: TransitionEvent)
    requires Explained(c, crossed) && ApplyTransition(c.state, e, c.intended).Success?
    requires !IsStop(e) && !BeforeCommit(c.state)
    ensures Explained(After(c, e), crossed || After(c, e).state == Committing)
  {
    hide RowOf;
    LateRows(e);
  }

  lemma StepKeepsExplained(c: Config, crossed: bool, e: TransitionEvent)
    requires Explained(c, crossed)
    requires ApplyTransition(c.state, e, c.intended).Success?
    ensures Explained(After(c, e), crossed || After(c, e).state == Committing)
  {
    hide Explained, ApplyTransition;
    if IsStop(e) || BeforeCommit(c.state) {
      EarlyStepKeepsExplained(c, crossed, e);
    } else {
      LateStepKeepsExplained(c, crossed, e);
    }
  }

  /** COMMITTED, like every state past the commit boundary, is reached only through COMMITTING;
      STALE_STATE is never reached through it; a reachable ABORTING carries an outcome. */
  lemma {:induction false} RunsAreOrdered(events: seq<TransitionEvent>)
    requires Run(events).Success?
    ensures Explained(Run(events).value, Visits(events, Committing))
  {
    if events == [] {
      forall i | 0 <= i <= |events| ensures Run(events[..i]).value.state == New {
        assert events[..i] == [];
      }
    } else {
      var prefix := events[..|events| - 1];
      RunsAreOrdered(prefix);
      StepKeepsExplained(Run(prefix).value, Visits(prefix, Committing), events[|events| - 1]);
      VisitsSnoc(events, Committing);
      hide Explained, ApplyTransition, Visits;
    }
  }

  /** A reachable ABORTING can always be completed, and completes to its durable outcome. */
  lemma ReachableAbortCompletes(events: seq<TransitionEvent>)
    requires Run(events).Success? && Run(events).value.state == Aborting
    ensures Run(events).value.intended.Some?
    ensures Run(events + [StagingDiscardSucceeded]).Success?
    ensures Run(events + [StagingDiscardSucceeded]).value.state ==
            OutcomeState(Run(events).value.intended.value)
  {
    RunsAreOrdered(events);
    RunSnoc(events, StagingDiscardSucceeded);
  }
}
