/** Where operations of a session can end, and what an abort has discarded. */
module ProtocolClosing {
  import opened Wrappers
  import opened StateMachine
  import opened Protocol
  import opened ProtocolLocal

  /** A session at rest, with storage that worked throughout. */
  predicate RestOk(me: Session) {
    || me.record.state == New
    || Settled(me.record.state)
    || (me.record.state == Aborting && me.abortRaised)
  }

  /** An exit goes through CONTEXT_EXITED and the discard, or has nothing to do. */
  predicate ExitOk(me: Session) {
    match me.point
    case AtRest => me.record.state != New && me.record.state != ReadyToCommit
    case AtDiscard => true
    case AtSend(event, next) =>
      || (event == ContextExited && next == ThenDiscard)
      || ((event == StagingDiscardSucceeded || event == StagingDiscardFailed) && next == ThenRest)
    case _ => false
  }

  /** What an aborted attempt held is gone. */
  predicate DiscardOk(me: Session) {
    me.record.state.Aborted? || me.record.state.StaleState?
    || (me.point.AtSend? && me.point.event == StagingDiscardSucceeded) ==>
      me.effect.None? || me.discarded
  }

  predicate ClosedOk(me: Session) {
    && (me.storage == AllWorked && me.point == AtRest ==> RestOk(me))
    && (me.storage == AllWorked && me.operation == Exiting ==> ExitOk(me))
    && DiscardOk(me)
  }

  lemma StopIsClosed(me: Session)
    requires ClosedOk(me)
    ensures ClosedOk(Stop(me))
  {}

  lemma OpenIsClosed(me: Session, id: string, op: Operation, env: Env)
    requires LocalOk(me, id) && ClosedOk(me) && me.point == AtRest && me.plan.Some?
    ensures ClosedOk(me.(operation := op, point := Open(me, op, env)))
  {}

  lemma TalkingOutcome(me: Session, plan: M.EffectPlan, mock: M.Adapter, env: Env)
    requires Conversing(me.point) && !me.point.AtDiscard?
    ensures var me' := Converse(me, plan, mock, env).0;
            && me'.record == me.record && me'.operation == me.operation
            && me'.storage == me.storage
            && (me'.point == AtRest ==> me.point.AtReinspect?)
            && (me'.point.AtSend? ==> me'.point.event != StagingDiscardSucceeded)
  {
    hide M.Stage, M.Execute, M.Inspect, M.Abort;
  }

  lemma TalkingIsClosed(me: Session, id: string, mock: M.Adapter, env: Env)
    requires LocalOk(me, id) && ClosedOk(me) && me.plan.Some? && Conversing(me.point)
    requires !me.point.AtDiscard?
    ensures ClosedOk(Converse(me, me.plan.value, mock, env).0)
  {
    ConversingState(me, id);
    TalkingOutcome(me, me.plan.value, mock, env);
    hide LocalOk, Converse;
  }

  lemma DiscardingIsClosed(me: Session, id: string, mock: M.Adapter, env: Env)
    requires LocalOk(me, id) && ClosedOk(me) && me.plan.Some? && me.point.AtDiscard?
    ensures ClosedOk(Converse(me, me.plan.value, mock, env).0)
  {
    ConversingState(me, id);
    hide LocalOk, M.Stage, M.Execute, M.Inspect, M.Abort;
  }

  lemma ConversingState(me: Session, id: string)
    requires LocalOk(me, id) && Conversing(me.point)
    ensures me.point.AtReinspect? ==> me.record.state == ReadyToCommit
    ensures me.point.AtDiscard? ==> me.record.state == Aborting
    ensures me.staged.Some? ==> me.effect.Some?
    ensures !me.record.state.Aborted? && !me.record.state.StaleState?
  {}

  lemma OutcomeNeedsDiscard(s: TransactionState, e: TransitionEvent, o: Option<IntendedOutcome>)
    requires ApplyTransition(s, e, o).Success?
    ensures var t := ApplyTransition(s, e, o).value.target;
            && (t.Aborted? || t.StaleState? ==> e == StagingDiscardSucceeded)
            && (e == StagingDiscardSucceeded || e == StagingDiscardFailed ==>
                  t != New && t != ReadyToCommit)
  {}

  lemma SendIsClosed(me: Session, event: TransitionEvent, next: Next, now: int, reason: Option<string>)
    requires me.point == AtSend(event, next) && SendOk(event, next, Hold(me)) && ClosedOk(me)
    requires next == ThenFinishAbort ==> me.effect.None?
    ensures var d := ApplyTransition(me.record.state, event, me.record.intended).value;
            ClosedOk(me.(record := Journal.Advance(me.record, d, now, event, reason),
                         point := Resume(next)))
  {
    OutcomeNeedsDiscard(me.record.state, event, me.record.intended);
    hide ApplyTransition, Recovers, Equipped;
  }
}
