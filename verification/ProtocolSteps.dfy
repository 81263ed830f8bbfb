/** One invariant over the whole system, and every step keeps it. */
module ProtocolSteps {
  import opened Wrappers
  import opened StateMachine
  import opened Ledger
  import opened Domain
  import opened Journal
  import opened Protocol
  import opened ProtocolLocal
  import opened ProtocolSync
  import opened ProtocolOwners
  import opened ProtocolEffects
  import opened ProtocolSerial
  import opened ProtocolClosing

  ghost predicate AllClosed(s: System) {
    forall id | id in s.sessions :: ClosedOk(s.sessions[id])
  }

  ghost predicate Inv(s: System, initial: M.Values, first: nat) {
    && Synced(s) && Owned(s) && Truthful(s)
    && Serial(s, initial, first) && Recorded(s) && AllClosed(s)
  }

  /** A step of one session that leaves its record, its plan and everything shared alone. */
  ghost predicate Moves(me: Session, me': Session, id: string, initial: M.Values, first: nat,
                        writes: seq<Write>)
  {
    && me'.record == me.record && me'.plan == me.plan
    && LocalOk(me', id) && Quiet(me, me') && Carries(me, me')
    && CopyOk(me', initial, first, writes) && ClosedOk(me')
  }

  lemma MoveKeepsInv(s: System, s': System, id: string, me: Session, initial: M.Values, first: nat)
    requires Inv(s, initial, first) && id in s.sessions
    requires Moves(s.sessions[id], me, id, initial, first, s.writes)
    requires s' == s.(sessions := s.sessions[id := me], mock := s'.mock)
    requires s.mock == s'.mock.(stages := s.mock.stages)
    ensures Inv(s', initial, first)
  {
    hide LocalOk, Quiet, Carries, CopyOk, ClosedOk, Synced, Owned, Truthful, Serial, Recorded;
    PointKeepsSync(s, s', id, me);
    QuietKeepsOwners(s, s', id, me);
    CarryKeepsTruth(s, s', id, me);
    SessionKeepsSerial(s, s', id, me, initial, first);
    SessionKeepsRecord(s, s', id, me);
  }

  /** The rest of the invariant, when the session keeps its plan and nothing is written. */
  lemma CarriedInv(s: System, s': System, id: string, me: Session, initial: M.Values, first: nat)
    requires Inv(s, initial, first) && id in s.sessions
    requires Synced(s') && Owned(s')
    requires s'.sessions == s.sessions[id := me] && me.plan == s.sessions[id].plan
    requires s'.mock == s.mock && s'.writes == s.writes
    requires s'.tables.receipts == s.tables.receipts
    requires Carries(s.sessions[id], me) && CopyOk(me, initial, first, s.writes) && ClosedOk(me)
    ensures Inv(s', initial, first)
  {
    hide Carries, CopyOk, ClosedOk, Synced, Owned, Truthful, Serial, Recorded;
    CarryKeepsTruth(s, s', id, me);
    SessionKeepsSerial(s, s', id, me, initial, first);
    SessionKeepsRecord(s, s', id, me);
  }

  /** What the invariant says about one session. */
  lemma Parts(s: System, id: string, initial: M.Values, first: nat)
    requires Inv(s, initial, first) && id in s.sessions
    ensures LocalOk(s.sessions[id], id) && ClosedOk(s.sessions[id])
    ensures CopyOk(s.sessions[id], initial, first, s.writes)
    ensures OwnerOk(s.sessions[id], id, s.tables.intents)
    ensures EffectOk(s.sessions[id], s.mock.receipts, s.tables.receipts)
    ensures id in s.tables.transactions && RowOk(s.tables.transactions[id], s.sessions[id], id)
  {
    hide LocalOk, ClosedOk, CopyOk, OwnerOk, EffectOk, RowOk;
  }

  lemma StopKeepsInv(s: System, id: string, initial: M.Values, first: nat)
    requires Inv(s, initial, first) && id in s.sessions
    ensures Inv(With(s, id, Stop(s.sessions[id])), initial, first)
  {
    hide LocalOk, Quiet, Carries, CopyOk, ClosedOk, Inv;
    var me := s.sessions[id];
    Parts(s, id, initial, first);
    StopIsLocal(me, id);
    StopIsQuiet(me, id);
    StopCarries(me);
    SameCopy(me, Stop(me), initial, first, s.writes);
    StopIsClosed(me);
    MoveKeepsInv(s, With(s, id, Stop(me)), id, Stop(me), initial, first);
  }

  lemma StopIsLocal(me: Session, id: string)
    requires LocalOk(me, id)
    ensures LocalOk(Stop(me), id)
  {
    hide SteadyOk;
  }

  // ----- admission and inspection --------------------------------------------------------------

  lemma AdmitOutcome(hash: EventHash, s: System, p: M.Proposal, env: Env)
    ensures var s' := DoAdmit(hash, s, p, env);
            var id := p.transactionId;
            || s' == s
            || (var me := Session(p, None, NewRecord(id, p.goalId, env.stamp.now), None, None, false,
                                  AtAdmission, Opening, false, false, AllWorked);
                && id !in s.tables.transactions
                && s'.sessions == s.sessions[id := me]
                && s'.tables.intents == s.tables.intents && s'.tables.receipts == s.tables.receipts
                && s'.mock == s.mock && s'.writes == s.writes && s'.grants == s.grants)
  {
    hide NextEvent, Insertable;
  }

  lemma AdmitKeepsInv(hash: EventHash, s: System, p: M.Proposal, env: Env,
                      initial: M.Values, first: nat)
    requires Inv(s, initial, first)
    ensures Inv(DoAdmit(hash, s, p, env), initial, first)
  {
    var s' := DoAdmit(hash, s, p, env);
    var id := p.transactionId;
    if s' != s {
      AdmitKeepsSync(hash, s, p, env);
      AdmitOutcome(hash, s, p, env);
      assert id !in s.sessions by { hide LocalOk, RowOk; }
      var me := s'.sessions[id];
      assert !Holds(me) && !AfterReceipt(me) && ClosedOk(me);
      hide DoAdmit, Synced, Owned, Truthful, Serial, Recorded, ClosedOk, CopyOk, Holds, AfterReceipt;
      FreshKeepsOwners(s, s', id, me);
      FreshKeepsTruth(s, s', id, me);
      FreshCopy(me, initial, first, s.writes);
      SessionKeepsSerial(s, s', id, me, initial, first);
      SessionKeepsRecord(s, s', id, me);
    }
  }

  /** A move that only changes the point, from a point that says nothing to another such point. */
  lemma StepAside(me: Session, me': Session, id: string, initial: M.Values, first: nat,
                  writes: seq<Write>)
    requires LocalOk(me', id) && ClosedOk(me') && CopyOk(me', initial, first, writes)
    requires me'.record == me.record && me'.plan == me.plan && me'.storage == me.storage
    requires !me.point.AtLink? && !me'.point.AtLink? && me'.point != AtSend(ProposalValid, ThenAuthorize)
    requires BeforeEffect(me'.point) ==> BeforeEffect(me.point) || !CommitSide(me.record.state)
    requires AfterReceipt(me') ==> AfterReceipt(me)
    requires !me'.point.AtReceipt?
    ensures Moves(me, me', id, initial, first, writes)
  {
    hide LocalOk, ClosedOk, CopyOk, Quiet, Carries, BeforeEffect, AfterReceipt, CommitSide;
    LocalMoveIsQuiet(me, me');
    PointCarries(me, me');
  }

  lemma OpeningPoints(me: Session, id: string, p: Point)
    requires LocalOk(me, id) && ClosedOk(me) && (me.point == AtAdmission || me.point == AtInspect)
    requires p == AtInspect || p.AtBind? || exists e :: p == Refuse(e)
    ensures ClosedOk(me.(point := p))
    ensures p != AtSend(ProposalValid, ThenAuthorize) && !p.AtLink? && !p.AtReceipt?
    ensures !BeforeEffect(p) && !AfterReceipt(me.(point := p))
  {
    assert me.record.state == New && me.effect.None? by { AdmittingState(me, id); }
    hide LocalOk;
  }

  lemma AdmittingState(me: Session, id: string)
    requires LocalOk(me, id) && (me.point == AtAdmission || me.point == AtInspect)
    ensures me.record.state == New && me.effect.None?
  {}

  lemma OpeningKeepsInv(s: System, id: string, p: Point, initial: M.Values, first: nat)
    requires Inv(s, initial, first) && id in s.sessions
    requires s.sessions[id].point == AtAdmission || s.sessions[id].point == AtInspect
    requires p == AtInspect || p == AtBind(M.Inspect(s.mock, s.sessions[id].proposal))
             || exists e :: p == Refuse(e)
    ensures Inv(With(s, id, s.sessions[id].(point := p)), initial, first)
  {
    var me := s.sessions[id];
    var me' := me.(point := p);
    var s' := With(s, id, me');
    Parts(s, id, initial, first);
    OpeningPoints(me, id, p);
    OpeningLocal(me, id, s.mock, p);
    if p.AtBind? {
      InspectedCopy(s, id, initial, first);
    } else {
      SameCopy(me, me', initial, first, s.writes);
    }
    hide Inv, LocalOk, ClosedOk, CopyOk, Refuse, BeforeEffect, AfterReceipt, CommitSide, Moves;
    StepAside(me, me', id, initial, first, s.writes);
    MoveKeepsInv(s, s', id, me', initial, first);
  }

  lemma OpeningLocal(me: Session, id: string, mock: M.Adapter, p: Point)
    requires LocalOk(me, id) && (me.point == AtAdmission || me.point == AtInspect)
    requires p == AtInspect || p == AtBind(M.Inspect(mock, me.proposal)) || exists e :: p == Refuse(e)
    ensures LocalOk(me.(point := p), id)
  {
    if p != AtInspect && !p.AtBind? {
      hide SteadyOk, SendOk;
      AdmittingState(me, id);
      var e :| p == Refuse(e);
      AdmittingPlan(me, id);
      RefuseIsLegal(Hold(me), id, e);
    } else {
      hide SendOk, Refuse;
    }
  }

  lemma AdmittingPlan(me: Session, id: string)
    requires LocalOk(me, id) && (me.point == AtAdmission || me.point == AtInspect)
    ensures me.plan.None?
  {
    hide SteadyOk;
  }

  /** The inspected intent is bound to the row and to the session. */
  lemma BoundKeepsInv(s: System, s': System, id: string, plan: M.EffectPlan,
                      record: TransactionRecord, initial: M.Values, first: nat)
    requires Inv(s, initial, first) && id in s.sessions && s.sessions[id].point == AtBind(plan)
    requires record == s.sessions[id].record.(intentHash := Some(plan.intentHash))
    requires s'.sessions == s.sessions[id := s.sessions[id].(plan := Some(plan), record := record,
                                               point := AtRest)]
    requires s'.tables.intents == s.tables.intents && s'.tables.receipts == s.tables.receipts
    requires s'.mock == s.mock && s'.writes == s.writes && s'.grants == s.grants
    requires Synced(s')
    ensures Inv(s', initial, first)
  {
    hide LocalOk, ClosedOk, CopyOk, EffectOk, OwnerOk, RowOk, Quiet, Carries,
         Synced, Owned, Truthful, Serial, Recorded;
    var me, me' := s.sessions[id], s'.sessions[id];
    Parts(s, id, initial, first);
    BindClosed(me, id, plan, record);
    BindIsQuiet(me, id, plan, record);
    BindingState(me, id, plan);
    QuietKeepsOwners(s, s', id, me');
    BindKeepsTruth(s, s', id, plan, record);
    BoundCopy(me, plan, record, initial, first, s.writes);
    SessionKeepsSerial(s, s', id, me', initial, first);
    SessionKeepsRecord(s, s', id, me');
  }

  lemma BindKeepsInv(s: System, id: string, plan: M.EffectPlan, env: Env, initial: M.Values, first: nat)
    requires Inv(s, initial, first) && id in s.sessions && s.sessions[id].point == AtBind(plan)
    ensures Inv(DoBind(s, id, s.sessions[id], plan, env), initial, first)
  {
    hide LocalOk, ClosedOk, CopyOk, EffectOk, OwnerOk, RowOk, Quiet, Carries;
    var me := s.sessions[id];
    var s' := DoBind(s, id, me, plan, env);
    Parts(s, id, initial, first);
    BindOutcome(s, id, plan, env);
    BindKeepsSync(s, id, plan, env);
    hide DoBind, Synced, Owned, Truthful, Serial, Recorded, Moves;
    if s'.sessions[id].point == AtRest {
      BoundKeepsInv(s, s', id, plan, s'.sessions[id].record, initial, first);
    } else {
      BindFailureMoves(me, id, plan, initial, first, s.writes);
      MoveKeepsInv(s, s', id, s'.sessions[id], initial, first);
    }
  }

  lemma BindFailureMoves(me: Session, id: string, plan: M.EffectPlan, initial: M.Values, first: nat,
                         writes: seq<Write>)
    requires LocalOk(me, id) && ClosedOk(me) && CopyOk(me, initial, first, writes)
    requires me.point == AtBind(plan)
    ensures Moves(me, me.(point := AtSend(ValidationFailed, ThenRest), storage := AfterFailure(me)), id,
                  initial, first, writes)
  {
    var me' := me.(point := AtSend(ValidationFailed, ThenRest), storage := AfterFailure(me));
    BindKeepsLocal(Hold(me), id, plan);
    BindIsQuiet(me, id, plan, me.record);
    BindClosed(me, id, plan, me.record);
    BindFailureCarries(me, id, plan);
    SameCopy(me, me', initial, first, writes);
    hide Quiet, ClosedOk, Carries, CopyOk, SteadyOk, PointOk;
  }

  lemma BindClosed(me: Session, id: string, plan: M.EffectPlan, record: TransactionRecord)
    requires LocalOk(me, id) && ClosedOk(me) && me.point == AtBind(plan)
    requires record == me.record.(intentHash := record.intentHash)
    ensures ClosedOk(me.(plan := Some(plan), record := record, point := AtRest))
    ensures ClosedOk(me.(point := AtSend(ValidationFailed, ThenRest), storage := AfterFailure(me)))
  {
    BindingState(me, id, plan);
    hide LocalOk;
  }

  lemma BindFailureCarries(me: Session, id: string, plan: M.EffectPlan)
    requires LocalOk(me, id) && me.point == AtBind(plan)
    ensures Carries(me, me.(point := AtSend(ValidationFailed, ThenRest), storage := AfterFailure(me)))
  {
    BindingState(me, id, plan);
    hide LocalOk;
    PointCarries(me, me.(point := AtSend(ValidationFailed, ThenRest), storage := AfterFailure(me)));
  }

  // ----- transitions -------------------------------------------------------------------------

  lemma SendKeepsInv(hash: EventHash, s: System, id: string, event: TransitionEvent, next: Next,
                     env: Env, initial: M.Values, first: nat)
    requires Inv(s, initial, first) && id in s.sessions && s.sessions[id].point == AtSend(event, next)
    ensures Inv(DoSend(hash, s, id, s.sessions[id], event, next, env), initial, first)
  {
    hide LocalOk, ClosedOk, CopyOk, EffectOk, OwnerOk, RowOk, Quiet, Carries, ApplyTransition, Resume,
         SendOk, SteadyOk;
    var me := s.sessions[id];
    var s' := DoSend(hash, s, id, me, event, next, env);
    Parts(s, id, initial, first);
    SendOutcome(hash, s, id, event, next, env);
    SendKeepsSync(hash, s, id, event, next, env);
    hide DoSend, Synced, Owned, Truthful, Serial, Recorded;
    if s' == With(s, id, Stop(me)) {
      StopKeepsInv(s, id, initial, first);
    } else {
      var me' := s'.sessions[id];
      SendIsLegal(me, id, event, next);
      SendIsQuiet(me, event, next, env.stamp.now, env.reason);
      SendCarries(me, event, next, env.stamp.now, env.reason);
      FinishAbortHoldsNothing(me, id, event, next);
      SendIsClosed(me, event, next, env.stamp.now, env.reason);
      ResumeIsNotBind(next);
      QuietKeepsOwners(s, s', id, me');
      SameCopy(me, me', initial, first, s.writes);
      CarriedInv(s, s', id, me', initial, first);
    }
  }

  lemma ResumeIsNotBind(next: Next)
    ensures !Resume(next).AtBind?
  {}

  /** `transaction()` aborts before anything was staged. */
  lemma FinishAbortHoldsNothing(me: Session, id: string, event: TransitionEvent, next: Next)
    requires LocalOk(me, id) && me.point == AtSend(event, next)
    ensures next == ThenFinishAbort ==> me.effect.None?
  {}

  // ----- reservation ---------------------------------------------------------------------------

  lemma ReserveKeepsInv(s: System, id: string, env: Env, initial: M.Values, first: nat)
    requires Inv(s, initial, first) && id in s.sessions && s.sessions[id].point == AtReserve
    requires s.sessions[id].plan.Some?
    ensures Inv(DoReserve(s, id, s.sessions[id], s.sessions[id].plan.value.intentHash, env), initial, first)
  {
    hide LocalOk, ClosedOk, CopyOk, Carries, Synced, Owned, Truthful, Serial, Recorded, DoReserve,
         Replaceable;
    var me := s.sessions[id];
    var s' := DoReserve(s, id, me, me.plan.value.intentHash, env);
    Parts(s, id, initial, first);
    ReserveOutcome(s, id, env);
    ReserverIsUnlinked(s, id);
    ReserveKeepsSync(s, id, env);
    ReserveKeepsOwners(s, id, env);
    if s' == With(s, id, Stop(me)) {
      StopKeepsInv(s, id, initial, first);
    } else {
      var me' := s'.sessions[id];
      ReservedMoves(me, me', id);
      SameCopy(me, me', initial, first, s.writes);
      CarriedInv(s, s', id, me', initial, first);
    }
  }

  lemma ReservedMoves(me: Session, me': Session, id: string)
    requires LocalOk(me, id) && ClosedOk(me) && me.point == AtReserve
    requires me' == me.(point := me'.point)
    requires me'.point.AtLink? || me'.point == AtSend(ProposalValid, ThenAuthorize)
             || me'.point == AtSend(ValidationFailed, ThenRest)
    ensures Carries(me, me') && ClosedOk(me')
  {
    ReservingState(me, id);
    hide LocalOk;
    PointCarries(me, me');
    EnteringIsClosed(me, me');
  }

  lemma EnteringIsClosed(me: Session, me': Session)
    requires ClosedOk(me) && me.record.state == New && me' == me.(point := me'.point)
    requires me.point == AtReserve || me.point.AtLink?
    requires me'.point.AtLink? || me'.point == AtSend(ProposalValid, ThenAuthorize)
             || me'.point == AtSend(ValidationFailed, ThenRest)
    ensures ClosedOk(me')
  {}

  lemma ReserveKeepsOwners(s: System, id: string, env: Env)
    requires Synced(s) && Owned(s) && id in s.sessions && s.sessions[id].point == AtReserve
    requires s.sessions[id].plan.Some?
    ensures Owned(DoReserve(s, id, s.sessions[id], s.sessions[id].plan.value.intentHash, env))
  {
    hide LocalOk, OwnerOk, RowOk, Quiet, Replaceable;
    var me := s.sessions[id];
    var intent := me.plan.value.intentHash;
    var s' := DoReserve(s, id, me, intent, env);
    ReserveOutcome(s, id, env);
    ReserverIsUnlinked(s, id);
    assert LocalOk(me, id);
    ReservingState(me, id);
    assert intent in s.tables.intents ==> intent in s.grants && GrantsOf(s, intent);
    assert intent in s.grants ==> GrantsOf(s, intent);
    hide Synced, DoReserve, GrantOk, LinkedOk;
    if s' == With(s, id, Stop(me)) {
      StopIsQuiet(me, id);
      QuietKeepsOwners(s, s', id, Stop(me));
    } else if s'.sessions[id].point == AtSend(ValidationFailed, ThenRest) {
      LocalMoveIsQuiet(me, s'.sessions[id]);
      QuietKeepsOwners(s, s', id, s'.sessions[id]);
    } else if s'.grants == s.grants {
      OwnerMayPropose(s, id);
    } else {
      if intent in s.tables.intents {
        ReplaceableIsSafe(s, s.tables.intents[intent]);
      }
      GrantKeepsOwners(s, s', id, intent, s'.sessions[id].point);
    }
  }

  lemma ReplaceableIsSafe(s: System, owner: string)
    requires Synced(s) && Replaceable(s.tables, owner)
    ensures owner in s.sessions && SafeNoEffect(s.sessions[owner].record.state)
  {
    hide LocalOk;
  }

  lemma LinkKeepsInv(s: System, id: string, previous: string, env: Env, initial: M.Values, first: nat)
    requires Inv(s, initial, first) && id in s.sessions && s.sessions[id].point == AtLink(previous)
    ensures Inv(DoLink(s, id, s.sessions[id], previous, env), initial, first)
  {
    hide LocalOk, ClosedOk, CopyOk, Carries, Synced, Owned, Truthful, Serial, Recorded, DoLink;
    var me := s.sessions[id];
    var s' := DoLink(s, id, me, previous, env);
    Parts(s, id, initial, first);
    LinkOutcome(s, id, previous, env);
    LinkKeepsSync(s, id, previous, env);
    if s' == With(s, id, Stop(me)) {
      StopKeepsInv(s, id, initial, first);
    } else {
      var me' := s'.sessions[id];
      LinkingKeepsOwners(s, s', id, previous, me'.record);
      LinkedMoves(me, id, previous);
      SameCopy(me, me', initial, first, s.writes);
      CarriedInv(s, s', id, me', initial, first);
    }
  }

  lemma LinkedMoves(me: Session, id: string, previous: string)
    requires LocalOk(me, id) && ClosedOk(me) && me.point == AtLink(previous)
    ensures var me' := me.(record := me.record.(supersedes := Some(previous)),
                           point := AtSend(ProposalValid, ThenAuthorize));
            Carries(me, me') && ClosedOk(me')
  {
    LinkingState(me, id, previous);
    hide LocalOk;
  }

  lemma LinkingState(me: Session, id: string, previous: string)
    requires LocalOk(me, id) && me.point == AtLink(previous)
    ensures me.record.state == New && me.effect.None?
  {}

  // ----- adapter calls -------------------------------------------------------------------------

  lemma ConverseSends(me: Session, plan: M.EffectPlan, mock: M.Adapter, env: Env)
    requires Conversing(me.point)
    ensures var p := Converse(me, plan, mock, env).0.point;
            || p == AtRest || p == AtExecute
            || (p.AtSend? && p.event != CommitFailedNoEffect
                && (p.event == CommitVerified || p.event == CommitPartialOrInvalid ==>
                      me.point.AtVerifyCommitted?))
            || (p == me.point && p == AtExecute)
  {
    hide M.Stage, M.Execute, M.Inspect, M.Abort;
  }

  lemma ConverseMoves(me: Session, mock: M.Adapter, env: Env)
    requires me.plan.Some? && Conversing(me.point)
    ensures var me' := Converse(me, me.plan.value, mock, env).0;
            && !BeforeEffect(me'.point) && !me'.point.AtReceipt?
            && (AfterReceipt(me') ==> AfterReceipt(me))
  {
    ConverseSends(me, me.plan.value, mock, env);
    ConverseKeepsRecord(me, mock, env);
    hide Converse;
  }

  lemma ConverseKeepsInv(s: System, id: string, env: Env, initial: M.Values, first: nat)
    requires Inv(s, initial, first) && id in s.sessions && Conversing(s.sessions[id].point)
    requires s.sessions[id].plan.Some?
    ensures var (me', mock') := Converse(s.sessions[id], s.sessions[id].plan.value, s.mock, env);
            Inv(With(s.(mock := mock'), id, me'), initial, first)
  {
    hide LocalOk, ClosedOk, CopyOk, Carries, Synced, Owned, Truthful, Recorded, Converse,
         Moves, BeforeEffect, AfterReceipt, CommitSide;
    var me := s.sessions[id];
    var (me', mock') := Converse(me, me.plan.value, s.mock, env);
    Parts(s, id, initial, first);
    ConverseKeepsLocal(me, id, s.mock, env);
    ConverseKeepsRecord(me, s.mock, env);
    ConverseHoldsNothing(me, me.plan.value, s.mock, env);
    ConverseKeepsTarget(me, me.plan.value, s.mock, env);
    StagedCopy(s, id, env, initial, first);
    hide Serial;
    ConverseMoves(me, s.mock, env);
    if me.point.AtDiscard? {
      DiscardingIsClosed(me, id, s.mock, env);
    } else {
      TalkingIsClosed(me, id, s.mock, env);
    }
    StepAside(me, me', id, initial, first, s.writes);
    MoveKeepsInv(s, With(s.(mock := mock'), id, me'), id, me', initial, first);
  }

  lemma StartKeepsInv(s: System, id: string, op: Operation, env: Env, initial: M.Values, first: nat)
    requires Inv(s, initial, first) && id in s.sessions && s.sessions[id].point == AtRest
    requires s.sessions[id].plan.Some?
    ensures var me := s.sessions[id];
            Inv(With(s, id, me.(operation := op, point := Open(me, op, env))), initial, first)
  {
    var me := s.sessions[id];
    var me' := me.(operation := op, point := Open(me, op, env));
    Parts(s, id, initial, first);
    OpenIsLegal(me, id, op, env);
    OpenIsClosed(me, id, op, env);
    OpenHoldsNothing(me, op, env);
    OpenSaysNothing(me, op, env);
    hide Open, ClosedOk, CopyOk, Inv, Moves, BeforeEffect, AfterReceipt, CommitSide, SteadyOk, PointOk;
    SameCopy(me, me', initial, first, s.writes);
    StepAside(me, me', id, initial, first, s.writes);
    MoveKeepsInv(s, With(s, id, me'), id, me', initial, first);
  }

  lemma OpenSaysNothing(me: Session, op: Operation, env: Env)
    requires me.point == AtRest
    ensures var me' := me.(operation := op, point := Open(me, op, env));
            && !BeforeEffect(me'.point) && !me'.point.AtReceipt? && !me'.point.AtBind?
            && (AfterReceipt(me') ==> AfterReceipt(me))
  {}

  lemma ReceiptKeepsInv(s: System, id: string, receipt: EffectReceipt, env: Env,
                        initial: M.Values, first: nat)
    requires Inv(s, initial, first) && id in s.sessions && s.sessions[id].point == AtReceipt(receipt)
    ensures Inv(DoReceipt(s, id, s.sessions[id], receipt, env), initial, first)
  {
    hide LocalOk, ClosedOk, CopyOk, Carries, Synced, Owned, Truthful, Serial, Recorded, DoReceipt,
         AllClosed, Moves, Quiet;
    var me := s.sessions[id];
    var s' := DoReceipt(s, id, me, receipt, env);
    Parts(s, id, initial, first);
    ReceiptOutcome(s, id, receipt, env);
    ReceiptKeepsSync(s, id, receipt, env);
    var me' := s'.sessions[id];
    ReceiptMoves(me, me', id, receipt);
    SameCopy(me, me', initial, first, s.writes);
    QuietKeepsOwners(s, s', id, me');
    SessionKeepsSerial(s, s', id, me', initial, first);
    SessionKeepsRecord(s, s', id, me');
    if me'.point == AtVerifyCommitted {
      StoringKeepsTruth(s, s', id, receipt);
    } else {
      CarryKeepsTruth(s, s', id, me');
    }
    assert AllClosed(s') by { hide *; ClosedAgain(s, s', id, me'); }
  }

  lemma ClosedAgain(s: System, s': System, id: string, me: Session)
    requires AllClosed(s) && ClosedOk(me) && s'.sessions == s.sessions[id := me]
    ensures AllClosed(s')
  {
    hide ClosedOk;
  }

  lemma ReceiptMoves(me: Session, me': Session, id: string, receipt: EffectReceipt)
    requires LocalOk(me, id) && ClosedOk(me) && me.point == AtReceipt(receipt)
    requires me' == me.(point := me'.point)
    requires me'.point == AtVerifyCommitted || me'.point == AtSend(CommitOutcomeUnknown, ThenRest)
    ensures Quiet(me, me') && ClosedOk(me')
    ensures me'.point != AtVerifyCommitted ==> Carries(me, me')
  {
    CommittingState(me, id);
    LocalMoveIsQuiet(me, me');
    hide LocalOk, Quiet;
    if me'.point != AtVerifyCommitted {
      PointCarries(me, me');
    }
  }

  // ----- the commit ------------------------------------------------------------------------------

  /** `adapter.commit` changed nothing: the session goes to where the exception leads. */
  lemma FailedCommitKeepsInv(s: System, id: string, e: Exception, initial: M.Values, first: nat)
    requires Inv(s, initial, first) && id in s.sessions && s.sessions[id].point.AtCommit?
    ensures Inv(With(s, id, s.sessions[id].(point := CommitFault(e))), initial, first)
  {
    hide LocalOk, ClosedOk, CopyOk, Inv, Moves, BeforeEffect, AfterReceipt, CommitSide, CommitFault;
    var me := s.sessions[id];
    var me' := me.(point := CommitFault(e));
    Parts(s, id, initial, first);
    CommitFaultLocal(me, id, e);
    CommitFaultSays(me, id, e);
    SameCopy(me, me', initial, first, s.writes);
    StepAside(me, me', id, initial, first, s.writes);
    MoveKeepsInv(s, With(s, id, me'), id, me', initial, first);
  }

  lemma CommitFaultLocal(me: Session, id: string, e: Exception)
    requires LocalOk(me, id) && me.point.AtCommit?
    ensures LocalOk(me.(point := CommitFault(e)), id)
  {
    CommittingState(me, id);
    CommitFaultIsLegal(Hold(me), id, e);
    hide SteadyOk, PointOk;
  }

  lemma CommitFaultSays(me: Session, id: string, e: Exception)
    requires LocalOk(me, id) && ClosedOk(me) && me.point.AtCommit?
    ensures ClosedOk(me.(point := CommitFault(e)))
    ensures BeforeEffect(CommitFault(e)) ==> BeforeEffect(me.point)
    ensures !AfterReceipt(me.(point := CommitFault(e)))
    ensures !CommitFault(e).AtLink? && !CommitFault(e).AtReceipt? && !CommitFault(e).AtBind?
    ensures CommitFault(e) != AtSend(ProposalValid, ThenAuthorize)
  {
    CommittingState(me, id);
    hide LocalOk;
  }

  /** The effect happened; its acknowledgement may have been lost. */
  lemma WrittenKeepsInv(s: System, s': System, id: string, receipt: EffectReceipt, point: Point,
                        initial: M.Values, first: nat)
    requires Inv(s, initial, first) && id in s.sessions && s.sessions[id].point.AtCommit?
    requires s.sessions[id].plan.Some?
    requires var plan := s.sessions[id].plan.value;
             && plan.intentHash !in s.mock.receipts
             && receipt.transactionId == id && receipt.intentHash == plan.intentHash
             && s'.mock.receipts == s.mock.receipts[plan.intentHash := receipt]
             && s'.mock.state == s.mock.state + plan.values
             && s'.mock.version == s.mock.version + 1
             && s'.writes == s.writes + [Effect(id, plan.intentHash, plan.values)]
    requires point == AtReceipt(receipt) || point == AtSend(CommitOutcomeUnknown, ThenRest)
    requires s'.sessions == s.sessions[id := s.sessions[id].(point := point)]
    requires s'.tables == s.tables && s'.grants == s.grants
    ensures Inv(s', initial, first)
  {
    hide LocalOk, ClosedOk, CopyOk, Synced, Owned, Truthful, Serial, Recorded, Quiet, AllClosed;
    var me := s.sessions[id];
    var me' := me.(point := point);
    var w := Effect(id, me.plan.value.intentHash, me.plan.value.values);
    Parts(s, id, initial, first);
    WrittenMoves(me, me', id, receipt);
    PointKeepsSync(s, s', id, me');
    QuietKeepsOwners(s, s', id, me');
    WritingKeepsTruth(s, s', id, receipt, point);
    WriteKeepsSerial(s, s', id, me', w, initial, first);
    WriteKeepsRecord(s, s', id, me', w, receipt);
    ClosedAgain(s, s', id, me');
  }

  lemma WrittenMoves(me: Session, me': Session, id: string, receipt: EffectReceipt)
    requires LocalOk(me, id) && ClosedOk(me) && me.point.AtCommit? && me' == me.(point := me'.point)
    requires me'.point == AtReceipt(receipt) || me'.point == AtSend(CommitOutcomeUnknown, ThenRest)
    ensures LocalOk(me', id) && Quiet(me, me') && ClosedOk(me')
  {
    CommittingState(me, id);
    LocalMoveIsQuiet(me, me');
    CommitFaultIsLegal(Hold(me), id, OtherError);
    CommittingPoints(Hold(me), receipt);
    hide Quiet, SteadyOk, PointOk;
  }

  lemma CommitKeepsInv(s: System, id: string, env: Env, initial: M.Values, first: nat)
    requires Inv(s, initial, first) && id in s.sessions && s.sessions[id].point.AtCommit?
    requires env.late ==> env.fault != Some(KernelError(StaleTarget))
    ensures s.sessions[id].plan.Some? && s.sessions[id].staged.Some?
    ensures Inv(DoCommit(s, id, s.sessions[id], s.sessions[id].plan.value,
                         s.sessions[id].staged.value, env), initial, first)
  {
    hide LocalOk, Synced, Owned, Truthful, Serial, Recorded, AllClosed, CommitFault, M.Commit;
    var me := s.sessions[id];
    Parts(s, id, initial, first);
    CommittingState(me, id);
    NobodyElseWrote(s, id);
    CommitMerges(s, id, env, initial, first);
    var plan := me.plan.value;
    var (r, mock) := M.Commit(s.mock, me.staged.value, plan.baseVersion, env.freshId, env.stamp.now);
    if (env.fault.Some? && !env.late) || r.Failure? {
      var e := if env.fault.Some? && !env.late then env.fault.value else KernelError(r.error);
      FailedCommitKeepsInv(s, id, e, initial, first);
    } else {
      var point := if env.fault.Some? then CommitFault(env.fault.value) else AtReceipt(r.value);
      assert env.fault.Some? ==> point == AtSend(CommitOutcomeUnknown, ThenRest) by {
        if env.fault.Some? {
          LateFault(env);
        }
      }
      var s' := DoCommit(s, id, me, plan, me.staged.value, env);
      hide DoCommit;
      WrittenKeepsInv(s, s', id, r.value, point, initial, first);
    }
  }

  lemma LateFault(env: Env)
    requires env.fault.Some? && env.fault != Some(KernelError(StaleTarget))
    ensures CommitFault(env.fault.value) == AtSend(CommitOutcomeUnknown, ThenRest)
  {}

  // ----- every step ------------------------------------------------------------------------------

  lemma OutsideKeepsInv(s: System, state: M.Values, initial: M.Values, first: nat)
    requires Inv(s, initial, first)
    ensures Inv(s.(mock := s.mock.(state := state, version := s.mock.version + 1),
                   writes := s.writes + [Outside(state)]), initial, first)
  {
    OutsideKeepsSerial(s, state, initial, first);
    OutsideKeepsRecord(s, state);
    hide Serial, Recorded, Synced, Owned, Truthful, AllClosed;
    SameSessionsKeepInv(s, s.(mock := s.mock.(state := state, version := s.mock.version + 1),
                              writes := s.writes + [Outside(state)]));
  }

  lemma SameSessionsKeepInv(s: System, s': System)
    requires Synced(s) && Owned(s) && Truthful(s) && AllClosed(s)
    requires s'.sessions == s.sessions && s'.tables == s.tables && s'.grants == s.grants
    requires s'.mock.receipts == s.mock.receipts
    ensures Synced(s') && Owned(s') && Truthful(s') && AllClosed(s')
  {
    hide LocalOk, ClosedOk, EffectOk, OwnerOk, RowOk, LinkedOk, GrantOk, Wrote;
    forall intent | intent in s'.grants ensures GrantsOf(s', intent) {
      assert GrantsOf(s, intent);
    }
  }

  lemma PlannedPoints(me: Session, id: string)
    requires LocalOk(me, id)
    ensures me.point.AtReserve? || me.point.AtLink? || me.point.AtCommit? || Conversing(me.point)
            ==> me.plan.Some?
  {}

  lemma AdvanceKeepsInv(hash: EventHash, s: System, id: string, env: Env, initial: M.Values, first: nat)
    requires Inv(s, initial, first) && id in s.sessions
    requires env.late ==> env.fault != Some(KernelError(StaleTarget))
    ensures Inv(DoAdvance(hash, s, id, env), initial, first)
  {
    hide Inv, LocalOk, ClosedOk, CopyOk, OwnerOk, EffectOk, RowOk, DoSend, DoBind, DoReceipt,
         DoReserve, DoLink, DoCommit, Converse, Refuse, M.Inspect;
    var me := s.sessions[id];
    Parts(s, id, initial, first);
    PlannedPoints(me, id);
    match me.point
    case AtRest =>
    case AtSend(event, next) => SendKeepsInv(hash, s, id, event, next, env, initial, first);
    case AtAdmission =>
      OpeningKeepsInv(s, id, if env.fault.Some? then Refuse(env.fault.value) else AtInspect,
                      initial, first);
    case AtInspect =>
      OpeningKeepsInv(s, id, if env.fault.Some? then Refuse(env.fault.value)
                             else AtBind(M.Inspect(s.mock, me.proposal)), initial, first);
    case AtBind(plan) => BindKeepsInv(s, id, plan, env, initial, first);
    case AtReceipt(receipt) => ReceiptKeepsInv(s, id, receipt, env, initial, first);
    case AtReserve => ReserveKeepsInv(s, id, env, initial, first);
    case AtLink(previous) => LinkKeepsInv(s, id, previous, env, initial, first);
    case AtCommit => CommitKeepsInv(s, id, env, initial, first);
    case _ => ConverseKeepsInv(s, id, env, initial, first);
  }

  /** Every lawful step of every session, and every outside write, keeps the invariant. */
  lemma StepKeepsInv(hash: EventHash, s: System, a: Action, initial: M.Values, first: nat)
    requires Inv(s, initial, first) && Lawful(a)
    ensures Inv(Step(hash, s, a), initial, first)
  {
    hide Inv, DoAdvance, DoAdmit, Open;
    match a
    case Admit(p, env) => AdmitKeepsInv(hash, s, p, env, initial, first);
    case Start(id, op, env) =>
      if id in s.sessions && s.sessions[id].point == AtRest && s.sessions[id].plan.Some? {
        StartKeepsInv(s, id, op, env, initial, first);
      }
    case Advance(id, env) =>
      if id in s.sessions {
        AdvanceKeepsInv(hash, s, id, env, initial, first);
      }
    case OutsideWrite(state) => OutsideKeepsInv(s, state, initial, first);
  }
}
