/** Every session agrees with its row of the journal and only sends legal transitions. */
module ProtocolSync {
  import opened Wrappers
  import opened StateMachine
  import opened Ledger
  import opened Domain
  import opened Journal
  import opened Protocol
  import opened ProtocolLocal
  import J = JournalLog

  predicate RowOk(row: Row, me: Session, id: string) {
    J.ColumnsAgree(row, id) && row.record == me.record
  }

  ghost predicate Synced(s: System) {
    && s.sessions.Keys == s.tables.transactions.Keys
    && (forall id | id in s.sessions ::
          RowOk(s.tables.transactions[id], s.sessions[id], id) && LocalOk(s.sessions[id], id))
  }

  /** Only one session, its row and its record change. */
  lemma OneSessionKeepsSync(s: System, s': System, id: string, row: Row, me: Session)
    requires Synced(s)
    requires s'.sessions == s.sessions[id := me]
    requires s'.tables.transactions == s.tables.transactions[id := row]
    requires RowOk(row, me, id) && LocalOk(me, id)
    ensures Synced(s')
  {
    hide RowOk, LocalOk;
  }

  /** Only the control point and the flags of one session change. */
  lemma PointKeepsSync(s: System, s': System, id: string, me: Session)
    requires Synced(s) && id in s.sessions
    requires s'.sessions == s.sessions[id := me]
    requires s'.tables.transactions == s.tables.transactions
    requires me.record == s.sessions[id].record && LocalOk(me, id)
    ensures Synced(s')
  {
    assert s.tables.transactions[id := s.tables.transactions[id]] == s.tables.transactions;
    OneSessionKeepsSync(s, s', id, s.tables.transactions[id], me);
  }

  lemma StopKeepsSync(s: System, id: string)
    requires Synced(s) && id in s.sessions
    ensures Synced(With(s, id, Stop(s.sessions[id])))
  {
    hide SteadyOk;
    PointKeepsSync(s, With(s, id, Stop(s.sessions[id])), id, Stop(s.sessions[id]));
  }

  lemma AdmitKeepsSync(hash: EventHash, s: System, p: M.Proposal, env: Env)
    requires Synced(s)
    ensures Synced(DoAdmit(hash, s, p, env))
  {
    hide Insertable, NextEvent, LocalOk, RowOk;
    var s' := DoAdmit(hash, s, p, env);
    var id := p.transactionId;
    if s' != s {
      FreshIsSynced(p, env.stamp.now);
      OneSessionKeepsSync(s, s', id, s'.tables.transactions[id], s'.sessions[id]);
    }
  }

  lemma FreshIsSynced(p: M.Proposal, now: int)
    ensures var id, record := p.transactionId, NewRecord(p.transactionId, p.goalId, now);
            var me := Session(p, None, record, None, None, false, AtAdmission, Opening, false, false, AllWorked);
            RowOk(Row(p.goalId, New, 0, None, None, record), me, id) && LocalOk(me, id)
  {}

  /** Binding the inspected intent: refused for storage, or written to the row. */
  lemma BindOutcome(s: System, id: string, plan: M.EffectPlan, env: Env)
    requires Synced(s) && id in s.sessions && s.sessions[id].point == AtBind(plan)
    ensures var me := s.sessions[id];
            var s' := DoBind(s, id, me, plan, env);
            || (&& env.storageUp == false
                && s' == With(s, id, me.(point := AtSend(ValidationFailed, ThenRest), storage := AfterFailure(me))))
            || (var record := me.record.(intentHash := Some(plan.intentHash));
                var row := s.tables.transactions[id].(intentHash := Some(plan.intentHash), record := record);
                && s'.sessions == s.sessions[id := me.(plan := Some(plan), record := record, point := AtRest)]
                && s'.tables == s.tables.(transactions := s.tables.transactions[id := row])
                && s'.mock == s.mock && s'.writes == s.writes && s'.grants == s.grants)
  {
  }

  lemma BindKeepsSync(s: System, id: string, plan: M.EffectPlan, env: Env)
    requires Synced(s) && id in s.sessions && s.sessions[id].point == AtBind(plan)
    ensures Synced(DoBind(s, id, s.sessions[id], plan, env))
  {
    hide SteadyOk, PointOk, DoBind;
    var me := s.sessions[id];
    var s' := DoBind(s, id, me, plan, env);
    BindOutcome(s, id, plan, env);
    BindKeepsLocal(Hold(me), id, plan);
    if s'.sessions[id].point == AtRest {
      RestIsLegal(Hold(s'.sessions[id]));
      OneSessionKeepsSync(s, s', id, s'.tables.transactions[id], s'.sessions[id]);
    } else {
      PointKeepsSync(s, s', id, s'.sessions[id]);
    }
  }

  lemma RestIsLegal(h: Holdings)
    ensures PointOk(AtRest, h)
  {}

  /** What a session sends, the journal either refuses for storage or applies. */
  lemma SendOutcome(hash: EventHash, s: System, id: string, event: TransitionEvent, next: Next, env: Env)
    requires Synced(s) && id in s.sessions && s.sessions[id].point == AtSend(event, next)
    ensures var me := s.sessions[id];
            var s' := DoSend(hash, s, id, me, event, next, env);
            var d := ApplyTransition(me.record.state, event, me.record.intended);
            && d.Success?
            && (|| s' == With(s, id, Stop(me))
                || (var record := Journal.Advance(me.record, d.value, env.stamp.now, event, env.reason);
                    var row := s.tables.transactions[id].(state := record.state,
                      version := record.version, intended := record.intended, record := record);
                    && s'.sessions == s.sessions[id := me.(record := record, point := Resume(next))]
                    && s'.tables.transactions == s.tables.transactions[id := row]
                    && s'.tables.intents == s.tables.intents
                    && s'.tables.receipts == s.tables.receipts
                    && s'.mock == s.mock && s'.writes == s.writes && s'.grants == s.grants))
  {
    hide SteadyOk, ApplyTransition, Insertable, NextEvent, Resume, NextOk, Equipped;
  }

  lemma SendIsLegal(me: Session, id: string, event: TransitionEvent, next: Next)
    requires LocalOk(me, id) && me.point == AtSend(event, next)
    ensures SteadyOk(Hold(me), id) && SendOk(event, next, Hold(me))
  {}

  lemma SendKeepsSync(hash: EventHash, s: System, id: string, event: TransitionEvent, next: Next, env: Env)
    requires Synced(s) && id in s.sessions && s.sessions[id].point == AtSend(event, next)
    ensures Synced(DoSend(hash, s, id, s.sessions[id], event, next, env))
  {
    hide DoSend, SteadyOk, PointOk, SendOk, ApplyTransition, Resume;
    var me := s.sessions[id];
    var s' := DoSend(hash, s, id, me, event, next, env);
    SendOutcome(hash, s, id, event, next, env);
    if s' == With(s, id, Stop(me)) {
      StopKeepsSync(s, id);
    } else {
      SendIsLegal(me, id, event, next);
      SentKeepsLocal(Hold(me), id, event, next, env.stamp.now, env.reason);
      OneSessionKeepsSync(s, s', id, s'.tables.transactions[id], s'.sessions[id]);
    }
  }

  /** Reserving: the row of the session is not touched. */
  lemma ReserveOutcome(s: System, id: string, env: Env)
    requires Synced(s) && id in s.sessions && s.sessions[id].point == AtReserve
    requires s.sessions[id].plan.Some?
    ensures var me := s.sessions[id];
            var intent := me.plan.value.intentHash;
            var s' := DoReserve(s, id, me, intent, env);
            var granted := if intent in s.grants then s.grants[intent] else [];
            || s' == With(s, id, Stop(me))
            || (&& intent in s.tables.intents && s.tables.intents[intent] != id
                && s' == With(s, id, me.(point := AtSend(ValidationFailed, ThenRest))))
            || (&& intent in s.tables.intents && s.tables.intents[intent] == id
                && s' == With(s, id, me.(point := AtSend(ProposalValid, ThenAuthorize))))
            || (&& intent !in s.tables.intents
                && s' == With(s.(tables := s.tables.(intents := s.tables.intents[intent := id]),
                                 grants := s.grants[intent := granted + [id]]),
                              id, me.(point := AtSend(ProposalValid, ThenAuthorize))))
            || (&& intent in s.tables.intents && Replaceable(s.tables, s.tables.intents[intent])
                && s.tables.intents[intent] != id
                && s' == With(s.(tables := s.tables.(intents := s.tables.intents[intent := id]),
                                 grants := s.grants[intent := granted + [id]]),
                              id, me.(point := AtLink(s.tables.intents[intent]))))
  {
    hide SteadyOk, PointOk, Replaceable;
  }

  /** `supersedes` is only asked for where it is still free (kept by the ownership invariant). */
  lemma ReserveKeepsSync(s: System, id: string, env: Env)
    requires Synced(s) && id in s.sessions && s.sessions[id].point == AtReserve
    requires s.sessions[id].plan.Some?
    requires var intent := s.sessions[id].plan.value.intentHash;
             intent in s.tables.intents && s.tables.intents[intent] != id ==>
               s.sessions[id].record.supersedes.None?
    ensures Synced(DoReserve(s, id, s.sessions[id], s.sessions[id].plan.value.intentHash, env))
  {
    hide SteadyOk, PointOk, DoReserve, Replaceable;
    var me := s.sessions[id];
    var s' := DoReserve(s, id, me, me.plan.value.intentHash, env);
    ReserveOutcome(s, id, env);
    ReserveIsLegal(Hold(me), id);
    if s' == With(s, id, Stop(me)) {
      StopKeepsSync(s, id);
    } else {
      if s'.sessions[id].point.AtLink? {
        AtLinkIsLegal(Hold(me), s'.sessions[id].point.previous);
      }
      PointKeepsSync(s, s', id, s'.sessions[id]);
    }
  }

  lemma AtLinkIsLegal(h: Holdings, previous: string)
    requires PointOk(AtReserve, h) && h.record.supersedes.None?
    ensures PointOk(AtLink(previous), h)
  {}

  lemma LinkOutcome(s: System, id: string, previous: string, env: Env)
    requires Synced(s) && id in s.sessions && s.sessions[id].point == AtLink(previous)
    ensures var me := s.sessions[id];
            var s' := DoLink(s, id, me, previous, env);
            || (!env.storageUp && s' == With(s, id, Stop(me)))
            || (var record := me.record.(supersedes := Some(previous));
                var row := s.tables.transactions[id].(record := record);
                && s'.sessions == s.sessions[id := me.(record := record,
                     point := AtSend(ProposalValid, ThenAuthorize))]
                && s'.tables == s.tables.(transactions := s.tables.transactions[id := row])
                && s'.mock == s.mock && s'.writes == s.writes && s'.grants == s.grants)
  {
  }

  lemma LinkKeepsSync(s: System, id: string, previous: string, env: Env)
    requires Synced(s) && id in s.sessions && s.sessions[id].point == AtLink(previous)
    ensures Synced(DoLink(s, id, s.sessions[id], previous, env))
  {
    hide SteadyOk, PointOk, DoLink;
    var me := s.sessions[id];
    var s' := DoLink(s, id, me, previous, env);
    LinkOutcome(s, id, previous, env);
    LinkKeepsLocal(Hold(me), id, previous);
    if s' == With(s, id, Stop(me)) {
      StopKeepsSync(s, id);
    } else {
      OneSessionKeepsSync(s, s', id, s'.tables.transactions[id], s'.sessions[id]);
    }
  }

  /** Storing the receipt touches the receipts table alone. */
  lemma ReceiptOutcome(s: System, id: string, receipt: EffectReceipt, env: Env)
    requires id in s.sessions
    ensures var me := s.sessions[id];
            var s' := DoReceipt(s, id, me, receipt, env);
            || s' == With(s, id, me.(point := AtSend(CommitOutcomeUnknown, ThenRest)))
            || (&& receipt.receiptId !in s.tables.receipts
                && s' == With(s.(tables := s.tables.(receipts :=
                                   s.tables.receipts[receipt.receiptId := receipt])),
                              id, me.(point := AtVerifyCommitted)))
  {
  }

  lemma CommittingPoints(h: Holdings, receipt: EffectReceipt)
    requires h.record.state == Committing
    ensures PointOk(AtReceipt(receipt), h) && PointOk(AtVerifyCommitted, h)
  {}

  lemma CommittingState(me: Session, id: string)
    requires LocalOk(me, id) && (me.point.AtCommit? || me.point.AtReceipt?)
    ensures me.record.state == Committing && me.plan.Some? && me.staged.Some?
    ensures me.staged.value.staged.plan == me.plan.value
  {}

  lemma ReceiptKeepsSync(s: System, id: string, receipt: EffectReceipt, env: Env)
    requires Synced(s) && id in s.sessions && s.sessions[id].point == AtReceipt(receipt)
    ensures Synced(DoReceipt(s, id, s.sessions[id], receipt, env))
  {
    hide SteadyOk, PointOk, DoReceipt;
    var me := s.sessions[id];
    var s' := DoReceipt(s, id, me, receipt, env);
    ReceiptOutcome(s, id, receipt, env);
    CommittingState(me, id);
    CommitFaultIsLegal(Hold(me), id, OtherError);
    CommittingPoints(Hold(me), receipt);
    PointKeepsSync(s, s', id, s'.sessions[id]);
  }

  lemma ConverseKeepsRecord(me: Session, mock: M.Adapter, env: Env)
    requires me.plan.Some?
    ensures Converse(me, me.plan.value, mock, env).0.record == me.record
    ensures Converse(me, me.plan.value, mock, env).0.plan == me.plan
    ensures Converse(me, me.plan.value, mock, env).0.proposal == me.proposal
  {}
}
