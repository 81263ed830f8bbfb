/** What the journal says about an attempt is what happened to the target. */
module ProtocolEffects {
  import opened Wrappers
  import opened StateMachine
  import opened Domain
  import opened Protocol
  import opened ProtocolLocal
  import opened ProtocolSync
  import opened ProtocolOwners

  /** States in which the effect may have happened. */
  predicate CommitSide(s: TransactionState) {
    s.Committing? || s.Committed? || s.Failed? || s.InDoubt?
  }

  /** This session's commit is the one the adapter remembers for its intent. */
  predicate Wrote(me: Session, remembered: map<string, EffectReceipt>) {
    && me.plan.Some?
    && me.plan.value.intentHash in remembered
    && remembered[me.plan.value.intentHash].transactionId == me.record.transactionId
  }

  /** Its receipt is in the journal. */
  predicate Stored(me: Session, remembered: map<string, EffectReceipt>,
                   receipts: map<string, EffectReceipt>)
    requires Wrote(me, remembered)
  {
    var receipt := remembered[me.plan.value.intentHash];
    receipt.receiptId in receipts && receipts[receipt.receiptId] == receipt
  }

  /** Points that are only reached before, and only after, the receipt was stored. */
  predicate BeforeEffect(p: Point) {
    p.AtCommit? || (p.AtSend? && p.event == CommitFailedNoEffect)
  }

  predicate AfterReceipt(me: Session) {
    || me.record.state.Committed? || me.record.state.Failed?
    || me.point.AtVerifyCommitted?
    || (me.point.AtSend? && (me.point.event == CommitVerified || me.point.event == CommitPartialOrInvalid))
  }

  predicate EffectOk(me: Session, remembered: map<string, EffectReceipt>,
                     receipts: map<string, EffectReceipt>)
  {
    && (Wrote(me, remembered) ==> CommitSide(me.record.state) && !BeforeEffect(me.point))
    && (AfterReceipt(me) ==> Wrote(me, remembered) && Stored(me, remembered, receipts))
    && (me.point.AtReceipt? ==>
          && Wrote(me, remembered) && !Stored(me, remembered, receipts)
          && me.point.receipt == remembered[me.plan.value.intentHash])
  }

  /** Every stored receipt is the remembered receipt of a session that wrote. */
  ghost predicate ReceiptsOk(s: System) {
    forall r | r in s.tables.receipts ::
      var receipt := s.tables.receipts[r];
      && receipt.receiptId == r
      && receipt.transactionId in s.sessions
      && Wrote(s.sessions[receipt.transactionId], s.mock.receipts)
      && receipt == s.mock.receipts[s.sessions[receipt.transactionId].plan.value.intentHash]
  }

  /** Every remembered receipt belongs to the plan of a session. */
  ghost predicate RememberedOk(s: System) {
    forall intent | intent in s.mock.receipts ::
      var receipt := s.mock.receipts[intent];
      && receipt.intentHash == intent
      && receipt.transactionId in s.sessions
      && s.sessions[receipt.transactionId].plan.Some?
      && s.sessions[receipt.transactionId].plan.value.intentHash == intent
  }

  ghost predicate Truthful(s: System) {
    && (forall id | id in s.sessions :: EffectOk(s.sessions[id], s.mock.receipts, s.tables.receipts))
    && ReceiptsOk(s)
    && RememberedOk(s)
  }

  // ----- steps that neither write nor store ---------------------------------------------------

  /** The effect part of a session is carried over. */
  ghost predicate Carries(me: Session, me': Session) {
    && (me.plan.Some? ==> me'.plan == me.plan)
    && me'.record.transactionId == me.record.transactionId
    && (forall m, r :: EffectOk(me, m, r) ==> EffectOk(me', m, r))
  }

  lemma CarryKeepsTruth(s: System, s': System, id: string, me: Session)
    requires Truthful(s) && id in s.sessions && Carries(s.sessions[id], me)
    requires s'.sessions == s.sessions[id := me]
    requires s'.mock.receipts == s.mock.receipts && s'.tables.receipts == s.tables.receipts
    ensures Truthful(s')
  {
    hide EffectOk;
  }

  /** `me'` differs from `me` in its point, its handles and its flags only, and `me'` stands at no
      point that says something about the effect unless `me` does. */
  lemma PointCarries(me: Session, me': Session)
    requires me'.plan == me.plan && me'.record == me.record
    requires BeforeEffect(me'.point) ==> BeforeEffect(me.point) || !CommitSide(me.record.state)
    requires AfterReceipt(me') ==> AfterReceipt(me)
    requires !me'.point.AtReceipt?
    ensures Carries(me, me')
  {
    hide CommitSide, BeforeEffect, AfterReceipt;
  }

  lemma StopCarries(me: Session)
    ensures Carries(me, Stop(me))
  {
    PointCarries(me, Stop(me));
  }

  lemma FreshKeepsTruth(s: System, s': System, id: string, me: Session)
    requires Truthful(s) && id !in s.sessions
    requires s'.sessions == s.sessions[id := me]
    requires s'.mock.receipts == s.mock.receipts && s'.tables.receipts == s.tables.receipts
    requires me.plan.None? && !AfterReceipt(me) && !me.point.AtReceipt?
    ensures Truthful(s')
  {
    assert EffectOk(me, s.mock.receipts, s.tables.receipts);
    hide EffectOk, AfterReceipt;
  }

  /** Binding an intent that another session already wrote does not make this one a writer. */
  lemma BindKeepsTruth(s: System, s': System, id: string, plan: M.EffectPlan, record: TransactionRecord)
    requires Synced(s) && Truthful(s) && id in s.sessions && s.sessions[id].point == AtBind(plan)
    requires record == s.sessions[id].record.(intentHash := Some(plan.intentHash))
    requires s'.sessions == s.sessions[id := s.sessions[id].(plan := Some(plan), record := record,
                                               point := AtRest)]
    requires s'.mock.receipts == s.mock.receipts && s'.tables.receipts == s.tables.receipts
    ensures Truthful(s')
  {
    hide EffectOk, LocalOk, RowOk, Wrote;
    var me, me' := s.sessions[id], s'.sessions[id];
    BindingState(me, id, plan);
    assert !Wrote(me', s.mock.receipts) by { NotRemembered(s, id, me'); }
    QuietEffectOk(me', s.mock.receipts, s.tables.receipts);
    assert ReceiptsOk(s') by {
      forall r | r in s.tables.receipts
        ensures s.tables.receipts[r].transactionId != id
      {
        PlanlessDidNotWrite(me, s.mock.receipts);
      }
    }
  }

  /** A session without a plan is nobody the adapter remembers. */
  lemma NotRemembered(s: System, id: string, me: Session)
    requires RememberedOk(s) && id in s.sessions && s.sessions[id].plan.None?
    requires me.record.transactionId == id
    ensures !Wrote(me, s.mock.receipts)
  {}

  lemma PlanlessDidNotWrite(me: Session, remembered: map<string, EffectReceipt>)
    requires me.plan.None?
    ensures !Wrote(me, remembered)
  {}

  lemma QuietEffectOk(me: Session, remembered: map<string, EffectReceipt>,
                      receipts: map<string, EffectReceipt>)
    requires !Wrote(me, remembered) && me.record.state == New && me.point == AtRest
    ensures EffectOk(me, remembered, receipts)
  {}

  lemma BindingState(me: Session, id: string, plan: M.EffectPlan)
    requires LocalOk(me, id) && me.point == AtBind(plan)
    ensures me.record.state == New && me.plan.None? && me.record.transactionId == id
  {}

  // ----- transitions -------------------------------------------------------------------------

  /** The coordinator crosses the commit boundary only with COMMIT_GUARDS_PASSED, leaves
      COMMITTING with one of four events, and sends nothing from beyond. */
  lemma CommitSideMoves(s: TransactionState, e: TransitionEvent, o: Option<IntendedOutcome>)
    requires ApplyTransition(s, e, o).Success? && !Recovers(e)
    ensures var t := ApplyTransition(s, e, o).value.target;
            && (CommitSide(t) ==> s.Committing? || e == CommitGuardsPassed)
            && (CommitSide(s) ==> s.Committing?)
            && (s.Committing? ==> CommitSide(t) || e == CommitFailedNoEffect)
            && (t.Committed? ==> e == CommitVerified)
            && (t.Failed? ==> e == CommitPartialOrInvalid)
            && (t.Committing? ==> e == CommitGuardsPassed)
            && (e == CommitGuardsPassed ==> s.ReadyToCommit? && t.Committing?)
  {}

  lemma ResumeSaysNothing(next: Next)
    ensures !Resume(next).AtReceipt? && !Resume(next).AtVerifyCommitted?
    ensures Resume(next).AtSend? ==>
              && Resume(next).event != CommitVerified
              && Resume(next).event != CommitPartialOrInvalid
              && Resume(next).event != CommitFailedNoEffect
    ensures Resume(next).AtCommit? ==> next == ThenCommit
  {}

  lemma SendCarries(me: Session, event: TransitionEvent, next: Next, now: int, reason: Option<string>)
    requires me.point == AtSend(event, next) && SendOk(event, next, Hold(me))
    ensures var d := ApplyTransition(me.record.state, event, me.record.intended).value;
            Carries(me, me.(record := Journal.Advance(me.record, d, now, event, reason),
                            point := Resume(next)))
  {
    CommitSideMoves(me.record.state, event, me.record.intended);
    ResumeSaysNothing(next);
    hide ApplyTransition, Resume, Recovers, Equipped;
    var d := ApplyTransition(me.record.state, event, me.record.intended).value;
    var me' := me.(record := Journal.Advance(me.record, d, now, event, reason), point := Resume(next));
    forall m, r | EffectOk(me, m, r) ensures EffectOk(me', m, r) {
      assert Wrote(me', m) <==> Wrote(me, m);
    }
  }

  // ----- the receipt and the effect ------------------------------------------------------------

  lemma StoringKeepsTruth(s: System, s': System, id: string, receipt: EffectReceipt)
    requires Synced(s) && Truthful(s) && id in s.sessions
    requires s.sessions[id].point == AtReceipt(receipt)
    requires receipt.receiptId !in s.tables.receipts
    requires s'.sessions == s.sessions[id := s.sessions[id].(point := AtVerifyCommitted)]
    requires s'.mock == s.mock
    requires s'.tables.receipts == s.tables.receipts[receipt.receiptId := receipt]
    ensures Truthful(s')
  {
    hide EffectOk, LocalOk, RowOk, Wrote;
    var me, me' := s.sessions[id], s'.sessions[id];
    StoredNow(me, id, receipt, s.mock.receipts, s.tables.receipts);
    forall other | other in s.sessions && other != id
      ensures EffectOk(s.sessions[other], s.mock.receipts, s'.tables.receipts)
    {
      OwnId(s.sessions[other], other);
      OneMoreReceipt(s.sessions[other], s.mock.receipts, s.tables.receipts, receipt);
    }
    assert Wrote(me', s.mock.receipts);
    SameWriter(me, me', s.mock.receipts);
  }

  lemma OwnId(me: Session, id: string)
    requires LocalOk(me, id)
    ensures me.record.transactionId == id
  {}

  lemma SameWriter(me: Session, me': Session, remembered: map<string, EffectReceipt>)
    requires me'.plan == me.plan && me'.record == me.record
    ensures Wrote(me', remembered) == Wrote(me, remembered)
  {}

  lemma StoredNow(me: Session, id: string, receipt: EffectReceipt,
                  remembered: map<string, EffectReceipt>, receipts: map<string, EffectReceipt>)
    requires LocalOk(me, id) && EffectOk(me, remembered, receipts)
    requires me.point == AtReceipt(receipt) && receipt.receiptId !in receipts
    ensures var me' := me.(point := AtVerifyCommitted);
            EffectOk(me', remembered, receipts[receipt.receiptId := receipt]) && Wrote(me', remembered)
    ensures receipt.transactionId == id && me.plan.Some? && Wrote(me, remembered)
    ensures receipt == remembered[me.plan.value.intentHash]
  {}

  lemma OneMoreReceipt(me: Session, remembered: map<string, EffectReceipt>,
                       receipts: map<string, EffectReceipt>, receipt: EffectReceipt)
    requires EffectOk(me, remembered, receipts) && receipt.receiptId !in receipts
    requires receipt.transactionId != me.record.transactionId
    ensures EffectOk(me, remembered, receipts[receipt.receiptId := receipt])
  {}

  /** When a session calls `adapter.commit`, nobody has committed its intent. */
  lemma NobodyElseWrote(s: System, id: string)
    requires Synced(s) && Owned(s) && Truthful(s) && id in s.sessions
    requires s.sessions[id].point.AtCommit?
    ensures s.sessions[id].plan.Some?
    ensures s.sessions[id].plan.value.intentHash !in s.mock.receipts
  {
    hide EffectOk, LocalOk, OwnerOk;
    var me := s.sessions[id];
    CommittingState(me, id);
    AtCommitOwns(me, id, s.tables.intents, s.mock.receipts, s.tables.receipts);
    var intent := me.plan.value.intentHash;
    if intent in s.mock.receipts {
      WriterIsOwner(s, intent);
    }
  }

  lemma AtCommitOwns(me: Session, id: string, intents: map<string, string>,
                     remembered: map<string, EffectReceipt>, receipts: map<string, EffectReceipt>)
    requires LocalOk(me, id) && OwnerOk(me, id, intents) && EffectOk(me, remembered, receipts)
    requires me.point.AtCommit? && me.plan.Some?
    ensures !Wrote(me, remembered) && me.record.transactionId == id
    ensures me.plan.value.intentHash in intents && intents[me.plan.value.intentHash] == id
  {}

  /** Whoever the adapter remembers for an intent still owns it. */
  lemma WriterIsOwner(s: System, intent: string)
    requires Synced(s) && Owned(s) && Truthful(s) && intent in s.mock.receipts
    ensures intent in s.tables.intents
    ensures s.mock.receipts[intent].transactionId == s.tables.intents[intent]
  {
    hide EffectOk, LocalOk, OwnerOk, Holds;
    var writer := s.mock.receipts[intent].transactionId;
    var me := s.sessions[writer];
    WriterHolds(me, writer, s.mock.receipts, s.tables.receipts);
    assert OwnerOk(me, writer, s.tables.intents);
    HolderOwns(me, writer, s.tables.intents);
  }

  lemma HolderOwns(me: Session, id: string, intents: map<string, string>)
    requires OwnerOk(me, id, intents) && Holds(me)
    ensures me.plan.Some? && me.plan.value.intentHash in intents
    ensures intents[me.plan.value.intentHash] == id
  {}

  lemma WriterHolds(me: Session, id: string, remembered: map<string, EffectReceipt>,
                    receipts: map<string, EffectReceipt>)
    requires LocalOk(me, id) && EffectOk(me, remembered, receipts)
    ensures me.record.transactionId == id
    ensures Wrote(me, remembered) ==> Holds(me)
  {}

  /** The effect: the adapter remembers a new receipt, for this session. */
  lemma WritingKeepsTruth(s: System, s': System, id: string, receipt: EffectReceipt, point: Point)
    requires Synced(s) && Truthful(s) && id in s.sessions && s.sessions[id].point.AtCommit?
    requires s.sessions[id].plan.Some?
    requires var intent := s.sessions[id].plan.value.intentHash;
             && intent !in s.mock.receipts && receipt.intentHash == intent
             && receipt.transactionId == id
             && s'.mock.receipts == s.mock.receipts[intent := receipt]
    requires point == AtReceipt(receipt) || point == AtSend(CommitOutcomeUnknown, ThenRest)
    requires s'.sessions == s.sessions[id := s.sessions[id].(point := point)]
    requires s'.tables.receipts == s.tables.receipts
    ensures Truthful(s')
  {
    hide EffectOk, LocalOk, RowOk, Wrote;
    var me, me' := s.sessions[id], s'.sessions[id];
    CommittingState(me, id);
    OwnId(me, id);
    var intent := me.plan.value.intentHash;
    NotWrittenBefore(me, s.mock.receipts);
    assert receipt.receiptId in s.tables.receipts ==> s.tables.receipts[receipt.receiptId] != receipt;
    WrittenNow(me, receipt, point, s.mock.receipts, s.tables.receipts);
    forall other | other in s.sessions && other != id
      ensures EffectOk(s.sessions[other], s'.mock.receipts, s.tables.receipts)
      ensures Wrote(s.sessions[other], s.mock.receipts) ==> Wrote(s.sessions[other], s'.mock.receipts)
    {
      OwnId(s.sessions[other], other);
      OneMoreRemembered(s.sessions[other], s.mock.receipts, s.tables.receipts, intent, receipt);
    }
    assert ReceiptsOk(s') by {
      forall r | r in s.tables.receipts
        ensures s.tables.receipts[r].transactionId != id
        ensures s.sessions[s.tables.receipts[r].transactionId].plan.Some?
        ensures s.sessions[s.tables.receipts[r].transactionId].plan.value.intentHash != intent
      {
        WritersAreRemembered(s.sessions[s.tables.receipts[r].transactionId], s.mock.receipts);
      }
    }
  }

  lemma NotWrittenBefore(me: Session, remembered: map<string, EffectReceipt>)
    requires me.plan.Some? && me.plan.value.intentHash !in remembered
    ensures !Wrote(me, remembered)
  {}

  lemma WritersAreRemembered(me: Session, remembered: map<string, EffectReceipt>)
    requires Wrote(me, remembered)
    ensures me.plan.Some? && me.plan.value.intentHash in remembered
  {}

  lemma WrittenNow(me: Session, receipt: EffectReceipt, point: Point,
                   remembered: map<string, EffectReceipt>, receipts: map<string, EffectReceipt>)
    requires me.point.AtCommit? && me.record.state == Committing && me.plan.Some?
    requires receipt.transactionId == me.record.transactionId
    requires receipt.receiptId in receipts ==> receipts[receipt.receiptId] != receipt
    requires point == AtReceipt(receipt) || point == AtSend(CommitOutcomeUnknown, ThenRest)
    ensures EffectOk(me.(point := point), remembered[me.plan.value.intentHash := receipt], receipts)
  {}

  lemma OneMoreRemembered(me: Session, remembered: map<string, EffectReceipt>,
                          receipts: map<string, EffectReceipt>, intent: string, receipt: EffectReceipt)
    requires EffectOk(me, remembered, receipts) && intent !in remembered
    requires receipt.transactionId != me.record.transactionId
    ensures EffectOk(me, remembered[intent := receipt], receipts)
    ensures Wrote(me, remembered) ==> Wrote(me, remembered[intent := receipt])
  {}
}
