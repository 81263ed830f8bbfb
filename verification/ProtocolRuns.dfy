/** The theorems: what holds of every state any lawful run can reach. */
module ProtocolRuns {
  import opened Wrappers
  import opened StateMachine
  import opened Ledger
  import opened Domain
  import opened Journal
  import opened Protocol
  import opened ProtocolLocal
  import opened ProtocolSync
  import opened ProtocolOwners
  import opened ProtocolEffects
  import opened ProtocolSerial
  import opened ProtocolClosing
  import opened ProtocolSteps

  lemma InitialInv(state: M.Values, version: nat)
    ensures Inv(Initial(state, version), state, version)
  {
  }

  lemma {:induction false} RunsKeepInv(hash: EventHash, state: M.Values, version: nat, actions: seq<Action>)
    requires LawfulRun(actions)
    ensures Inv(Reach(hash, Initial(state, version), actions), state, version)
  {
    hide Inv, Step;
    if actions == [] {
      InitialInv(state, version);
    } else {
      var before := actions[..|actions| - 1];
      RunsKeepInv(hash, state, version, before);
      StepKeepsInv(hash, Reach(hash, Initial(state, version), before), actions[|actions| - 1],
                   state, version);
    }
  }

  // ----- no lost updates ---------------------------------------------------------------------

  /** In every interleaving of any number of sessions and outside writers, with faults and lost
      acknowledgements, the target is its initial state with all writes applied one after another
      in the order of their commits, and its version counts them. */
  lemma NoLostUpdates(hash: EventHash, state: M.Values, version: nat, actions: seq<Action>)
    requires LawfulRun(actions)
    ensures var s := Reach(hash, Initial(state, version), actions);
            && s.mock.state == Applied(state, s.writes)
            && s.mock.version == version + |s.writes|
  {
    RunsKeepInv(hash, state, version, actions);
  }

  /** Each intent has changed the target at most once, by a session that planned exactly the
      values written. */
  lemma IntentsWriteAtMostOnce(hash: EventHash, state: M.Values, version: nat, actions: seq<Action>,
                               j: nat, k: nat)
    requires LawfulRun(actions)
    requires var s := Reach(hash, Initial(state, version), actions);
             j < |s.writes| && k < |s.writes| && s.writes[j].Effect? && s.writes[k].Effect?
    ensures var s := Reach(hash, Initial(state, version), actions);
            && (s.writes[j].intentHash == s.writes[k].intentHash ==> j == k)
            && (s.writes[j].transactionId == s.writes[k].transactionId ==> j == k)
            && s.writes[j].transactionId in s.sessions
            && s.sessions[s.writes[j].transactionId].proposal.values == s.writes[j].values
            && s.sessions[s.writes[j].transactionId].proposal.intentHash == s.writes[j].intentHash
  {
    var s := Reach(hash, Initial(state, version), actions);
    RunsKeepInv(hash, state, version, actions);
    hide Reach, Synced, Owned, Truthful, Serial;
    assert WriteOk(s.writes[j], s) && WriteOk(s.writes[k], s);
    SessionPlans(s, s.writes[j].transactionId, state, version);
  }

  lemma SessionPlans(s: System, id: string, state: M.Values, version: nat)
    requires Inv(s, state, version) && id in s.sessions && s.sessions[id].plan.Some?
    ensures s.sessions[id].plan.value.intentHash == s.sessions[id].proposal.intentHash
    ensures s.sessions[id].plan.value.values == s.sessions[id].proposal.values
  {
    Parts(s, id, state, version);
    hide Inv;
  }

  // ----- durable outcomes --------------------------------------------------------------------

  /** The journal says the attempt wrote the target once, with a receipt. */
  ghost predicate WroteOnce(s: System, id: string) {
    exists k :: 0 <= k < |s.writes| && s.writes[k].Effect? && s.writes[k].transactionId == id
  }

  /** Exactly one receipt of the transaction is stored. */
  ghost predicate OneReceipt(s: System, id: string) {
    exists r :: r in s.tables.receipts && s.tables.receipts[r].transactionId == id
                && forall q | q in s.tables.receipts && s.tables.receipts[q].transactionId == id :: q == r
  }

  lemma WroteIsRecorded(s: System, id: string, state: M.Values, version: nat)
    requires Inv(s, state, version) && id in s.sessions
    ensures Wrote(s.sessions[id], s.mock.receipts) <==> WroteOnce(s, id)
  {
    Parts(s, id, state, version);
    OwnId(s.sessions[id], id);
    hide LocalOk, Synced, Owned, Serial;
    if Wrote(s.sessions[id], s.mock.receipts) {
      var intent := s.sessions[id].plan.value.intentHash;
      var k :| 0 <= k < |s.writes| && s.writes[k].Effect? && s.writes[k].intentHash == intent;
      assert WriteOk(s.writes[k], s);
    }
    if WroteOnce(s, id) {
      var k :| 0 <= k < |s.writes| && s.writes[k].Effect? && s.writes[k].transactionId == id;
      assert WriteOk(s.writes[k], s);
    }
  }

  lemma StoredIsOneReceipt(s: System, id: string, state: M.Values, version: nat)
    requires Inv(s, state, version) && id in s.sessions
    requires Wrote(s.sessions[id], s.mock.receipts)
    requires Stored(s.sessions[id], s.mock.receipts, s.tables.receipts)
    ensures OneReceipt(s, id)
  {
    Parts(s, id, state, version);
    OwnId(s.sessions[id], id);
    hide LocalOk, Synced, Owned, Serial, Recorded, EffectOk;
    var receipt := s.mock.receipts[s.sessions[id].plan.value.intentHash];
    var r := receipt.receiptId;
    assert s.tables.receipts[r].transactionId == id;
  }

  lemma NoWriteNoReceipt(s: System, id: string, state: M.Values, version: nat)
    requires Inv(s, state, version) && id in s.sessions
    requires !Wrote(s.sessions[id], s.mock.receipts)
    ensures !HasReceipt(s.tables.receipts, id)
  {
    hide Synced, Owned, Serial, Recorded, EffectOk, Wrote;
  }

  ghost predicate OutcomeIsTrue(s: System, id: string)
    requires id in s.tables.transactions
  {
    var outcome := s.tables.transactions[id].state;
    && (outcome == Committed || outcome == Failed ==> WroteOnce(s, id) && OneReceipt(s, id))
    && (!CommitSide(outcome) ==> !WroteOnce(s, id) && !HasReceipt(s.tables.receipts, id))
  }

  lemma InvMakesOutcomesTrue(s: System, id: string, state: M.Values, version: nat)
    requires Inv(s, state, version) && id in s.tables.transactions
    ensures OutcomeIsTrue(s, id)
  {
    RowState(s, id, state, version);
    Parts(s, id, state, version);
    hide Inv, LocalOk, OwnerOk, CopyOk, ClosedOk, RowOk, Stored, WroteOnce, OneReceipt, HasReceipt;
    WroteIsRecorded(s, id, state, version);
    if s.sessions[id].record.state == Committed || s.sessions[id].record.state == Failed {
      StoredIsOneReceipt(s, id, state, version);
    }
    if !CommitSide(s.sessions[id].record.state) {
      NoWriteNoReceipt(s, id, state, version);
    }
  }

  /** COMMITTED (and FAILED) mean the effect was applied and exactly one receipt is stored;
      REJECTED, ABORTED and STALE_STATE, like every other state not past the commit boundary, mean
      no effect and no receipt. */
  lemma DurableOutcomesAreTruthful(hash: EventHash, state: M.Values, version: nat,
                                   actions: seq<Action>, id: string)
    requires LawfulRun(actions)
    requires id in Reach(hash, Initial(state, version), actions).tables.transactions
    ensures OutcomeIsTrue(Reach(hash, Initial(state, version), actions), id)
  {
    hide Reach, Inv, OutcomeIsTrue;
    RunsKeepInv(hash, state, version, actions);
    InvMakesOutcomesTrue(Reach(hash, Initial(state, version), actions), id, state, version);
  }

  lemma RowState(s: System, id: string, state: M.Values, version: nat)
    requires Inv(s, state, version) && id in s.tables.transactions
    ensures id in s.sessions
    ensures s.tables.transactions[id].state == s.sessions[id].record.state
    ensures s.tables.transactions[id].record == s.sessions[id].record
    ensures s.tables.transactions[id].version == s.sessions[id].record.version
    ensures s.tables.transactions[id].intended == s.sessions[id].record.intended
  {
    hide LocalOk, Owned, Truthful, Serial, Recorded;
  }

  // ----- one live owner ------------------------------------------------------------------------

  /** Grant `k` of an intent. */
  ghost predicate GrantIsSound(s: System, intent: string, k: nat)
    requires intent in s.grants && k < |s.grants[intent]|
  {
    var g := s.grants[intent];
    && intent in s.tables.intents && s.tables.intents[intent] == g[|g| - 1]
    && g[k] in s.tables.transactions && g[k] in s.sessions
    && var row := s.tables.transactions[g[k]];
    && row.record.intentHash == Some(intent)
    && (k < |g| - 1 ==>
          && (row.state.Rejected? || row.state.Aborted? || row.state.StaleState?)
          && !WroteOnce(s, g[k]) && !HasReceipt(s.tables.receipts, g[k]))
    && (row.record.supersedes.Some? ==> k > 0 && row.record.supersedes.value == g[k - 1])
    && (k > 0 && row.state != New ==> (row.record.supersedes.Some? <==> s.sessions[g[k]].storage != LinkFailed))
  }

  lemma InvMakesGrantsSound(s: System, intent: string, k: nat, state: M.Values, version: nat)
    requires Inv(s, state, version) && intent in s.grants && k < |s.grants[intent]|
    ensures Distinct(s.grants[intent]) && GrantIsSound(s, intent, k)
  {
    var g := s.grants[intent];
    assert GrantsOf(s, intent);
    assert GrantOk(s.sessions[g[k]], intent, g, k);
    assert g[k] in s.tables.transactions by { hide LocalOk, RowOk; }
    RowState(s, g[k], state, version);
    GrantedRecord(s, g[k], state, version);
    InvMakesOutcomesTrue(s, g[k], state, version);
    hide Inv, Distinct, WroteOnce, OneReceipt, HasReceipt;
  }

  /** A link leads from one grant of an intent to the grant before. */
  ghost predicate LinksBack(s: System, id: string) {
    && id in s.tables.transactions
    && var record := s.tables.transactions[id].record;
    && record.intentHash.Some? && record.supersedes.Some? && record.intentHash.value in s.grants
    && var g := s.grants[record.intentHash.value];
       exists k: nat :: 0 < k < |g| && g[k] == id && g[k - 1] == record.supersedes.value
  }

  lemma InvMakesLinksLeadBack(s: System, id: string, state: M.Values, version: nat)
    requires Inv(s, state, version) && id in s.tables.transactions
    requires s.tables.transactions[id].record.supersedes.Some?
    ensures LinksBack(s, id)
  {
    RowState(s, id, state, version);
    assert LinkedOk(s.sessions[id], id, s.grants);
    var intent := s.sessions[id].plan.value.intentHash;
    assert intent in s.grants && id in s.grants[intent];
    var k: nat :| k < |s.grants[intent]| && s.grants[intent][k] == id;
    InvMakesGrantsSound(s, intent, k, state, version);
    assert GrantIsSound(s, intent, k);
    hide Inv, LinkedOk, Distinct;
  }

  /** Of all attempts ever granted an intent, every one but the current owner has ended without
      effect and without receipt; attempt `k`, once past NEW, is linked to attempt `k - 1` exactly
      unless its link failed, and otherwise to none.  Every row with a link is such an attempt, and
      the attempts are distinct: so all links in the table form acyclic chains that only lead to
      earlier, ended attempts. */
  lemma OneLiveOwner(hash: EventHash, state: M.Values, version: nat, actions: seq<Action>)
    requires LawfulRun(actions)
    ensures var s := Reach(hash, Initial(state, version), actions);
            && (forall intent | intent in s.grants :: Distinct(s.grants[intent]))
            && (forall intent, k: nat | intent in s.grants && k < |s.grants[intent]| ::
                  GrantIsSound(s, intent, k))
            && (forall id | id in s.tables.transactions
                            && s.tables.transactions[id].record.supersedes.Some? :: LinksBack(s, id))
  {
    hide Reach, Inv, Distinct, GrantIsSound, LinksBack;
    RunsKeepInv(hash, state, version, actions);
    var s := Reach(hash, Initial(state, version), actions);
    forall intent, k: nat | intent in s.grants && k < |s.grants[intent]|
      ensures GrantIsSound(s, intent, k)
    {
      InvMakesGrantsSound(s, intent, k, state, version);
    }
    forall intent | intent in s.grants ensures Distinct(s.grants[intent]) {
      GrantsAreDistinct(s, intent, state, version);
    }
    forall id | id in s.tables.transactions && s.tables.transactions[id].record.supersedes.Some?
      ensures LinksBack(s, id)
    {
      InvMakesLinksLeadBack(s, id, state, version);
    }
  }

  /** Journal storage is down just when the session is about to link. */
  predicate LosesLink(s: System, a: Action, id: string) {
    && a.Advance? && a.id == id && !a.env.storageUp
    && id in s.sessions && s.sessions[id].point.AtLink?
  }

  ghost predicate LinkWasLost(hash: EventHash, init: System, actions: seq<Action>, id: string) {
    exists i :: 0 <= i < |actions| && LosesLink(Reach(hash, init, actions[..i]), actions[i], id)
  }

  /** An attempt that was handed the intent of an earlier one and got past NEW is linked to it if and
      only if storage was not down at the one step at which it links.  Entering the session again
      never makes up for the link. */
  lemma LinkIsMissingExactly(hash: EventHash, state: M.Values, version: nat, actions: seq<Action>,
                             intent: string, k: nat)
    requires LawfulRun(actions)
    requires var s := Reach(hash, Initial(state, version), actions);
             && intent in s.grants && 0 < k < |s.grants[intent]|
             && s.grants[intent][k] in s.tables.transactions
             && s.tables.transactions[s.grants[intent][k]].state != New
    ensures var s := Reach(hash, Initial(state, version), actions);
            var g := s.grants[intent];
            s.tables.transactions[g[k]].record.supersedes ==
              if LinkWasLost(hash, Initial(state, version), actions, g[k]) then None else Some(g[k - 1])
  {
    hide Reach, Inv, Distinct, LinkWasLost, LinksBack;
    OneLiveOwner(hash, state, version, actions);
    var s := Reach(hash, Initial(state, version), actions);
    assert GrantIsSound(s, intent, k);
    LossIsRemembered(hash, state, version, actions, s.grants[intent][k]);
  }

  lemma {:induction false} LossIsRemembered(hash: EventHash, state: M.Values, version: nat,
                                            actions: seq<Action>, id: string)
    requires LawfulRun(actions)
    ensures var s := Reach(hash, Initial(state, version), actions);
            LinkWasLost(hash, Initial(state, version), actions, id) <==>
            id in s.sessions && s.sessions[id].storage == LinkFailed
  {
    hide Inv, Step, Lawful, LosesLink;
    var init := Initial(state, version);
    if actions != [] {
      var n := |actions| - 1;
      var before := Reach(hash, init, actions[..n]);
      LossIsRemembered(hash, state, version, actions[..n], id);
      RunsKeepInv(hash, state, version, actions[..n]);
      StepLosesLink(hash, before, actions[n], id, state, version);
      LossSnoc(hash, init, actions, id);
    }
  }

  lemma LossSnoc(hash: EventHash, init: System, actions: seq<Action>, id: string)
    requires actions != []
    ensures var n := |actions| - 1;
            LinkWasLost(hash, init, actions, id) <==>
            LinkWasLost(hash, init, actions[..n], id) || LosesLink(Reach(hash, init, actions[..n]), actions[n], id)
  {
    hide LosesLink, Reach;
    var n := |actions| - 1;
    forall i | 0 <= i < n ensures actions[..n][..i] == actions[..i] && actions[..n][i] == actions[i] {}
    if LinkWasLost(hash, init, actions, id) {
      var i :| 0 <= i < |actions| && LosesLink(Reach(hash, init, actions[..i]), actions[i], id);
      if i < n {
        assert LosesLink(Reach(hash, init, actions[..n][..i]), actions[..n][i], id);
      }
    }
    if LinkWasLost(hash, init, actions[..n], id) {
      var i :| 0 <= i < n && LosesLink(Reach(hash, init, actions[..n][..i]), actions[..n][i], id);
      assert LosesLink(Reach(hash, init, actions[..i]), actions[i], id);
    }
  }

  /** What one step does to the history of a session. */
  lemma StepLosesLink(hash: EventHash, s: System, a: Action, id: string, state: M.Values, version: nat)
    requires Inv(s, state, version)
    ensures var s' := Step(hash, s, a);
            if id in s.sessions then
              id in s'.sessions
              && (s'.sessions[id].storage == LinkFailed <==>
                    s.sessions[id].storage == LinkFailed || LosesLink(s, a, id))
            else !LosesLink(s, a, id) && (id in s'.sessions ==> s'.sessions[id].storage != LinkFailed)
  {
    hide Inv, DoAdvance, DoAdmit, Open;
    match a
    case Admit(p, env) => AdmitOutcome(hash, s, p, env); AdmitsFresh(s, p, state, version);
    case Start(_, _, _) =>
    case Advance(other, env) =>
      if other in s.sessions {
        AdvanceLosesLink(hash, s, other, env, state, version);
      }
    case OutsideWrite(_) =>
  }

  lemma AdmitsFresh(s: System, p: M.Proposal, state: M.Values, version: nat)
    requires Inv(s, state, version)
    ensures p.transactionId !in s.tables.transactions ==> p.transactionId !in s.sessions
  {
    hide LocalOk, RowOk, Owned, Truthful, Serial, Recorded;
  }

  /** One session moves, and its history is as it was but for a link that fails. */
  predicate Remembers(s: System, s': System, id: string, lost: bool) {
    && id in s.sessions && id in s'.sessions
    && s'.sessions == s.sessions[id := s'.sessions[id]]
    && (s'.sessions[id].storage == LinkFailed <==> s.sessions[id].storage == LinkFailed || lost)
  }

  lemma AdvanceLosesLink(hash: EventHash, s: System, id: string, env: Env, state: M.Values, version: nat)
    requires Inv(s, state, version) && id in s.sessions
    ensures Remembers(s, DoAdvance(hash, s, id, env), id, s.sessions[id].point.AtLink? && !env.storageUp)
  {
    var me := s.sessions[id];
    hide Inv, Remembers, DoLink, DoSend, DoBind, DoReserve, DoReceipt, DoCommit, Converse, Refuse, M.Inspect;
    match me.point
    case AtLink(previous) => LinkingRemembers(s, id, env, state, version);
    case AtSend(event, next) => SendingRemembers(hash, s, id, event, next, env);
    case AtBind(plan) => BindingRemembers(s, id, plan, env);
    case AtReserve => ReservingRemembers(s, id, env);
    case AtReceipt(receipt) => ReceivingRemembers(s, id, receipt, env);
    case AtCommit => CommittingRemembers(s, id, env);
    case _ => TalkingRemembers(hash, s, id, env);
  }

  lemma LinkingRemembers(s: System, id: string, env: Env, state: M.Values, version: nat)
    requires Inv(s, state, version) && id in s.sessions && s.sessions[id].point.AtLink?
    ensures Remembers(s, DoLink(s, id, s.sessions[id], s.sessions[id].point.previous, env), id, !env.storageUp)
  {
    LinkOutcome(s, id, s.sessions[id].point.previous, env);
    Parts(s, id, state, version);
    hide Inv, SteadyOk;
  }

  lemma SendingRemembers(hash: EventHash, s: System, id: string, event: TransitionEvent, next: Next, env: Env)
    requires id in s.sessions && s.sessions[id].point == AtSend(event, next)
    ensures Remembers(s, DoSend(hash, s, id, s.sessions[id], event, next, env), id, false)
  {
    hide Transition, Resume;
  }

  lemma BindingRemembers(s: System, id: string, plan: M.EffectPlan, env: Env)
    requires id in s.sessions && s.sessions[id].point == AtBind(plan)
    ensures Remembers(s, DoBind(s, id, s.sessions[id], plan, env), id, false)
  {
    hide SetTransactionIntent;
  }

  lemma ReservingRemembers(s: System, id: string, env: Env)
    requires id in s.sessions && s.sessions[id].point == AtReserve
    ensures s.sessions[id].plan.Some? ==>
              Remembers(s, DoReserve(s, id, s.sessions[id], s.sessions[id].plan.value.intentHash, env), id, false)
    ensures Remembers(s, s, id, false)
  {
    hide ReserveIntent;
    assert s.sessions == s.sessions[id := s.sessions[id]];
  }

  lemma ReceivingRemembers(s: System, id: string, receipt: EffectReceipt, env: Env)
    requires id in s.sessions && s.sessions[id].point == AtReceipt(receipt)
    ensures Remembers(s, DoReceipt(s, id, s.sessions[id], receipt, env), id, false)
  {
    hide AppendReceipt;
  }

  lemma CommittingRemembers(s: System, id: string, env: Env)
    requires id in s.sessions && s.sessions[id].point == AtCommit
    ensures var me := s.sessions[id];
            me.plan.Some? && me.staged.Some? ==>
              Remembers(s, DoCommit(s, id, me, me.plan.value, me.staged.value, env), id, false)
    ensures Remembers(s, s, id, false)
  {
    hide M.Commit, CommitFault;
    assert s.sessions == s.sessions[id := s.sessions[id]];
  }

  lemma TalkingRemembers(hash: EventHash, s: System, id: string, env: Env)
    requires id in s.sessions
    requires var p := s.sessions[id].point;
             Conversing(p) || p == AtRest || p == AtAdmission || p == AtInspect
    ensures Remembers(s, DoAdvance(hash, s, id, env), id, false)
  {
    var me := s.sessions[id];
    assert s.sessions == s.sessions[id := s.sessions[id]];
    if Conversing(me.point) && me.plan.Some? {
      ConverseHoldsNothing(me, me.plan.value, s.mock, env);
    }
    hide Converse, Refuse, M.Inspect;
  }

  lemma GrantsAreDistinct(s: System, intent: string, state: M.Values, version: nat)
    requires Inv(s, state, version) && intent in s.grants
    ensures Distinct(s.grants[intent])
  {
    assert GrantsOf(s, intent);
  }

  lemma GrantedRecord(s: System, id: string, state: M.Values, version: nat)
    requires Inv(s, state, version) && id in s.sessions && s.sessions[id].plan.Some?
    ensures s.sessions[id].record.intentHash == Some(s.sessions[id].plan.value.intentHash)
    ensures s.sessions[id].point.AtLink? ==> s.sessions[id].record.state == New
  {
    Parts(s, id, state, version);
    hide Inv;
  }

  /** An attempt that ended without effect stays so for ever. */
  lemma {:induction false} EndedStaysEnded(hash: EventHash, state: M.Values, version: nat,
                                           actions: seq<Action>, later: seq<Action>, id: string)
    requires LawfulRun(actions + later)
    requires var s := Reach(hash, Initial(state, version), actions);
             id in s.tables.transactions && SafeNoEffect(s.tables.transactions[id].state)
    ensures var s := Reach(hash, Initial(state, version), actions);
            var t := Reach(hash, Initial(state, version), actions + later);
            && id in t.tables.transactions
            && t.tables.transactions[id] == s.tables.transactions[id]
            && !WroteOnce(t, id) && !HasReceipt(t.tables.receipts, id)
    decreases |later|
  {
    hide Inv, Step, Lawful, WroteOnce, HasReceipt, OutcomeIsTrue, SafeNoEffect, Initial;
    var t := Reach(hash, Initial(state, version), actions + later);
    if later == [] {
      assert actions + later == actions;
    } else {
      var n := |later| - 1;
      assert (actions + later)[..|actions + later| - 1] == actions + later[..n];
      EndedStaysEnded(hash, state, version, actions, later[..n], id);
      RunsKeepInv(hash, state, version, actions + later[..n]);
      assert Lawful((actions + later)[|actions| + n]);
      RowOfEnded(hash, Reach(hash, Initial(state, version), actions + later[..n]), later[n], id,
                 state, version);
    }
    DurableOutcomesAreTruthful(hash, state, version, actions + later, id);
    EndedIsTrue(t, id);
  }

  lemma EndedIsTrue(s: System, id: string)
    requires id in s.tables.transactions && OutcomeIsTrue(s, id)
    requires SafeNoEffect(s.tables.transactions[id].state)
    ensures !WroteOnce(s, id) && !HasReceipt(s.tables.receipts, id)
  {
    hide WroteOnce, HasReceipt, OneReceipt;
  }

  /** No step changes the row of an ended transaction. */
  lemma RowOfEnded(hash: EventHash, s: System, a: Action, id: string, state: M.Values, version: nat)
    requires Inv(s, state, version) && Lawful(a)
    requires id in s.tables.transactions && SafeNoEffect(s.tables.transactions[id].state)
    ensures var s' := Step(hash, s, a);
            id in s'.tables.transactions && s'.tables.transactions[id] == s.tables.transactions[id]
  {
    RowState(s, id, state, version);
    Parts(s, id, state, version);
    if a.Advance? && a.id in s.sessions {
      EndedIsQuiet(s.sessions[id], id);
      RowsTouched(hash, s, a.id, a.env, state, version);
    } else if a.Admit? {
      AdmitTouches(hash, s, a.proposal, a.env);
    }
    hide Inv, LocalOk, OwnerOk, CopyOk, ClosedOk, RowOk, EffectOk, DoAdvance, DoAdmit, Open;
  }

  lemma EndedIsQuiet(me: Session, id: string)
    requires LocalOk(me, id) && SafeNoEffect(me.record.state)
    ensures me.point == AtRest
  {
    if me.point.AtSend? {
      SafeIsFinal(me.record.state, me.point.event, me.record.intended);
    }
    hide ApplyTransition;
  }

  lemma AdmitTouches(hash: EventHash, s: System, p: M.Proposal, env: Env)
    ensures var t := DoAdmit(hash, s, p, env).tables.transactions;
            forall other | other in s.tables.transactions ::
              other in t && t[other] == s.tables.transactions[other]
  {
    hide NextEvent, Insertable;
  }

  /** A step of a session touches its own row only. */
  lemma RowsTouched(hash: EventHash, s: System, id: string, env: Env, state: M.Values, version: nat)
    requires Inv(s, state, version) && id in s.sessions
    ensures var t := DoAdvance(hash, s, id, env).tables.transactions;
            && (forall other | other in s.tables.transactions && other != id ::
                  other in t && t[other] == s.tables.transactions[other])
            && (s.sessions[id].point == AtRest ==> t == s.tables.transactions)
  {
    AdvancePerforms(hash, s, id, env);
    OperationTouches(hash, s.tables, s.sessions[id], id, env);
    hide Inv, J.Perform, OperationAt;
    if s.sessions[id].point != AtRest {
      hide DoAdvance;
    }
  }

  lemma OperationTouches(hash: EventHash, t: Tables, me: Session, id: string, env: Env)
    ensures var t' := J.Perform(hash, t, OperationAt(me, id, env)).1.transactions;
            forall other | other in t.transactions && other != id ::
              other in t' && t'[other] == t.transactions[other]
  {
    hide J.Perform;
    var op := OperationAt(me, id, env);
    forall other | other in t.transactions && other != id
      ensures var t' := J.Perform(hash, t, op).1.transactions;
              other in t' && t'[other] == t.transactions[other]
    {
      PerformTouches(hash, t, op, id, other);
    }
  }

  /** A journal operation on one transaction leaves the row of every other alone. */
  lemma PerformTouches(hash: EventHash, t: Tables, op: J.JournalOperation, id: string, other: string)
    requires other in t.transactions && other != id
    requires op.DoTransition? || op.DoLink? || op.DoSetIntent? ==> op.id == id
    ensures var t' := J.Perform(hash, t, op).1.transactions;
            other in t' && t'[other] == t.transactions[other]
  {
    hide NextEvent, Insertable, ApplyTransition, Replaceable;
  }

  // ----- every session run is legal and closes ---------------------------------------------------

  /** Whatever a session sends is a legal step of its row, with the current version: the journal
      can refuse it only for storage. */
  lemma SessionsSendOnlyLegalTransitions(hash: EventHash, state: M.Values, version: nat,
                                         actions: seq<Action>, id: string, stamp: Stamp,
                                         reason: Option<string>)
    requires LawfulRun(actions)
    requires var s := Reach(hash, Initial(state, version), actions);
             id in s.sessions && s.sessions[id].point.AtSend?
    ensures var s := Reach(hash, Initial(state, version), actions);
            var me := s.sessions[id];
            && id in s.tables.transactions
            && (var row := s.tables.transactions[id];
                && row.version == me.record.version
                && ApplyTransition(row.state, me.point.event, row.intended).Success?)
            && (var r := Transition(hash, s.tables, id, me.record.version, me.point.event, stamp,
                                    reason).0;
                r.Failure? ==> r.error == StorageError)
  {
    var s := Reach(hash, Initial(state, version), actions);
    RunsKeepInv(hash, state, version, actions);
    hide Reach;
    Parts(s, id, state, version);
    RowState(s, id, state, version);
    SendIsLegal(s.sessions[id], id, s.sessions[id].point.event, s.sessions[id].point.next);
    hide Inv, LocalOk, OwnerOk, CopyOk, ClosedOk, EffectOk, ApplyTransition, NextEvent, Insertable,
         Equipped, Recovers, SteadyOk;
  }

  /** With storage that worked, an exit that has finished leaves a terminal state, IN_DOUBT or
      FAILED, or ABORTING because `adapter.abort` raised; any other operation that has finished may
      also leave NEW or READY_TO_COMMIT. */
  lemma SessionsClose(hash: EventHash, state: M.Values, version: nat, actions: seq<Action>, id: string)
    requires LawfulRun(actions)
    requires var s := Reach(hash, Initial(state, version), actions);
             id in s.sessions && s.sessions[id].point == AtRest && s.sessions[id].storage == AllWorked
    ensures var s := Reach(hash, Initial(state, version), actions);
            var me := s.sessions[id];
            && id in s.tables.transactions
            && (var outcome := s.tables.transactions[id].state;
                && (outcome == Aborting ==> me.abortRaised)
                && (IsTerminal(outcome) || outcome in {InDoubt, Failed, Aborting, New, ReadyToCommit})
                && (me.operation == Exiting ==>
                      IsTerminal(outcome) || outcome in {InDoubt, Failed, Aborting}))
  {
    var s := Reach(hash, Initial(state, version), actions);
    RunsKeepInv(hash, state, version, actions);
    hide Reach;
    Parts(s, id, state, version);
    RowState(s, id, state, version);
    hide Inv, LocalOk, OwnerOk, CopyOk, EffectOk;
  }

  /** ABORTED and STALE_STATE mean that whatever stage the session held was discarded with PASS. */
  lemma AbortedMeansDiscarded(hash: EventHash, state: M.Values, version: nat, actions: seq<Action>,
                              id: string)
    requires LawfulRun(actions)
    requires var s := Reach(hash, Initial(state, version), actions);
             && id in s.tables.transactions
             && (s.tables.transactions[id].state.Aborted? || s.tables.transactions[id].state.StaleState?)
    ensures var s := Reach(hash, Initial(state, version), actions);
            && id in s.sessions
            && ((s.sessions[id].effect.None? && s.sessions[id].staged.None?) || s.sessions[id].discarded)
  {
    var s := Reach(hash, Initial(state, version), actions);
    RunsKeepInv(hash, state, version, actions);
    hide Reach;
    RowState(s, id, state, version);
    Parts(s, id, state, version);
    hide Inv, OwnerOk, CopyOk, EffectOk;
  }

  // ----- the event log of a concurrent run -------------------------------------------------------

  /** Every step of the system is at most one operation of the journal. */
  lemma StepIsAtMostOneOperation(hash: EventHash, s: System, a: Action)
    ensures var t := Step(hash, s, a).tables;
            t == s.tables || exists op :: J.Proper(op) && t == J.Perform(hash, s.tables, op).1
  {
    hide NextEvent, Insertable, ApplyTransition, Converse, M.Commit, M.Inspect, Replaceable,
         CommitFault, Refuse, Resume, J.Perform;
    match a
    case Admit(p, env) => AdmitIsOperation(hash, s, p, env);
    case Start(_, _, _) =>
    case Advance(id, env) =>
      if id in s.sessions {
        AdvancePerforms(hash, s, id, env);
        assert J.Proper(OperationAt(s.sessions[id], id, env));
      }
    case OutsideWrite(_) =>
  }

  lemma AdmitIsOperation(hash: EventHash, s: System, p: M.Proposal, env: Env)
    ensures var t := DoAdmit(hash, s, p, env).tables;
            t == s.tables || exists op :: J.Proper(op) && t == J.Perform(hash, s.tables, op).1
  {
    hide NextEvent, Insertable;
    var op := J.DoCreate(p.transactionId, p.goalId, env.stamp);
    assert J.Proper(op);
    if env.storageUp {
      var t := J.Perform(hash, s.tables, op).1;
      assert DoAdmit(hash, s, p, env).tables == t;
    }
  }

  /** The journal operation a session performs at each point. */
  function OperationAt(me: Session, id: string, env: Env): J.JournalOperation {
    match me.point
    case AtBind(plan) => J.DoSetIntent(id, plan.intentHash)
    case AtReserve => J.DoReserve(if me.plan.Some? then me.plan.value.intentHash else "", id)
    case AtLink(previous) => J.DoLink(id, previous)
    case AtReceipt(receipt) => J.DoReceipt(receipt)
    case AtSend(event, next) => J.DoTransition(id, me.record.version, event, env.stamp, env.reason)
    case _ => J.DoConsume("", 0)
  }

  lemma AdvancePerforms(hash: EventHash, s: System, id: string, env: Env)
    requires id in s.sessions
    ensures var t := DoAdvance(hash, s, id, env).tables;
            || t == s.tables
            || t == J.Perform(hash, s.tables, OperationAt(s.sessions[id], id, env)).1
  {
    hide NextEvent, Insertable, ApplyTransition, Converse, M.Commit, M.Inspect, Replaceable,
         CommitFault, Refuse, Resume;
  }

  /** The log of a concurrent run reproduces the table and is a good chain for every run id. */
  lemma {:induction false} ConcurrentLogInv(hash: EventHash, state: M.Values, version: nat,
                                            actions: seq<Action>)
    ensures J.LogInv(hash, Reach(hash, Initial(state, version), actions).tables)
  {
    if actions == [] {
      EmptyLog(hash);
    } else {
      hide Step, J.Perform, J.LogInv;
      var before := actions[..|actions| - 1];
      ConcurrentLogInv(hash, state, version, before);
      var s := Reach(hash, Initial(state, version), before);
      StepIsAtMostOneOperation(hash, s, actions[|actions| - 1]);
      var t := Step(hash, s, actions[|actions| - 1]).tables;
      if t != s.tables {
        var op :| J.Proper(op) && t == J.Perform(hash, s.tables, op).1;
        J.PerformKeepsLog(hash, s.tables, op);
      }
    }
  }

  lemma EmptyLog(hash: EventHash)
    ensures J.LogInv(hash, EMPTY_TABLES)
  {}

  lemma ConcurrentRunsAreAudited(hash: EventHash, state: M.Values, version: nat,
                                 actions: seq<Action>, id: string, run: string)
    ensures var t := Reach(hash, Initial(state, version), actions).tables;
            && GoodChain(hash, J.RunLog(t.events, run))
            && (id in t.transactions ==>
                  J.Replay(t.events, id) == J.Alive(t.transactions[id].state,
                    t.transactions[id].intended, t.transactions[id].version))
  {
    ConcurrentLogInv(hash, state, version, actions);
  }
}
