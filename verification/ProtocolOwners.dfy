/** One live owner per intent: reservations, supersession and the history of grants. */
module ProtocolOwners {
  import opened Wrappers
  import opened StateMachine
  import opened Domain
  import opened Journal
  import opened Protocol
  import opened ProtocolLocal
  import opened ProtocolSync

  /** States from which an attempt can still have, or already has had, an effect. */
  predicate Live(s: TransactionState) {
    InPreparation(s) || PastCommit(s)
  }

  /** The session relies on owning its intent. */
  predicate Holds(me: Session) {
    || Live(me.record.state)
    || me.point.AtLink?
    || me.point == AtSend(ProposalValid, ThenAuthorize)
  }

  predicate OwnerOk(me: Session, id: string, intents: map<string, string>) {
    Holds(me) ==>
      && me.plan.Some?
      && me.plan.value.intentHash in intents
      && intents[me.plan.value.intentHash] == id
  }

  /** Grant number `k` of an intent: its plan is for that intent, it is about to be linked to its
      predecessor, or linked to it, or lost the link, and unless it is the last one it ended safely. */
  predicate GrantOk(me: Session, intent: string, grants: seq<string>, k: nat)
    requires k < |grants|
  {
    && me.plan.Some? && me.plan.value.intentHash == intent
    && (me.record.supersedes.Some? ==> k > 0 && me.record.supersedes.value == grants[k - 1])
    && (me.point.AtLink? ==> k > 0 && k == |grants| - 1 && me.point.previous == grants[k - 1])
    && (k < |grants| - 1 ==> SafeNoEffect(me.record.state))
    && (me.storage == LinkFailed <==> k > 0 && !me.point.AtLink? && me.record.supersedes.None?)
  }

  predicate Distinct(g: seq<string>) {
    forall j, k | 0 <= j < k < |g| :: g[j] != g[k]
  }

  ghost predicate GrantsOf(s: System, intent: string)
    requires intent in s.grants
  {
    var g := s.grants[intent];
    && g != [] && Distinct(g)
    && intent in s.tables.intents && s.tables.intents[intent] == g[|g| - 1]
    && (forall k: nat | k < |g| :: g[k] in s.sessions && GrantOk(s.sessions[g[k]], intent, g, k))
  }

  /** Only a session that was granted its intent links, is linked, or failed to link, to an earlier
      one. */
  predicate LinkedOk(me: Session, id: string, grants: map<string, seq<string>>) {
    me.record.supersedes.Some? || me.point.AtLink? || me.storage == LinkFailed ==>
      && me.plan.Some?
      && me.plan.value.intentHash in grants
      && id in grants[me.plan.value.intentHash]
  }

  ghost predicate Owned(s: System) {
    && (forall id | id in s.sessions :: OwnerOk(s.sessions[id], id, s.tables.intents))
    && (forall id | id in s.sessions :: LinkedOk(s.sessions[id], id, s.grants))
    && (forall intent | intent in s.tables.intents :: intent in s.grants)
    && (forall intent | intent in s.grants :: GrantsOf(s, intent))
  }

  // ----- steps that leave reservations alone -------------------------------------------------

  /** A session moves on without reserving or linking. */
  predicate Quiet(me: Session, me': Session) {
    && (me.plan.Some? ==> me'.plan == me.plan)
    && (SafeNoEffect(me.record.state) ==> me'.record.state == me.record.state)
    && me'.record.supersedes == me.record.supersedes
    && !me'.point.AtLink?
    && (me'.storage == LinkFailed <==> me.storage == LinkFailed || (me.point.AtLink? && me.record.supersedes.None?))
    && (Holds(me') ==> Holds(me))
  }

  lemma QuietGrant(me: Session, me': Session, intent: string, g: seq<string>, k: nat)
    requires k < |g| && GrantOk(me, intent, g, k) && Quiet(me, me')
    ensures GrantOk(me', intent, g, k)
  {
    hide Holds;
  }

  lemma QuietOwner(me: Session, me': Session, id: string, intents: map<string, string>,
                   grants: map<string, seq<string>>)
    requires OwnerOk(me, id, intents) && LinkedOk(me, id, grants) && Quiet(me, me')
    ensures OwnerOk(me', id, intents) && LinkedOk(me', id, grants)
  {
    hide Holds;
  }

  /** Whatever grant fitted the session before fits it after. */
  ghost predicate KeepsGrants(me: Session, me': Session) {
    forall intent, g, k: nat | k < |g| && GrantOk(me, intent, g, k) :: GrantOk(me', intent, g, k)
  }

  lemma SessionKeepsOwners(s: System, s': System, id: string, me: Session)
    requires Owned(s) && id in s.sessions && KeepsGrants(s.sessions[id], me)
    requires OwnerOk(me, id, s.tables.intents) && LinkedOk(me, id, s.grants)
    requires s'.sessions == s.sessions[id := me]
    requires s'.tables.intents == s.tables.intents && s'.grants == s.grants
    ensures Owned(s')
  {
    hide OwnerOk, LinkedOk, GrantOk;
    forall intent | intent in s'.grants ensures GrantsOf(s', intent) {
      assert GrantsOf(s, intent);
    }
  }

  lemma QuietKeepsOwners(s: System, s': System, id: string, me: Session)
    requires Owned(s) && id in s.sessions && Quiet(s.sessions[id], me)
    requires s'.sessions == s.sessions[id := me]
    requires s'.tables.intents == s.tables.intents && s'.grants == s.grants
    ensures Owned(s')
  {
    hide Holds, Quiet, OwnerOk, LinkedOk, GrantOk;
    QuietOwner(s.sessions[id], me, id, s.tables.intents, s.grants);
    forall intent, g, k: nat | k < |g| && GrantOk(s.sessions[id], intent, g, k)
      ensures GrantOk(me, intent, g, k)
    {
      QuietGrant(s.sessions[id], me, intent, g, k);
    }
    SessionKeepsOwners(s, s', id, me);
  }

  /** A new session, not yet bound to an intent. */
  lemma FreshKeepsOwners(s: System, s': System, id: string, me: Session)
    requires Owned(s) && id !in s.sessions
    requires s'.sessions == s.sessions[id := me]
    requires s'.tables.intents == s.tables.intents && s'.grants == s.grants
    requires !Holds(me) && me.record.supersedes.None? && !me.point.AtLink? && me.storage != LinkFailed
    ensures Owned(s')
  {
    hide Holds, OwnerOk, LinkedOk, GrantOk;
    assert OwnerOk(me, id, s.tables.intents) && LinkedOk(me, id, s.grants) by {
      NothingHeld(me, id, s.tables.intents, s.grants);
    }
    forall intent | intent in s'.grants ensures GrantsOf(s', intent) {
      assert GrantsOf(s, intent);
    }
  }

  lemma NothingHeld(me: Session, id: string, intents: map<string, string>,
                    grants: map<string, seq<string>>)
    requires !Holds(me) && me.record.supersedes.None? && !me.point.AtLink? && me.storage != LinkFailed
    ensures OwnerOk(me, id, intents) && LinkedOk(me, id, grants)
  {}

  // ----- each kind of step is quiet ----------------------------------------------------------

  lemma StopIsQuiet(me: Session, id: string)
    requires LocalOk(me, id)
    ensures Quiet(me, Stop(me))
  {}

  lemma BindIsQuiet(me: Session, id: string, plan: M.EffectPlan, record: TransactionRecord)
    requires LocalOk(me, id) && me.point == AtBind(plan)
    requires record == me.record.(intentHash := record.intentHash)
    ensures Quiet(me, me.(plan := Some(plan), record := record, point := AtRest))
    ensures Quiet(me, me.(point := AtSend(ValidationFailed, ThenRest), storage := AfterFailure(me)))
  {}

  /** An event other than PROPOSAL_VALID makes no state live. */
  lemma LiveComesFromLive(s: TransactionState, e: TransitionEvent, o: Option<IntendedOutcome>)
    requires ApplyTransition(s, e, o).Success?
    ensures Live(ApplyTransition(s, e, o).value.target) ==>
              Live(s) || (e == ProposalValid && ApplyTransition(s, e, o).value.target == Planned)
  {}

  lemma SafeIsFinal(s: TransactionState, e: TransitionEvent, o: Option<IntendedOutcome>)
    requires SafeNoEffect(s)
    ensures ApplyTransition(s, e, o).Failure?
  {
    TerminalMeansNoSuccessor(s, o);
  }

  lemma ResumeHoldsNothing(next: Next)
    ensures !Resume(next).AtLink?
    ensures Resume(next) != AtSend(ProposalValid, ThenAuthorize)
  {}

  /** PROPOSAL_VALID is only ever sent on the way to authorization. */
  lemma ProposalIsAuthorizedNext(event: TransitionEvent, next: Next, h: Holdings)
    requires SendOk(event, next, h)
    ensures event == ProposalValid ==> next == ThenAuthorize
  {}

  lemma SendIsQuiet(me: Session, event: TransitionEvent, next: Next, now: int, reason: Option<string>)
    requires me.point == AtSend(event, next) && SendOk(event, next, Hold(me))
    ensures var d := ApplyTransition(me.record.state, event, me.record.intended).value;
            Quiet(me, me.(record := Journal.Advance(me.record, d, now, event, reason),
                          point := Resume(next)))
  {
    LiveComesFromLive(me.record.state, event, me.record.intended);
    ProposalIsAuthorizedNext(event, next, Hold(me));
    if SafeNoEffect(me.record.state) {
      SafeIsFinal(me.record.state, event, me.record.intended);
    }
    ResumeHoldsNothing(next);
    hide ApplyTransition, Resume, Live;
  }

  /** Only the point, the handles and the flags of a session change, and it neither links nor
      sends PROPOSAL_VALID. */
  lemma LocalMoveIsQuiet(me: Session, me': Session)
    requires me'.record == me.record && me'.plan == me.plan && !me.point.AtLink?
    requires !me'.point.AtLink? && me'.point != AtSend(ProposalValid, ThenAuthorize)
    requires me'.storage == me.storage
    ensures Quiet(me, me')
  {}

  lemma ConverseHoldsNothing(me: Session, plan: M.EffectPlan, mock: M.Adapter, env: Env)
    requires Conversing(me.point)
    ensures !Converse(me, plan, mock, env).0.point.AtLink?
    ensures Converse(me, plan, mock, env).0.point != AtSend(ProposalValid, ThenAuthorize)
    ensures Converse(me, plan, mock, env).0.storage == me.storage
  {
    hide M.Execute, M.Stage, M.Inspect, M.Abort;
  }

  lemma OpenHoldsNothing(me: Session, op: Operation, env: Env)
    ensures !Open(me, op, env).AtLink?
    ensures Open(me, op, env) != AtSend(ProposalValid, ThenAuthorize)
  {}

  // ----- reserving and linking ---------------------------------------------------------------

  /** At its reservation a session that does not own the intent was never granted it. */
  lemma NeverGranted(s: System, id: string, intent: string, k: nat)
    requires Synced(s) && Owned(s) && id in s.sessions
    requires s.sessions[id].point == AtReserve
    requires intent in s.grants && k < |s.grants[intent]| && s.grants[intent][k] == id
    ensures intent in s.tables.intents && s.tables.intents[intent] == id
  {
    assert GrantsOf(s, intent);
    assert GrantOk(s.sessions[id], intent, s.grants[intent], k);
    assert s.sessions[id].record.state == New by { ReservingState(s.sessions[id], id); }
  }

  lemma ReservingState(me: Session, id: string)
    requires LocalOk(me, id) && me.point == AtReserve
    ensures me.record.state == New && me.plan.Some?
  {}

  /** A session about to take over an intent has not superseded anything yet. */
  lemma ReserverIsUnlinked(s: System, id: string)
    requires Synced(s) && Owned(s) && id in s.sessions
    requires s.sessions[id].point == AtReserve && s.sessions[id].plan.Some?
    ensures var intent := s.sessions[id].plan.value.intentHash;
            (intent in s.tables.intents && s.tables.intents[intent] != id)
            || intent !in s.tables.intents ==>
              && s.sessions[id].record.supersedes.None? && s.sessions[id].storage != LinkFailed
              && (intent in s.grants ==> id !in s.grants[intent])
  {
    var me := s.sessions[id];
    var intent := me.plan.value.intentHash;
    if intent in s.grants && id in s.grants[intent] {
      var k: nat :| k < |s.grants[intent]| && s.grants[intent][k] == id;
      NeverGranted(s, id, intent, k);
    }
    assert LinkedOk(me, id, s.grants);
  }

  /** One more grant of an intent, to a session that now holds it. */
  lemma GrantKeepsOwners(s: System, s': System, id: string, intent: string, point: Point)
    requires Synced(s) && Owned(s) && id in s.sessions
    requires var me := s.sessions[id];
             && me.point == AtReserve && me.plan.Some? && me.plan.value.intentHash == intent
             && me.record.state == New && me.record.supersedes.None? && me.storage != LinkFailed
    requires var g := if intent in s.grants then s.grants[intent] else [];
             && id !in g
             && (g != [] ==> point == AtLink(g[|g| - 1]) && SafeNoEffect(s.sessions[g[|g| - 1]].record.state))
             && (g == [] ==> point == AtSend(ProposalValid, ThenAuthorize))
             && s'.grants == s.grants[intent := g + [id]]
    requires s'.tables.intents == s.tables.intents[intent := id]
    requires s'.sessions == s.sessions[id := s.sessions[id].(point := point)]
    ensures Owned(s')
  {
    hide Synced, OwnerOk, LinkedOk, GrantsOf, SafeNoEffect;
    var g := if intent in s.grants then s.grants[intent] else [];
    var me := s.sessions[id];
    GrantMovesOwnership(s, s', id, intent, point);
    forall other | other in s'.sessions ensures LinkedOk(s'.sessions[other], other, s'.grants) {
      assert LinkedOk(s.sessions[other], other, s.grants);
      LinkedGrows(s.sessions[other], other, s.grants, intent, id);
      if other == id {
        GrantedIsLinked(me.(point := point), id, s'.grants, intent, g);
      }
    }
    forall i | i in s'.grants ensures GrantsOf(s', i) {
      if i == intent {
        NewGrantOk(s, s', id, intent, point);
      } else {
        assert GrantsOf(s, i);
        OtherGrantsOk(s, s', id, me.(point := point), i, intent);
      }
    }
  }

  lemma GrantedIsLinked(me: Session, id: string, grants: map<string, seq<string>>, intent: string,
                        g: seq<string>)
    requires intent in grants && grants[intent] == g + [id]
    requires me.plan.Some? && me.plan.value.intentHash == intent
    ensures LinkedOk(me, id, grants)
  {
    assert id in grants[intent];
  }

  /** The new owner holds the intent, and nobody else does. */
  lemma GrantMovesOwnership(s: System, s': System, id: string, intent: string, point: Point)
    requires Synced(s) && Owned(s) && id in s.sessions
    requires var me := s.sessions[id];
             && me.plan.Some? && me.plan.value.intentHash == intent && me.record.state == New
    requires var g := if intent in s.grants then s.grants[intent] else [];
             && (g != [] ==> SafeNoEffect(s.sessions[g[|g| - 1]].record.state))
             && (g == [] ==> intent !in s.grants || s.grants[intent] == [])
    requires s'.tables.intents == s.tables.intents[intent := id]
    requires s'.sessions == s.sessions[id := s.sessions[id].(point := point)]
    ensures forall other | other in s'.sessions :: OwnerOk(s'.sessions[other], other, s'.tables.intents)
  {
    assert intent in s.grants ==> GrantsOf(s, intent);
    forall other | other in s'.sessions ensures OwnerOk(s'.sessions[other], other, s'.tables.intents) {
      if other != id {
        OthersDoNotHold(s, id, intent, other);
      }
    }
  }

  lemma LinkedGrows(me: Session, other: string, grants: map<string, seq<string>>, intent: string, id: string)
    requires LinkedOk(me, other, grants)
    ensures LinkedOk(me, other,
              grants[intent := (if intent in grants then grants[intent] else []) + [id]])
  {}

  /** While an intent changes hands, nobody else relies on owning it. */
  lemma OthersDoNotHold(s: System, id: string, intent: string, other: string)
    requires Synced(s) && Owned(s) && other in s.sessions && other != id
    requires intent in s.grants ==>
               && s.grants[intent] != []
               && s.grants[intent][|s.grants[intent]| - 1] in s.sessions
               && SafeNoEffect(s.sessions[s.grants[intent][|s.grants[intent]| - 1]].record.state)
    ensures OwnerOk(s.sessions[other], other, s.tables.intents[intent := id])
  {
    var me := s.sessions[other];
    assert OwnerOk(me, other, s.tables.intents);
    if Holds(me) && me.plan.value.intentHash == intent {
      assert GrantsOf(s, intent);
      assert s.tables.intents[intent] == other;
      assert SafeNoEffect(me.record.state);
      SafeHoldsNothing(me, other);
    }
  }

  lemma SafeHoldsNothing(me: Session, id: string)
    requires LocalOk(me, id) && SafeNoEffect(me.record.state)
    ensures !Holds(me)
  {
    if me.point.AtSend? {
      SafeIsFinal(me.record.state, me.point.event, me.record.intended);
    }
    hide ApplyTransition;
  }

  lemma NewGrantOk(s: System, s': System, id: string, intent: string, point: Point)
    requires Synced(s) && Owned(s) && id in s.sessions
    requires var me := s.sessions[id];
             && me.plan.Some? && me.plan.value.intentHash == intent
             && me.record.supersedes.None? && me.storage != LinkFailed
    requires var g := if intent in s.grants then s.grants[intent] else [];
             && id !in g
             && (g != [] ==> point == AtLink(g[|g| - 1]) && SafeNoEffect(s.sessions[g[|g| - 1]].record.state))
             && (g == [] ==> point == AtSend(ProposalValid, ThenAuthorize))
             && s'.grants == s.grants[intent := g + [id]]
    requires s'.tables.intents == s.tables.intents[intent := id]
    requires s'.sessions == s.sessions[id := s.sessions[id].(point := point)]
    ensures GrantsOf(s', intent)
  {
    hide Holds, OwnerOk, LinkedOk, LocalOk, RowOk, Synced, SafeNoEffect, GrantOk, Distinct;
    var g := if intent in s.grants then s.grants[intent] else [];
    var g' := g + [id];
    assert g != [] ==> GrantsOf(s, intent);
    assert g == [] ==> Distinct(g) by { EmptyIsDistinct(); }
    DistinctSnoc(g, id);
    NewestGrantOk(s.sessions[id].(point := point), intent, g, id);
    forall k: nat | k < |g'| ensures g'[k] in s'.sessions && GrantOk(s'.sessions[g'[k]], intent, g', k) {
      if k < |g| {
        assert GrantOk(s.sessions[g[k]], intent, g, k);
        assert g[k] != id;
        if k == |g| - 1 {
          EndedAreNotLinking(s, g[k]);
        }
        OlderGrantOk(s.sessions[g[k]], intent, g, id, k);
      }
    }
  }

  lemma EmptyIsDistinct()
    ensures Distinct([])
  {}

  lemma DistinctSnoc(g: seq<string>, id: string)
    requires Distinct(g) && id !in g
    ensures Distinct(g + [id])
  {}

  lemma NewestGrantOk(me: Session, intent: string, g: seq<string>, id: string)
    requires me.plan.Some? && me.plan.value.intentHash == intent
    requires me.record.supersedes.None? && me.storage != LinkFailed
    requires g != [] ==> me.point == AtLink(g[|g| - 1])
    requires g == [] ==> me.point == AtSend(ProposalValid, ThenAuthorize)
    ensures GrantOk(me, intent, g + [id], |g|)
  {}

  lemma OlderGrantOk(me: Session, intent: string, g: seq<string>, id: string, k: nat)
    requires k < |g| && GrantOk(me, intent, g, k)
    requires k == |g| - 1 ==> SafeNoEffect(me.record.state) && !me.point.AtLink?
    ensures GrantOk(me, intent, g + [id], k)
  {}

  lemma EndedAreNotLinking(s: System, id: string)
    requires Synced(s) && id in s.sessions && SafeNoEffect(s.sessions[id].record.state)
    ensures !s.sessions[id].point.AtLink?
  {
    assert LocalOk(s.sessions[id], id);
  }

  lemma OtherGrantsOk(s: System, s': System, id: string, me: Session, i: string, intent: string)
    requires i in s.grants && GrantsOf(s, i) && i != intent
    requires id in s.sessions && s.sessions[id].plan.Some?
    requires s.sessions[id].plan.value.intentHash == intent
    requires i in s'.grants && s'.grants[i] == s.grants[i]
    requires s'.tables.intents == s.tables.intents[intent := id]
    requires s'.sessions == s.sessions[id := me]
    ensures GrantsOf(s', i)
  {
    var g := s.grants[i];
    forall k: nat | k < |g| ensures g[k] in s'.sessions && GrantOk(s'.sessions[g[k]], i, g, k) {
      assert GrantOk(s.sessions[g[k]], i, g, k);
      assert g[k] != id;
    }
  }

  /** The session already owns the intent: nothing is granted. */
  lemma OwnerMayPropose(s: System, id: string)
    requires Owned(s) && id in s.sessions
    requires var me := s.sessions[id];
             && me.point == AtReserve && me.plan.Some?
             && me.plan.value.intentHash in s.tables.intents
             && s.tables.intents[me.plan.value.intentHash] == id
    ensures Owned(With(s, id, s.sessions[id].(point := AtSend(ProposalValid, ThenAuthorize))))
  {
    var me := s.sessions[id];
    var me' := me.(point := AtSend(ProposalValid, ThenAuthorize));
    ProposingGrants(me, id, s.tables.intents, s.grants);
    hide OwnerOk, LinkedOk, GrantOk;
    SessionKeepsOwners(s, With(s, id, me'), id, me');
  }

  lemma ProposingGrants(me: Session, id: string, intents: map<string, string>,
                        grants: map<string, seq<string>>)
    requires me.point == AtReserve && me.plan.Some?
    requires me.plan.value.intentHash in intents && intents[me.plan.value.intentHash] == id
    requires OwnerOk(me, id, intents) && LinkedOk(me, id, grants)
    ensures var me' := me.(point := AtSend(ProposalValid, ThenAuthorize));
            OwnerOk(me', id, intents) && LinkedOk(me', id, grants) && KeepsGrants(me, me')
  {}

  /** The audit link is to the previous grant. */
  lemma LinkingKeepsOwners(s: System, s': System, id: string, previous: string,
                           record: TransactionRecord)
    requires Synced(s) && Owned(s) && id in s.sessions && s.sessions[id].point == AtLink(previous)
    requires record == s.sessions[id].record.(supersedes := Some(previous))
    requires s'.sessions == s.sessions[id := s.sessions[id].(record := record,
                                               point := AtSend(ProposalValid, ThenAuthorize))]
    requires s'.tables.intents == s.tables.intents && s'.grants == s.grants
    ensures Owned(s')
  {
    var me := s.sessions[id];
    LinkingGrants(me, record, id, s.tables.intents, s.grants, previous);
    hide OwnerOk, LinkedOk, GrantOk, LocalOk;
    SessionKeepsOwners(s, s', id, s'.sessions[id]);
  }

  lemma LinkingGrants(me: Session, record: TransactionRecord, id: string, intents: map<string, string>,
                      grants: map<string, seq<string>>, previous: string)
    requires me.point == AtLink(previous) && record == me.record.(supersedes := Some(previous))
    requires me.record.supersedes.None?
    requires OwnerOk(me, id, intents) && LinkedOk(me, id, grants)
    ensures var me' := me.(record := record, point := AtSend(ProposalValid, ThenAuthorize));
            OwnerOk(me', id, intents) && LinkedOk(me', id, grants) && KeepsGrants(me, me')
  {}
}
