/** A run of two attempts in which the second one is never linked to the first. */
module ProtocolExamples {
  import opened Wrappers
  import opened StateMachine
  import opened Ledger
  import opened Domain
  import opened Journal
  import opened Protocol

  // ----- single steps -------------------------------------------------------------------------

  /** Nothing fails; every event has an identifier and a run of its own. */
  function Working(n: string): Env {
    Env(GuardsPass, None, false, Pass, true, Stamp(n, n, "agent", "user", 0), None, n)
  }

  function StorageDown(): Env {
    Working("").(storageUp := false)
  }

  /** The identifiers that the log has used. */
  ghost predicate Stamped(events: seq<EventEnvelope>, used: set<string>) {
    forall e | e in events :: e.material.eventId in used && e.material.runId in used
  }

  lemma FreshIsInsertable(hash: EventHash, events: seq<EventEnvelope>, used: set<string>, n: string, now: int,
                          id: Option<string>, eventType: string, payload: Payload)
    requires Stamped(events, used) && n !in used
    ensures var e := NextEvent(hash, events, Working(n).stamp.(now := now), id, eventType, payload);
            Insertable(events, e) && Stamped(events + [e], used + {n})
  {
    hide NextEventPosition;
  }

  /** A session at rest, not yet entered, and its row. */
  predicate Opened(s: System, id: string, intent: string) {
    && Stands(s, id, intent, New) && s.sessions[id].point == AtRest
  }

  predicate Stands(s: System, id: string, intent: string, state: TransactionState) {
    && id in s.sessions && id in s.tables.transactions
    && var me, row := s.sessions[id], s.tables.transactions[id];
    && me.plan.Some? && me.plan.value.intentHash == intent
    && me.record.state == state && me.record.intended.None? && me.record.supersedes.None?
    && row.record == me.record && row.state == state && row.version == me.record.version
  }

  /** Everything but one session, its row and the log is as it was. */
  predicate OnlyMoves(s: System, s': System, id: string) {
    && s'.sessions - {id} == s.sessions - {id}
    && s'.tables.transactions - {id} == s.tables.transactions - {id}
    && s'.tables.receipts == s.tables.receipts
  }

  lemma OthersStand(s: System, s': System, id: string, other: string, intent: string, state: TransactionState)
    requires OnlyMoves(s, s', id) && other != id && Stands(s, other, intent, state)
    ensures Stands(s', other, intent, state) && s'.sessions[other] == s.sessions[other]
  {
    assert other in s.sessions - {id} && other in s.tables.transactions - {id};
    assert (s'.sessions - {id})[other] == s'.sessions[other];
    assert (s'.tables.transactions - {id})[other] == s'.tables.transactions[other];
  }

  function Admitting(hash: EventHash, s: System, p: M.Proposal, n: string): System {
    Step(hash, s, Admit(p, Working(n)))
  }

  /** Admission, inspection and the binding of the intent. */
  function Opening(hash: EventHash, s: System, p: M.Proposal, n: string): System {
    var id := p.transactionId;
    var s1 := Step(hash, Admitting(hash, s, p, n), Action.Advance(id, Working(n)));
    Step(hash, Step(hash, s1, Action.Advance(id, Working(n))), Action.Advance(id, Working(n)))
  }

  lemma Admits(hash: EventHash, s: System, p: M.Proposal, n: string, used: set<string>)
    requires p.transactionId !in s.sessions && p.transactionId !in s.tables.transactions
    requires Stamped(s.tables.events, used) && n !in used
    ensures var s', id, record := Admitting(hash, s, p, n), p.transactionId, NewRecord(p.transactionId, p.goalId, 0);
            && s'.sessions == s.sessions[id :=
                 Session(p, None, record, None, None, false, AtAdmission, Operation.Opening, false, false, AllWorked)]
            && s'.tables == s.tables.(events := s'.tables.events, transactions :=
                 s.tables.transactions[id := Row(p.goalId, New, 0, None, None, record)])
            && s'.grants == s.grants && Stamped(s'.tables.events, used + {n})
  {
    FreshIsInsertable(hash, s.tables.events, used, n, 0, Some(p.transactionId), CREATED, CreatedPayload(New, 0));
    hide NextEvent, Insertable, Stamped;
  }

  lemma Opens(hash: EventHash, s: System, p: M.Proposal, n: string, used: set<string>)
    requires p.transactionId !in s.sessions && p.transactionId !in s.tables.transactions
    requires Stamped(s.tables.events, used) && n !in used
    ensures var s' := Opening(hash, s, p, n);
            && Opened(s', p.transactionId, p.intentHash) && OnlyMoves(s, s', p.transactionId)
            && s'.tables.intents == s.tables.intents && s'.grants == s.grants
            && Stamped(s'.tables.events, used + {n})
  {
    hide Admitting, Stamped, DoAdmit, DoSend, DoReserve, DoLink, DoCommit, DoReceipt, Converse, Open;
    Admits(hash, s, p, n, used);
  }

  /** An entry up to its reservation. */
  function Reserving(hash: EventHash, s: System, id: string): System {
    Step(hash, Step(hash, s, Start(id, Entering, Working(""))), Action.Advance(id, Working("")))
  }

  lemma Reserves(hash: EventHash, s: System, id: string, intent: string)
    requires Opened(s, id, intent)
    requires intent in s.tables.intents ==>
               s.tables.intents[intent] == id || Replaceable(s.tables, s.tables.intents[intent])
    ensures var s' := Reserving(hash, s, id);
            && Stands(s', id, intent, New) && OnlyMoves(s, s', id)
            && s'.tables.intents == s.tables.intents[intent := id] && s'.tables.events == s.tables.events
            && s'.sessions[id].point ==
                 (if intent in s.tables.intents && s.tables.intents[intent] != id
                  then AtLink(s.tables.intents[intent]) else AtSend(ProposalValid, ThenAuthorize))
            && s'.grants ==
                 if intent in s.tables.intents && s.tables.intents[intent] == id then s.grants
                 else s.grants[intent := (if intent in s.grants then s.grants[intent] else []) + [id]]
  {
    hide Replaceable, DoAdmit, DoSend, DoBind, DoLink, DoCommit, DoReceipt, Converse;
    assert s.tables.intents == s.tables.intents[intent := id]
           || intent !in s.tables.intents || s.tables.intents[intent] != id;
  }

  /** A journal operation without storage ends the entry and leaves the tables alone. */
  lemma Fails(hash: EventHash, s: System, id: string, intent: string)
    requires Stands(s, id, intent, New)
    requires s.sessions[id].point.AtLink? || s.sessions[id].point.AtSend?
    ensures var s' := Step(hash, s, Action.Advance(id, StorageDown()));
            && Opened(s', id, intent) && OnlyMoves(s, s', id)
            && s'.tables == s.tables && s'.grants == s.grants
  {
  }

  /** A transition with working storage. */
  lemma Sends(hash: EventHash, s: System, id: string, intent: string, event: TransitionEvent, next: Next,
              target: TransactionState, n: string, used: set<string>)
    requires Stands(s, id, intent, New) && s.sessions[id].point == AtSend(event, next)
    requires (event == ProposalValid && target == Planned) || (event == ValidationFailed && target == Rejected)
    requires Stamped(s.tables.events, used) && n !in used
    ensures var s' := Step(hash, s, Action.Advance(id, Working(n)));
            && Stands(s', id, intent, target) && OnlyMoves(s, s', id)
            && s'.tables.intents == s.tables.intents && s'.grants == s.grants
            && Stamped(s'.tables.events, used + {n})
  {
    var version := s.sessions[id].record.version + 1;
    FreshIsInsertable(hash, s.tables.events, used, n, 0, Some(id), TRANSITIONED,
                      TransitionPayload(New, target, event, version));
    hide NextEvent, Insertable, Stamped, Resume;
  }

  /** The deadline of a session that was not entered. */
  lemma Expires(hash: EventHash, s: System, id: string, intent: string)
    requires Opened(s, id, intent)
    ensures var s' := Step(hash, s, Start(id, EnforcingDeadline, Working("").(guard := DeadlineElapsed)));
            && Stands(s', id, intent, New) && OnlyMoves(s, s', id)
            && s'.sessions[id].point == AtSend(ValidationFailed, ThenRest)
            && s'.tables == s.tables && s'.grants == s.grants
  {
  }

  // ----- the run --------------------------------------------------------------------------------

  lemma RunOne(hash: EventHash, init: System, actions: seq<Action>, a: Action) returns (longer: seq<Action>)
    requires LawfulRun(actions) && Lawful(a)
    ensures LawfulRun(longer) && Reach(hash, init, longer) == Step(hash, Reach(hash, init, actions), a)
  {
    longer := actions + [a];
    assert longer[..|actions|] == actions;
  }

  lemma RunOpening(hash: EventHash, init: System, actions: seq<Action>, p: M.Proposal, n: string)
    returns (longer: seq<Action>)
    requires LawfulRun(actions)
    ensures LawfulRun(longer) && Reach(hash, init, longer) == Opening(hash, Reach(hash, init, actions), p, n)
  {
    hide Step, Reach, LawfulRun;
    var next := Action.Advance(p.transactionId, Working(n));
    longer := RunOne(hash, init, actions, Admit(p, Working(n)));
    longer := RunOne(hash, init, longer, next);
    longer := RunOne(hash, init, longer, next);
    longer := RunOne(hash, init, longer, next);
  }

  lemma RunReserving(hash: EventHash, init: System, actions: seq<Action>, id: string)
    returns (longer: seq<Action>)
    requires LawfulRun(actions)
    ensures LawfulRun(longer) && Reach(hash, init, longer) == Reserving(hash, Reach(hash, init, actions), id)
  {
    hide Step, Reach, LawfulRun;
    longer := RunOne(hash, init, actions, Start(id, Entering, Working("")));
    longer := RunOne(hash, init, longer, Action.Advance(id, Working("")));
  }

  /** A state with at most one session, and no receipts. */
  predicate Alone(s: System, id: string) {
    s.sessions.Keys <= {id} && s.tables.transactions.Keys <= {id} && s.tables.receipts == map[]
  }

  lemma StaysAlone(s: System, s': System, id: string)
    requires Alone(s, id) && OnlyMoves(s, s', id)
    ensures Alone(s', id)
  {
    assert s.sessions - {id} == map[] && s.tables.transactions - {id} == map[];
    assert (s'.sessions - {id}).Keys == s'.sessions.Keys - {id} == {};
    assert (s'.tables.transactions - {id}).Keys == s'.tables.transactions.Keys - {id} == {};
  }

  function Dropped(hash: EventHash, s: System, id: string): System {
    Step(hash, s, Action.Advance(id, StorageDown()))
  }

  function Expired(hash: EventHash, s: System, id: string): System {
    Step(hash, s, Start(id, EnforcingDeadline, Working("").(guard := DeadlineElapsed)))
  }

  function Moved(hash: EventHash, s: System, id: string, n: string): System {
    Step(hash, s, Action.Advance(id, Working(n)))
  }

  /** Entered, and stopped by storage right after its reservation. */
  function Stopped(hash: EventHash, s: System, p: M.Proposal, n: string): System {
    Dropped(hash, Reserving(hash, Opening(hash, s, p, n), p.transactionId), p.transactionId)
  }

  lemma StopsAfterReserving(hash: EventHash, s: System, p: M.Proposal, n: string, used: set<string>)
    requires p.transactionId !in s.sessions && p.transactionId !in s.tables.transactions
    requires Stamped(s.tables.events, used) && n !in used
    requires p.intentHash in s.tables.intents ==>
               var t := Opening(hash, s, p, n).tables;
               t.intents == s.tables.intents ==> Replaceable(t, s.tables.intents[p.intentHash])
    ensures var s', id, intent := Stopped(hash, s, p, n), p.transactionId, p.intentHash;
            && Opened(s', id, intent) && OnlyMoves(s, s', id) && Stamped(s'.tables.events, used + {n})
            && s'.tables.intents == s.tables.intents[intent := id]
            && (intent !in s.tables.intents || s.tables.intents[intent] != id ==>
                  s'.grants == s.grants[intent := (if intent in s.grants then s.grants[intent] else []) + [id]])
  {
    var id, intent := p.transactionId, p.intentHash;
    var s1 := Opening(hash, s, p, n);
    var s2 := Reserving(hash, s1, id);
    hide Step, Stamped, Stands, Opened, OnlyMoves, Opening, Reserving, Replaceable;
    Opens(hash, s, p, n, used);
    Reserves(hash, s1, id, intent);
    Fails(hash, s2, id, intent);
    MovesOn(s, s1, s2, id);
    MovesOn(s, s2, Dropped(hash, s2, id), id);
  }

  lemma MovesOn(s: System, s1: System, s2: System, id: string)
    requires OnlyMoves(s, s1, id) && OnlyMoves(s1, s2, id)
    ensures OnlyMoves(s, s2, id)
  {}

  /** Stopped before its first transition, and rejected at its deadline. */
  function First(hash: EventHash, s: System, p: M.Proposal): System {
    Moved(hash, Expired(hash, Stopped(hash, s, p, "1"), p.transactionId), p.transactionId, "2")
  }

  lemma FirstIsRejected(hash: EventHash, s: System, p: M.Proposal)
    requires s.tables == EMPTY_TABLES && s.sessions == map[] && s.grants == map[]
    ensures var s', id := First(hash, s, p), p.transactionId;
            && Stands(s', id, p.intentHash, Rejected) && Alone(s', id)
            && s'.tables.intents == map[p.intentHash := id] && s'.grants == map[p.intentHash := [id]]
            && Stamped(s'.tables.events, {"1", "2"})
  {
    var id, intent := p.transactionId, p.intentHash;
    hide Step, Stamped, Stands, Opened, OnlyMoves, Stopped, Opening, Alone, Replaceable;
    NothingStamped();
    assert {} + {"1"} == {"1"} && {"1"} + {"2"} == {"1", "2"};
    assert s.tables.intents[intent := id] == map[intent := id] && [] + [id] == [id];
    assert s.grants[intent := [id]] == map[intent := [id]];
    EmptyIsAlone(s, id);
    var s1 := Stopped(hash, s, p, "1");
    var s2 := Expired(hash, s1, id);
    StopsAfterReserving(hash, s, p, "1", {});
    Expires(hash, s1, id, intent);
    Sends(hash, s2, id, intent, ValidationFailed, ThenRest, Rejected, "2", {"1"});
    StaysAlone(s, s1, id);
    StaysAlone(s1, s2, id);
    StaysAlone(s2, First(hash, s, p), id);
  }

  lemma NothingStamped()
    ensures Stamped([], {})
  {}

  lemma EmptyIsAlone(s: System, id: string)
    requires s.tables == EMPTY_TABLES && s.sessions == map[]
    ensures Alone(s, id)
  {}

  /** Handed the intent, stopped at its link, and entered again. */
  function Second(hash: EventHash, s: System, p: M.Proposal): System {
    Moved(hash, Reserving(hash, Stopped(hash, s, p, "3"), p.transactionId), p.transactionId, "4")
  }

  lemma SecondStops(hash: EventHash, s: System, p: M.Proposal, first: string)
    requires Stands(s, first, p.intentHash, Rejected) && Alone(s, first) && first != p.transactionId
    requires s.tables.intents == map[p.intentHash := first] && s.grants == map[p.intentHash := [first]]
    requires Stamped(s.tables.events, {"1", "2"})
    ensures var s', id := Stopped(hash, s, p, "3"), p.transactionId;
            && Opened(s', id, p.intentHash) && p.intentHash in s'.tables.intents
            && s'.tables.intents[p.intentHash] == id && s'.grants == s.grants[p.intentHash := [first] + [id]]
            && Stamped(s'.tables.events, {"1", "2"} + {"3"})
  {
    var id, intent := p.transactionId, p.intentHash;
    var s1 := Opening(hash, s, p, "3");
    hide Step, Stamped, Stands, Opened, OnlyMoves, Stopped, Opening, Reserving, Alone, Replaceable;
    NoSecond(s, first, id);
    Opens(hash, s, p, "3", {"1", "2"});
    OthersStand(s, s1, id, first, intent, Rejected);
    CanBeReplaced(s, s1, id, first, intent);
    StopsAfterReserving(hash, s, p, "3", {"1", "2"});
  }

  lemma SecondIsUnlinked(hash: EventHash, s: System, p: M.Proposal, first: string)
    requires Stands(s, first, p.intentHash, Rejected) && Alone(s, first) && first != p.transactionId
    requires s.tables.intents == map[p.intentHash := first] && s.grants == map[p.intentHash := [first]]
    requires Stamped(s.tables.events, {"1", "2"})
    ensures var s', id := Second(hash, s, p), p.transactionId;
            && Stands(s', id, p.intentHash, Planned)
            && p.intentHash in s'.grants && s'.grants[p.intentHash] == [first, id]
  {
    var id, intent := p.transactionId, p.intentHash;
    var s1 := Stopped(hash, s, p, "3");
    hide Step, Stamped, Stands, Opened, OnlyMoves, Stopped, Reserving, Alone, Replaceable;
    SecondStops(hash, s, p, first);
    Reserves(hash, s1, id, intent);
    Sends(hash, Reserving(hash, s1, id), id, intent, ProposalValid, ThenAuthorize, Planned, "4",
          {"1", "2"} + {"3"});
  }

  lemma NoSecond(s: System, first: string, id: string)
    requires Alone(s, first) && id != first
    ensures id !in s.sessions && id !in s.tables.transactions
  {}

  lemma CanBeReplaced(s: System, s': System, id: string, first: string, intent: string)
    requires Alone(s, first) && OnlyMoves(s, s', id) && Stands(s', first, intent, Rejected)
    ensures Replaceable(s'.tables, first)
  {}

  /** An attempt past NEW that was handed the intent of an earlier one and is not linked to it. */
  lemma LinkCanBeLost(hash: EventHash, state: M.Values, version: nat, a: M.Proposal, b: M.Proposal)
    returns (actions: seq<Action>)
    requires a.transactionId != b.transactionId && a.intentHash == b.intentHash
    ensures LawfulRun(actions)
    ensures var s := Reach(hash, Initial(state, version), actions);
            && a.intentHash in s.grants && s.grants[a.intentHash] == [a.transactionId, b.transactionId]
            && b.transactionId in s.tables.transactions
            && s.tables.transactions[b.transactionId].state == Planned
            && s.tables.transactions[b.transactionId].record.supersedes == None
  {
    var init := Initial(state, version);
    FirstIsRejected(hash, init, a);
    SecondIsUnlinked(hash, First(hash, init, a), b, a.transactionId);
    hide Step, Opening, Reserving, First, Second;
    actions := RunFirst(hash, init, a);
    actions := RunSecond(hash, init, actions, b);
  }

  lemma RunFirst(hash: EventHash, init: System, p: M.Proposal) returns (actions: seq<Action>)
    ensures LawfulRun(actions) && Reach(hash, init, actions) == First(hash, init, p)
  {
    var id := p.transactionId;
    assert Reach(hash, init, []) == init && LawfulRun([]);
    hide Step, Reach, LawfulRun, Opening, Reserving;
    actions := RunOpening(hash, init, [], p, "1");
    actions := RunReserving(hash, init, actions, id);
    actions := RunOne(hash, init, actions, Action.Advance(id, StorageDown()));
    actions := RunOne(hash, init, actions, Start(id, EnforcingDeadline, Working("").(guard := DeadlineElapsed)));
    actions := RunOne(hash, init, actions, Action.Advance(id, Working("2")));
  }

  lemma RunSecond(hash: EventHash, init: System, before: seq<Action>, p: M.Proposal)
    returns (actions: seq<Action>)
    requires LawfulRun(before)
    ensures LawfulRun(actions) && Reach(hash, init, actions) == Second(hash, Reach(hash, init, before), p)
  {
    var id := p.transactionId;
    hide Step, Reach, LawfulRun, Opening, Reserving;
    actions := RunOpening(hash, init, before, p, "3");
    actions := RunReserving(hash, init, actions, id);
    actions := RunOne(hash, init, actions, Action.Advance(id, StorageDown()));
    actions := RunReserving(hash, init, actions, id);
    actions := RunOne(hash, init, actions, Action.Advance(id, Working("4")));
  }
}
