/** Over any sequence of journal operations, the event log reproduces the transactions table and
    every run's part of it is a good hash chain. */
module JournalLog {
  import opened Wrappers
  import opened StateMachine
  import opened Ledger
  import opened Domain
  import opened Journal

  // ----- operations as data -----------------------------------------------------------------

  datatype JournalOperation =
    | DoCreate(id: string, goalId: string, stamp: Stamp)
    | DoAppend(stamp: Stamp, eventType: string, payload: Payload, transactionId: Option<string>)
    | DoSetIntent(id: string, intentHash: string)
    | DoTransition(id: string, expected: nat, event: TransitionEvent, stamp: Stamp,
                   reason: Option<string>)
    | DoReserve(intentHash: string, id: string)
    | DoLink(id: string, previous: string)
    | DoReceipt(receipt: EffectReceipt)
    | DoConsume(capabilityId: string, maxUses: int)

  /** Appended evidence is not a creation or a transition of some transaction. */
  predicate Proper(op: JournalOperation) {
    op.DoAppend? && op.transactionId.Some? ==> op.eventType != CREATED && op.eventType != TRANSITIONED
  }

  function Perform(hash: EventHash, t: Tables, op: JournalOperation): (bool, Tables) {
    match op
    case DoCreate(id, goalId, stamp) =>
      var (r, t') := CreateTransaction(hash, t, NewRecord(id, goalId, stamp.now), stamp);
      (r.Success?, t')
    case DoAppend(stamp, eventType, payload, id) =>
      var (r, t') := AppendEvent(hash, t, stamp, eventType, payload, id);
      (r.Success?, t')
    case DoSetIntent(id, intentHash) =>
      var (r, t') := SetTransactionIntent(t, id, intentHash);
      (r.Success?, t')
    case DoTransition(id, expected, event, stamp, reason) =>
      var (r, t') := Transition(hash, t, id, expected, event, stamp, reason);
      (r.Success?, t')
    case DoReserve(intentHash, id) =>
      var (r, t') := ReserveIntent(t, intentHash, id);
      (r.Success?, t')
    case DoLink(id, previous) =>
      var (r, t') := LinkSupersession(t, id, previous);
      (r.Success?, t')
    case DoReceipt(receipt) =>
      var (r, t') := AppendReceipt(t, receipt);
      (r.Success?, t')
    case DoConsume(capabilityId, maxUses) =>
      var (r, t') := TryConsumeCapabilityUse(t, capabilityId, maxUses);
      (r.Success?, t')
  }

  function PerformAll(hash: EventHash, ops: seq<JournalOperation>): Tables {
    if ops == [] then EMPTY_TABLES
    else Perform(hash, PerformAll(hash, ops[..|ops| - 1]), ops[|ops| - 1]).1
  }

  // ----- reading the log --------------------------------------------------------------------

  /** What the log says about one transaction. */
  datatype Told = Unborn | Alive(state: TransactionState, intended: Option<IntendedOutcome>, version: nat) | Corrupt

  /** Reading one more event. */
  function Read(told: Told, event: EventMaterial, id: string): Told {
    if event.transactionId != Some(id) then told
    else if event.eventType == CREATED then
      if told.Unborn? && event.payload == CreatedPayload(New, 0) then Alive(New, None, 0) else Corrupt
    else if event.eventType == TRANSITIONED then
      if !told.Alive? || !event.payload.TransitionPayload? then Corrupt
      else
        var p := event.payload;
        var step := ApplyTransition(told.state, p.event, told.intended);
        if p.source == told.state && p.version == told.version + 1
           && step.Success? && p.target == step.value.target then
          Alive(step.value.target, step.value.intended, told.version + 1)
        else Corrupt
    else told
  }

  function Replay(events: seq<EventEnvelope>, id: string): Told {
    if events == [] then Unborn
    else Read(Replay(events[..|events| - 1], id), events[|events| - 1].material, id)
  }

  function RunLog(events: seq<EventEnvelope>, runId: string): seq<EventEnvelope> {
    if events == [] then []
    else
      var rest := RunLog(events[..|events| - 1], runId);
      var last := events[|events| - 1];
      if last.material.runId == runId then rest + [last] else rest
  }

  /** The transition events of one transaction, in log order. */
  function Transitions(events: seq<EventEnvelope>, id: string): seq<Payload> {
    if events == [] then []
    else
      var rest := Transitions(events[..|events| - 1], id);
      var last := events[|events| - 1].material;
      if last.transactionId == Some(id) && last.eventType == TRANSITIONED then rest + [last.payload]
      else rest
  }

  // ----- the invariant ----------------------------------------------------------------------

  predicate ColumnsAgree(row: Row, id: string) {
    && row.record.transactionId == id
    && row.goalId == row.record.goalId
    && row.state == row.record.state
    && row.version == row.record.version
    && row.intentHash == row.record.intentHash
    && row.intended == row.record.intended
  }

  ghost predicate TableTold(t: Tables) {
    forall id: string ::
      Replay(t.events, id) ==
        if id in t.transactions then
          Alive(t.transactions[id].state, t.transactions[id].intended, t.transactions[id].version)
        else Unborn
  }

  ghost predicate ChainsGood(hash: EventHash, events: seq<EventEnvelope>) {
    forall run: string ::
      && GoodChain(hash, RunLog(events, run))
      && NextEventPosition(events, run) == (|RunLog(events, run)|, LastHash(RunLog(events, run)))
  }

  ghost predicate LogInv(hash: EventHash, t: Tables) {
    && (forall id | id in t.transactions :: ColumnsAgree(t.transactions[id], id))
    && TableTold(t)
    && ChainsGood(hash, t.events)
  }

  // ----- every operation keeps it -----------------------------------------------------------

  lemma ReadSnoc(events: seq<EventEnvelope>, event: EventEnvelope, id: string)
    ensures Replay(events + [event], id) == Read(Replay(events, id), event.material, id)
  {
    assert (events + [event])[..|events|] == events;
  }

  lemma RunLogSnoc(events: seq<EventEnvelope>, event: EventEnvelope, run: string)
    ensures RunLog(events + [event], run) ==
            RunLog(events, run) + (if event.material.runId == run then [event] else [])
  {
    assert (events + [event])[..|events|] == events;
  }

  lemma TransitionsSnoc(events: seq<EventEnvelope>, event: EventEnvelope, id: string)
    ensures Transitions(events + [event], id) ==
            Transitions(events, id) +
            (if event.material.transactionId == Some(id) && event.material.eventType == TRANSITIONED
             then [event.material.payload] else [])
  {
    assert (events + [event])[..|events|] == events;
  }

  lemma AppendKeepsChains(hash: EventHash, events: seq<EventEnvelope>, stamp: Stamp,
                          id: Option<string>, eventType: string, payload: Payload)
    requires ChainsGood(hash, events)
    ensures ChainsGood(hash, events + [NextEvent(hash, events, stamp, id, eventType, payload)])
  {
    var event := NextEvent(hash, events, stamp, id, eventType, payload);
    var longer := events + [event];
    assert longer[..|events|] == events;
    forall run: string
      ensures GoodChain(hash, RunLog(longer, run))
      ensures NextEventPosition(longer, run) == (|RunLog(longer, run)|, LastHash(RunLog(longer, run)))
    {
      RunLogSnoc(events, event, run);
      if run == stamp.runId {
        GoodSnoc(hash, RunLog(events, run), event);
      }
    }
  }

  lemma CreateKeepsLog(hash: EventHash, t: Tables, id: string, goalId: string, stamp: Stamp)
    requires LogInv(hash, t)
    ensures LogInv(hash, CreateTransaction(hash, t, NewRecord(id, goalId, stamp.now), stamp).1)
  {
    hide Insertable, Replay, NextEventPosition, RunLog, ApplyTransition, ChainsGood;
    var record := NewRecord(id, goalId, stamp.now);
    var (r, t') := CreateTransaction(hash, t, record, stamp);
    if r.Success? {
      AppendKeepsChains(hash, t.events, stamp, Some(id), CREATED, CreatedPayload(New, 0));
      forall other: string
        ensures Replay(t'.events, other) ==
                if other in t'.transactions then
                  Alive(t'.transactions[other].state, t'.transactions[other].intended,
                        t'.transactions[other].version)
                else Unborn
      {
        ReadSnoc(t.events, r.value, other);
      }
    }
  }

  lemma EvidenceKeepsLog(hash: EventHash, t: Tables, stamp: Stamp, eventType: string,
                         payload: Payload, id: Option<string>)
    requires LogInv(hash, t)
    requires id.Some? ==> eventType != CREATED && eventType != TRANSITIONED
    ensures LogInv(hash, AppendEvent(hash, t, stamp, eventType, payload, id).1)
  {
    var (r, t') := AppendEvent(hash, t, stamp, eventType, payload, id);
    if r.Success? {
      AppendKeepsChains(hash, t.events, stamp, id, eventType, payload);
      hide Replay, NextEventPosition, RunLog, ApplyTransition;
      forall other: string ensures Replay(t'.events, other) == Replay(t.events, other) {
        ReadSnoc(t.events, r.value, other);
      }
    }
  }

  lemma TransitionKeepsLog(hash: EventHash, t: Tables, id: string, expected: nat,
                           event: TransitionEvent, stamp: Stamp, reason: Option<string>)
    requires LogInv(hash, t)
    ensures LogInv(hash, Transition(hash, t, id, expected, event, stamp, reason).1)
  {
    hide Replay, NextEventPosition, RunLog, ApplyTransition, Insertable;
    var (r, t') := Transition(hash, t, id, expected, event, stamp, reason);
    if r.Success? {
      var current := t.transactions[id].record;
      var payload := TransitionPayload(current.state, r.value.state, event, r.value.version);
      var envelope := NextEvent(hash, t.events, stamp, Some(id), TRANSITIONED, payload);
      AppendKeepsChains(hash, t.events, stamp, Some(id), TRANSITIONED, payload);
      assert t'.events == t.events + [envelope];
      assert ColumnsAgree(t.transactions[id], id);
      forall other: string
        ensures Replay(t'.events, other) ==
                if other in t'.transactions then
                  Alive(t'.transactions[other].state, t'.transactions[other].intended,
                        t'.transactions[other].version)
                else Unborn
      {
        ReadSnoc(t.events, envelope, other);
      }
    }
  }

  lemma FailureChangesNothing(hash: EventHash, t: Tables, op: JournalOperation)
    ensures !Perform(hash, t, op).0 ==> Perform(hash, t, op).1 == t
  {
    hide ApplyTransition, Insertable, NextEvent, Replaceable;
  }

  /** One operation of any kind keeps the invariant, and one that fails changes nothing. */
  lemma PerformKeepsLog(hash: EventHash, t: Tables, op: JournalOperation)
    requires LogInv(hash, t) && Proper(op)
    ensures LogInv(hash, Perform(hash, t, op).1)
    ensures !Perform(hash, t, op).0 ==> Perform(hash, t, op).1 == t
  {
    FailureChangesNothing(hash, t, op);
    hide CreateTransaction, AppendEvent, Transition;
    hide Replay, NextEventPosition, RunLog, ApplyTransition, Insertable, NextEvent;
    match op
    case DoCreate(id, goalId, stamp) => CreateKeepsLog(hash, t, id, goalId, stamp);
    case DoAppend(stamp, eventType, payload, id) =>
      EvidenceKeepsLog(hash, t, stamp, eventType, payload, id);
    case DoTransition(id, expected, event, stamp, reason) =>
      TransitionKeepsLog(hash, t, id, expected, event, stamp, reason);
    case _ =>
  }

  /** Every evidence that was accepted was proper. */
  ghost predicate AllProper(hash: EventHash, ops: seq<JournalOperation>) {
    forall i | 0 <= i < |ops| && Perform(hash, PerformAll(hash, ops[..i]), ops[i]).0 :: Proper(ops[i])
  }

  lemma ProperSnoc(hash: EventHash, ops: seq<JournalOperation>)
    requires ops != []
    ensures var n := |ops| - 1;
            AllProper(hash, ops) <==>
            && AllProper(hash, ops[..n])
            && (Perform(hash, PerformAll(hash, ops[..n]), ops[n]).0 ==> Proper(ops[n]))
  {
    hide Perform, PerformAll, Proper;
    var n := |ops| - 1;
    forall i | 0 <= i < n ensures ops[..n][..i] == ops[..i] && ops[..n][i] == ops[i] {}
  }

  /** The log is ahead of the row of a transaction, or beyond reading. */
  predicate Ahead(t: Tables, id: string) {
    var told := Replay(t.events, id);
    told.Corrupt? || (told.Alive? && (id in t.transactions ==> told.version > t.transactions[id].version))
  }

  lemma ImproperIsAhead(hash: EventHash, t: Tables, op: JournalOperation) returns (id: string)
    requires LogInv(hash, t) && !Proper(op) && Perform(hash, t, op).0
    ensures Ahead(Perform(hash, t, op).1, id)
  {
    hide Replay, NextEventPosition, RunLog, ApplyTransition, Insertable, ChainsGood;
    id := op.transactionId.value;
    var event := NextEvent(hash, t.events, op.stamp, op.transactionId, op.eventType, op.payload);
    ReadSnoc(t.events, event, id);
  }

  /** Nothing the journal does afterwards makes up for it. */
  lemma AheadStays(hash: EventHash, t: Tables, op: JournalOperation, id: string)
    requires Ahead(t, id)
    ensures Ahead(Perform(hash, t, op).1, id)
  {
    hide NextEventPosition, RunLog, ApplyTransition, Insertable, Replaceable;
    var t' := Perform(hash, t, op).1;
    if t'.events != t.events {
      var event := t'.events[|t.events|];
      assert t'.events == t.events + [event];
      ReadSnoc(t.events, event, id);
    }
  }

  lemma {:induction false} LogInvHolds(hash: EventHash, ops: seq<JournalOperation>)
    ensures AllProper(hash, ops) ==> LogInv(hash, PerformAll(hash, ops))
    ensures !AllProper(hash, ops) ==> exists id :: Ahead(PerformAll(hash, ops), id)
  {
    hide LogInv, Ahead, Proper, Perform;
    if ops == [] {
      EmptyLogIsTold(hash);
    } else {
      var n := |ops| - 1;
      var t, op := PerformAll(hash, ops[..n]), ops[n];
      ProperSnoc(hash, ops);
      LogInvHolds(hash, ops[..n]);
      hide AllProper;
      if AllProper(hash, ops[..n]) {
        if Proper(op) {
          PerformKeepsLog(hash, t, op);
        } else if Perform(hash, t, op).0 {
          var id := ImproperIsAhead(hash, t, op);
          assert Ahead(PerformAll(hash, ops), id);
        } else {
          FailureChangesNothing(hash, t, op);
        }
      } else {
        var id :| Ahead(t, id);
        AheadStays(hash, t, op, id);
        assert Ahead(PerformAll(hash, ops), id);
        assert !AllProper(hash, ops);
      }
    }
  }

  lemma EmptyLogIsTold(hash: EventHash)
    ensures LogInv(hash, EMPTY_TABLES)
  {}

  lemma AheadIsNotTold(t: Tables, id: string)
    requires Ahead(t, id)
    ensures !TableTold(t)
  {}

  /** Reading the whole log gives exactly the current table if and only if every evidence that was
      accepted was proper.  The columns of every row then agree with the record stored in it. */
  lemma LogReproducesTable(hash: EventHash, ops: seq<JournalOperation>)
    ensures TableTold(PerformAll(hash, ops)) <==> AllProper(hash, ops)
    ensures AllProper(hash, ops) ==>
              var rows := PerformAll(hash, ops).transactions;
              forall id | id in rows :: ColumnsAgree(rows[id], id)
  {
    hide AllProper, Ahead, TableTold, ColumnsAgree, PerformAll;
    LogInvHolds(hash, ops);
    if !AllProper(hash, ops) {
      var id :| Ahead(PerformAll(hash, ops), id);
      AheadIsNotTold(PerformAll(hash, ops), id);
    }
  }

  /** Improper evidence is accepted: a transition that never happened, on record for a transaction
      that is still NEW. */
  lemma ForgedTransitionIsAccepted(hash: EventHash)
    ensures var create := DoCreate("t", "g", Stamp("1", "1", "agent", "user", 0));
            var forge := DoAppend(Stamp("2", "2", "agent", "user", 0), TRANSITIONED,
                                  TransitionPayload(New, Planned, ProposalValid, 1), Some("t"));
            var t := PerformAll(hash, [create, forge]);
            && "t" in t.transactions && t.transactions["t"].state == New
            && Replay(t.events, "t") == Alive(Planned, None, 1)
  {
    var create := DoCreate("t", "g", Stamp("1", "1", "agent", "user", 0));
    var payload := TransitionPayload(New, Planned, ProposalValid, 1);
    var forge := DoAppend(Stamp("2", "2", "agent", "user", 0), TRANSITIONED, payload, Some("t"));
    var e1 := NextEvent(hash, [], create.stamp, Some("t"), CREATED, CreatedPayload(New, 0));
    var e2 := NextEvent(hash, [e1], forge.stamp, Some("t"), TRANSITIONED, payload);
    assert [] + [e1] == [e1];
    TwoPerformed(hash, create, forge);
    var t1 := Perform(hash, EMPTY_TABLES, create).1;
    assert t1.events == [e1] && "t" in t1.transactions && t1.transactions["t"].state == New;
    hide NextEventPosition, PerformAll, Replay, ApplyTransition;
    assert Insertable([e1], e2) && Perform(hash, t1, forge).1 == t1.(events := [e1] + [e2]);
    ForgedIsRead(e1.material, e2.material);
    ReadSnoc([], e1, "t");
    ReadSnoc([e1], e2, "t");
    NothingTold("t");
  }

  lemma ForgedIsRead(e1: EventMaterial, e2: EventMaterial)
    requires e1.transactionId == Some("t") && e1.eventType == CREATED && e1.payload == CreatedPayload(New, 0)
    requires e2.transactionId == Some("t") && e2.eventType == TRANSITIONED
    requires e2.payload == TransitionPayload(New, Planned, ProposalValid, 1)
    ensures Read(Read(Unborn, e1, "t"), e2, "t") == Alive(Planned, None, 1)
  {}

  lemma TwoPerformed(hash: EventHash, a: JournalOperation, b: JournalOperation)
    ensures PerformAll(hash, [a, b]) == Perform(hash, Perform(hash, EMPTY_TABLES, a).1, b).1
  {
    hide Perform;
    assert [a, b][..1] == [a] && [a][..0] == [];
    assert PerformAll(hash, []) == EMPTY_TABLES;
    assert PerformAll(hash, [a]) == Perform(hash, EMPTY_TABLES, a).1;
  }

  lemma NothingTold(id: string)
    ensures Replay([], id) == Unborn
  {}

  /** Every run's log is accepted by `validate_chain`, whatever was appended. */
  lemma EveryRunLogIsGood(hash: EventHash, ops: seq<JournalOperation>, run: string)
    ensures GoodChain(hash, RunLog(PerformAll(hash, ops).events, run))
  {
    hide PerformAll;
    ChainsStayGood(hash, ops);
  }

  lemma {:induction false} ChainsStayGood(hash: EventHash, ops: seq<JournalOperation>)
    ensures ChainsGood(hash, PerformAll(hash, ops).events)
  {
    if ops == [] {
      EmptyLogIsTold(hash);
    } else {
      hide Perform, ChainsGood;
      ChainsStayGood(hash, ops[..|ops| - 1]);
      PerformKeepsChains(hash, PerformAll(hash, ops[..|ops| - 1]), ops[|ops| - 1]);
    }
  }

  lemma PerformKeepsChains(hash: EventHash, t: Tables, op: JournalOperation)
    requires ChainsGood(hash, t.events)
    ensures ChainsGood(hash, Perform(hash, t, op).1.events)
  {
    hide ChainsGood, NextEvent, Insertable, ApplyTransition, Replaceable;
    match op
    case DoCreate(id, goalId, stamp) =>
      AppendKeepsChains(hash, t.events, stamp, Some(id), CREATED, CreatedPayload(New, 0));
    case DoAppend(stamp, eventType, payload, id) =>
      AppendKeepsChains(hash, t.events, stamp, id, eventType, payload);
    case DoTransition(id, _, event, stamp, reason) =>
      if id in t.transactions {
        var r := t.transactions[id].record;
        var d := ApplyTransition(r.state, event, r.intended);
        if d.Success? {
          AppendKeepsChains(hash, t.events, stamp, Some(id), TRANSITIONED,
                            TransitionPayload(r.state, d.value.target, event, r.version + 1));
        }
      }
    case _ =>
  }

  /** Payload `k` is number k + 1 and starts where its predecessor ended. */
  predicate InStep(p: seq<Payload>, k: nat)
    requires k < |p|
  {
    && p[k].TransitionPayload?
    && p[k].version == k + 1
    && (if k == 0 then p[k].source == New
        else p[k - 1].TransitionPayload? && p[k].source == p[k - 1].target)
  }

  predicate Chained(p: seq<Payload>) {
    forall k | 0 <= k < |p| :: InStep(p, k)
  }

  lemma ChainedSnoc(p: seq<Payload>, last: Payload)
    requires Chained(p)
    requires last.TransitionPayload? && last.version == |p| + 1
    requires p == [] ==> last.source == New
    requires p != [] ==> p[|p| - 1].TransitionPayload? && last.source == p[|p| - 1].target
    ensures Chained(p + [last])
  {
    forall k | 0 <= k < |p| + 1 ensures InStep(p + [last], k) {
      if k < |p| {
        assert InStep(p, k);
      }
    }
  }

  /** What the transition events of one transaction look like when the log tells `told`. */
  predicate Matches(p: seq<Payload>, told: Told) {
    && Chained(p)
    && (told.Unborn? ==> p == [])
    && (told.Alive? ==>
          && |p| == told.version
          && (p == [] ==> told.state == New)
          && (p != [] ==> p[|p| - 1].TransitionPayload? && p[|p| - 1].target == told.state))
  }

  lemma ReadKeepsMatch(p: seq<Payload>, told: Told, event: EventMaterial, id: string)
    requires Matches(p, told) && !Read(told, event, id).Corrupt?
    ensures Matches(p + (if event.transactionId == Some(id) && event.eventType == TRANSITIONED
                         then [event.payload] else []), Read(told, event, id))
  {
    hide ApplyTransition;
    assert p + [] == p;
    if event.transactionId == Some(id) && event.eventType == TRANSITIONED {
      ChainedSnoc(p, event.payload);
    }
  }

  lemma {:induction false} ReplayChains(events: seq<EventEnvelope>, id: string)
    requires !Replay(events, id).Corrupt?
    ensures Matches(Transitions(events, id), Replay(events, id))
  {
    hide ApplyTransition, Matches;
    if events == [] {
      EmptyMatches();
    } else {
      var before := events[..|events| - 1];
      ReplayChains(before, id);
      ReadKeepsMatch(Transitions(before, id), Replay(before, id), events[|events| - 1].material, id);
      assert before + [events[|events| - 1]] == events;
      TransitionsSnoc(before, events[|events| - 1], id);
    }
  }

  lemma EmptyMatches()
    ensures Matches([], Unborn)
  {}

  /** The transition events of a transaction carry the versions 1 to `version`, in order, without
      a gap, and their sources and targets form a path from NEW to the state in the table. */
  lemma VersionsAreContiguous(hash: EventHash, ops: seq<JournalOperation>, id: string)
    requires AllProper(hash, ops)
    requires id in PerformAll(hash, ops).transactions
    ensures var t := PerformAll(hash, ops);
            && Chained(Transitions(t.events, id))
            && |Transitions(t.events, id)| == t.transactions[id].version
  {
    LogInvHolds(hash, ops);
    ReplayChains(PerformAll(hash, ops).events, id);
  }

  /** A position the journal computes never collides with the primary key of the event table. */
  lemma {:induction false} NextPositionIsFree(events: seq<EventEnvelope>, run: string, i: nat)
    requires i < |events| && events[i].material.runId == run
    ensures events[i].material.sequence < NextEventPosition(events, run).0
  {
    if i < |events| - 1 {
      NextPositionIsFree(events[..|events| - 1], run, i);
    }
  }

  // ----- the log as a run of the state machine ---------------------------------------------------

  /** The transitions of one transaction that the log holds, in order. */
  function Sent(events: seq<EventEnvelope>, id: string): seq<TransitionEvent> {
    if events == [] then []
    else
      var rest := Sent(events[..|events| - 1], id);
      var last := events[|events| - 1].material;
      if last.transactionId == Some(id) && last.eventType == TRANSITIONED && last.payload.TransitionPayload?
      then rest + [last.payload.event] else rest
  }

  lemma SentSnoc(events: seq<EventEnvelope>, event: EventEnvelope, id: string)
    ensures var m := event.material;
            Sent(events + [event], id) == Sent(events, id) +
            (if m.transactionId == Some(id) && m.eventType == TRANSITIONED && m.payload.TransitionPayload?
             then [m.payload.event] else [])
  {
    assert (events + [event])[..|events|] == events;
  }

  /** What the log tells of a transaction is the run of the transitions it holds. */
  lemma {:induction false} LogIsARun(events: seq<EventEnvelope>, id: string)
    requires !Replay(events, id).Corrupt?
    ensures var told := Replay(events, id);
            if told.Alive? then Run(Sent(events, id)) == Success(Config(told.state, told.intended))
            else Sent(events, id) == []
  {
    hide ApplyTransition;
    if events != [] {
      var n := |events| - 1;
      LogIsARun(events[..n], id);
      ReadIsAStep(Replay(events[..n], id), Sent(events[..n], id), events[n].material, id);
    }
  }

  lemma ReadIsAStep(told: Told, p: seq<TransitionEvent>, m: EventMaterial, id: string)
    requires !Read(told, m, id).Corrupt?
    requires if told.Alive? then Run(p) == Success(Config(told.state, told.intended)) else p == []
    ensures var sends := m.transactionId == Some(id) && m.eventType == TRANSITIONED && m.payload.TransitionPayload?;
            var q := if sends then p + [m.payload.event] else p;
            var now := Read(told, m, id);
            if now.Alive? then Run(q) == Success(Config(now.state, now.intended)) else q == []
  {
    hide ApplyTransition;
    RunEmpty();
    if told.Alive? && m.payload.TransitionPayload? {
      RunSnoc(p, m.payload.event);
    }
    hide Run;
  }

  // ----- who wrote the log -------------------------------------------------------------------------

  /** The operations that write an event. */
  predicate Writes(op: JournalOperation) {
    op.DoCreate? || op.DoAppend? || op.DoTransition?
  }

  /** An event says who did what for whom and when, as its caller did. */
  predicate Tells(event: EventEnvelope, op: JournalOperation)
    requires Writes(op)
  {
    var m := event.material;
    && m.eventId == op.stamp.eventId && m.runId == op.stamp.runId && m.wallTime == op.stamp.now
    && m.actor == op.stamp.actor && m.onBehalfOf == op.stamp.onBehalfOf
    && m.logicalTime == m.sequence && m.artifactRefs == [] && event.signatureRef == None
    && match op
       case DoCreate(id, _, _) =>
         m.transactionId == Some(id) && m.eventType == CREATED && m.payload == CreatedPayload(New, 0)
       case DoAppend(_, eventType, payload, id) =>
         m.transactionId == id && m.eventType == eventType && m.payload == payload
       case DoTransition(id, expected, sent, _, _) =>
         && m.transactionId == Some(id) && m.eventType == TRANSITIONED
         && m.payload.TransitionPayload? && m.payload.event == sent && m.payload.version == expected + 1
       case _ => true
  }

  /** The operations that were accepted and write an event, in order. */
  function Accepted(hash: EventHash, ops: seq<JournalOperation>): seq<JournalOperation> {
    if ops == [] then []
    else
      var n := |ops| - 1;
      var before := Accepted(hash, ops[..n]);
      if Writes(ops[n]) && Perform(hash, PerformAll(hash, ops[..n]), ops[n]).0 then before + [ops[n]] else before
  }

  lemma PerformTells(hash: EventHash, t: Tables, op: JournalOperation)
    ensures var (ok, t') := Perform(hash, t, op);
            if ok && Writes(op) then
              |t'.events| == |t.events| + 1 && t'.events[..|t.events|] == t.events && Tells(t'.events[|t.events|], op)
            else t'.events == t.events
  {
    hide ApplyTransition, Insertable, NextEventPosition, Replaceable;
  }

  /** The log holds one event for each accepted operation that writes one, in their order, and each
      carries what its caller supplied; nothing else is in it. */
  lemma {:induction false} LogIsWhatWasAccepted(hash: EventHash, ops: seq<JournalOperation>)
    ensures var events, accepted := PerformAll(hash, ops).events, Accepted(hash, ops);
            && |events| == |accepted|
            && forall k | 0 <= k < |events| :: Writes(accepted[k]) && Tells(events[k], accepted[k])
  {
    hide Perform, Tells, Writes;
    if ops != [] {
      var n := |ops| - 1;
      LogIsWhatWasAccepted(hash, ops[..n]);
      PerformTells(hash, PerformAll(hash, ops[..n]), ops[n]);
    }
  }

  /** What an accepted operation does to the record of its transaction: a transition dates and explains
      it, binding and linking each fill their own field, and nothing else of it changes. */
  predicate RecordChanges(r: TransactionRecord, r': TransactionRecord, op: JournalOperation) {
    match op
    case DoTransition(_, expected, event, stamp, reason) =>
      && r.version == expected && r' == r.(state := r'.state, intended := r'.intended, version := expected + 1,
                                           updatedAt := stamp.now, reasonCode := r'.reasonCode)
      && (reason == None || reason == Some("") ==> r'.reasonCode == Some(RuleOf(r.state, event)))
      && (reason != None && reason != Some("") ==> r'.reasonCode == Some(Text(reason.value)))
      && ApplyTransition(r.state, event, r.intended) == Success(TransitionDecision(r'.state, r'.intended))
    case DoSetIntent(_, intentHash) =>
      r.state == New && r.intentHash == None && r' == r.(intentHash := Some(intentHash))
    case DoLink(_, previous) => r.state == New && r.supersedes == None && r' == r.(supersedes := Some(previous))
    case _ => r' == r
  }

  /** The transaction an operation writes the row of. */
  function Subject(op: JournalOperation): Option<string> {
    match op
    case DoCreate(id, _, _) => Some(id)
    case DoTransition(id, _, _, _, _) => Some(id)
    case DoSetIntent(id, _) => Some(id)
    case DoLink(id, _) => Some(id)
    case _ => None
  }

  /** An accepted operation changes the row of its own transaction as asked, and no other row. */
  lemma RowsChangeAsAsked(hash: EventHash, t: Tables, op: JournalOperation)
    requires forall id | id in t.transactions :: ColumnsAgree(t.transactions[id], id)
    ensures var (ok, t') := Perform(hash, t, op);
            if !ok then t'.transactions == t.transactions
            else match Subject(op)
                 case None => t'.transactions == t.transactions
                 case Some(id) =>
                   && id in t'.transactions && ColumnsAgree(t'.transactions[id], id)
                   && t'.transactions == t.transactions[id := t'.transactions[id]]
                   && if op.DoCreate? then
                        && id !in t.transactions
                        && t'.transactions[id].record == TransactionRecord(id, op.goalId, New, 0, None, None,
                             op.stamp.now, op.stamp.now, None, None)
                      else
                        id in t.transactions
                        && RecordChanges(t.transactions[id].record, t'.transactions[id].record, op)
  {
    hide ApplyTransition, Insertable, NextEvent, Replaceable;
  }

  // ----- the tables refer to each other ------------------------------------------------------------

  /** Every reserved intent and every receipt belongs to a transaction, and a receipt lies under its id. */
  ghost predicate References(t: Tables) {
    && (forall i | i in t.intents :: t.intents[i] in t.transactions)
    && (forall r | r in t.receipts ::
          t.receipts[r].receiptId == r && t.receipts[r].transactionId in t.transactions)
  }

  /** Nothing that was reserved, stored or counted is taken back; a receipt and a row's goal never change. */
  ghost predicate Keeps(t: Tables, t': Tables) {
    && (forall id | id in t.transactions ::
          id in t'.transactions && t'.transactions[id].goalId == t.transactions[id].goalId)
    && (forall i | i in t.intents :: i in t'.intents)
    && (forall r | r in t.receipts :: r in t'.receipts && t'.receipts[r] == t.receipts[r])
    && (forall c | c in t.capabilityUses :: c in t'.capabilityUses && t.capabilityUses[c] <= t'.capabilityUses[c])
    && t.events <= t'.events
  }

  lemma PerformKeepsReferences(hash: EventHash, t: Tables, op: JournalOperation)
    requires References(t)
    ensures References(Perform(hash, t, op).1)
  {
    hide ApplyTransition, Insertable, NextEvent, Replaceable;
  }

  lemma NothingIsTakenBack(hash: EventHash, t: Tables, op: JournalOperation)
    ensures Keeps(t, Perform(hash, t, op).1)
  {
    hide ApplyTransition, Insertable, NextEvent, Replaceable;
    FailureChangesNothing(hash, t, op);
    if !Perform(hash, t, op).0 {
      hide Perform;
    }
  }

  /** The foreign keys hold after any operations. */
  lemma {:induction false} ReferencesHold(hash: EventHash, ops: seq<JournalOperation>)
    ensures References(PerformAll(hash, ops))
  {
    hide Perform, References;
    if ops == [] {
      assert References(EMPTY_TABLES) by { NoReferences(); }
    } else {
      ReferencesHold(hash, ops[..|ops| - 1]);
      PerformKeepsReferences(hash, PerformAll(hash, ops[..|ops| - 1]), ops[|ops| - 1]);
    }
  }

  lemma NoReferences()
    ensures References(EMPTY_TABLES)
  {}
}
