/** The durable journal: its tables, its atomic operations and the class that performs them.

    Every operation runs between `BEGIN IMMEDIATE` and `COMMIT` or `ROLLBACK`, so it is a function
    from the tables to a result and the tables after it. */
module Journal {
  import opened Wrappers
  import opened StateMachine
  import opened Ledger
  import opened Domain

  /** A row keeps the columns beside the stored record, as the table does. */
  datatype Row = Row(
    goalId: string, state: TransactionState, version: nat, intentHash: Option<string>,
    intended: Option<IntendedOutcome>, record: TransactionRecord)

  datatype Tables = Tables(
    transactions: map<string, Row>,
    intents: map<string, string>,
    receipts: map<string, EffectReceipt>,
    events: seq<EventEnvelope>,
    capabilityUses: map<string, nat>)

  const EMPTY_TABLES := Tables(map[], map[], map[], [], map[])

  /** What a caller supplies with an event; `eventId` is the identifier drawn for it. */
  datatype Stamp = Stamp(eventId: string, runId: string, actor: string, onBehalfOf: string, now: int)

  // ----- the event table --------------------------------------------------------------------

  /** Sequence and previous hash for the next event of a run: one past the row of that run with
      the greatest sequence. */
  function NextEventPosition(events: seq<EventEnvelope>, runId: string): (nat, Option<Digest>) {
    if events == [] then (0, None)
    else
      var rest := NextEventPosition(events[..|events| - 1], runId);
      var last := events[|events| - 1];
      if last.material.runId == runId && last.material.sequence >= rest.0 then
        (last.material.sequence + 1, Some(last.eventHash))
      else rest
  }

  /** `event_id` is unique and (`run_id`, `sequence`) is the primary key. */
  predicate Insertable(events: seq<EventEnvelope>, event: EventEnvelope) {
    forall e | e in events ::
      && e.material.eventId != event.material.eventId
      && (e.material.runId != event.material.runId || e.material.sequence != event.material.sequence)
  }

  function NextEvent(hash: EventHash, events: seq<EventEnvelope>, stamp: Stamp,
                     transactionId: Option<string>, eventType: string, payload: Payload)
    : EventEnvelope
  {
    var position := NextEventPosition(events, stamp.runId);
    MakeEvent(hash, EventMaterial(
      stamp.eventId, stamp.runId, transactionId, position.0, position.0, stamp.now, eventType,
      stamp.actor, stamp.onBehalfOf, payload, [], position.1))
  }

  // ----- the operations ---------------------------------------------------------------------

  function CreateTransaction(hash: EventHash, t: Tables, record: TransactionRecord, stamp: Stamp)
    : (Result<EventEnvelope>, Tables)
  {
    var event := NextEvent(hash, t.events, stamp.(now := record.createdAt), Some(record.transactionId),
                           CREATED, CreatedPayload(record.state, record.version));
    if record.transactionId in t.transactions || !Insertable(t.events, event) then
      (Failure(StorageError), t)
    else
      var row := Row(record.goalId, record.state, record.version, record.intentHash,
                     record.intended, record);
      (Success(event), t.(transactions := t.transactions[record.transactionId := row],
                          events := t.events + [event]))
  }

  function AppendEvent(hash: EventHash, t: Tables, stamp: Stamp, eventType: string,
                       payload: Payload, transactionId: Option<string>)
    : (Result<EventEnvelope>, Tables)
  {
    var event := NextEvent(hash, t.events, stamp, transactionId, eventType, payload);
    if !Insertable(t.events, event) then (Failure(StorageError), t)
    else (Success(event), t.(events := t.events + [event]))
  }

  function GetTransaction(t: Tables, id: string): Result<TransactionRecord> {
    if id in t.transactions then Success(t.transactions[id].record) else Failure(ValidationError)
  }

  function SetTransactionIntent(t: Tables, id: string, intentHash: string)
    : (Result<TransactionRecord>, Tables)
  {
    var current := GetTransaction(t, id);
    if current.Failure? then (Failure(current.error), t)
    else if current.value.state != New || current.value.intentHash.Some? then
      (Failure(IllegalTransition), t)
    else
      var row := t.transactions[id];
      var updated := current.value.(intentHash := Some(intentHash));
      if row.version != current.value.version then (Failure(VersionConflict), t)
      else
        (Success(updated), t.(transactions :=
          t.transactions[id := row.(intentHash := Some(intentHash), record := updated)]))
  }

  /** The record after a decided transition; an empty reason counts as none. */
  function Advance(r: TransactionRecord, decision: TransitionDecision, now: int,
                   event: TransitionEvent, reason: Option<string>): TransactionRecord
  {
    r.(state := decision.target, version := r.version + 1, intended := decision.intended,
       updatedAt := now,
       reasonCode := Some(if reason.Some? && reason.value != "" then Text(reason.value)
                          else RuleOf(r.state, event)))
  }

  /** Compare-and-swap a transaction and append its transition event in one DB transaction. */
  function Transition(hash: EventHash, t: Tables, id: string, expectedVersion: nat,
                      event: TransitionEvent, stamp: Stamp, reason: Option<string>)
    : (Result<TransactionRecord>, Tables)
  {
    var current := GetTransaction(t, id);
    if current.Failure? then (Failure(current.error), t)
    else if current.value.version != expectedVersion then (Failure(VersionConflict), t)
    else
      var decision := ApplyTransition(current.value.state, event, current.value.intended);
      if decision.Failure? then (Failure(decision.error), t)
      else
        var updated := Advance(current.value, decision.value, stamp.now, event, reason);
        var row := t.transactions[id];
        if row.version != expectedVersion then (Failure(VersionConflict), t)
        else
          var envelope := NextEvent(hash, t.events, stamp, Some(id), TRANSITIONED,
            TransitionPayload(current.value.state, updated.state, event, updated.version));
          if !Insertable(t.events, envelope) then (Failure(StorageError), t)
          else
            var row' := row.(state := updated.state, version := updated.version,
                             intended := updated.intended, record := updated);
            (Success(updated), t.(transactions := t.transactions[id := row'],
                                  events := t.events + [envelope]))
  }

  datatype IntentReservation =
    IntentReservation(intentHash: string, transactionId: string, created: bool,
                      previous: Option<string>)

  /** The states an owner can be replaced from. */
  predicate SafeNoEffect(s: TransactionState) {
    s.Rejected? || s.Aborted? || s.StaleState?
  }

  predicate HasReceipt(receipts: map<string, EffectReceipt>, id: string) {
    exists r | r in receipts :: receipts[r].transactionId == id
  }

  predicate Replaceable(t: Tables, owner: string) {
    && owner in t.transactions
    && SafeNoEffect(t.transactions[owner].state)
    && !HasReceipt(t.receipts, owner)
  }

  /** Reserve one normalized intent; `intents` refers to `transactions`. */
  function ReserveIntent(t: Tables, intentHash: string, id: string)
    : (Result<IntentReservation>, Tables)
  {
    if intentHash !in t.intents then
      if id !in t.transactions then (Failure(StorageError), t)
      else
        (Success(IntentReservation(intentHash, id, true, None)),
         t.(intents := t.intents[intentHash := id]))
    else
      var owner := t.intents[intentHash];
      if owner == id || !Replaceable(t, owner) then
        (Success(IntentReservation(intentHash, owner, false, None)), t)
      else if id !in t.transactions then (Failure(StorageError), t)
      else
        (Success(IntentReservation(intentHash, id, true, Some(owner))),
         t.(intents := t.intents[intentHash := id]))
  }

  function LinkSupersession(t: Tables, id: string, previous: string)
    : (Result<TransactionRecord>, Tables)
  {
    var current := GetTransaction(t, id);
    if current.Failure? then (Failure(current.error), t)
    else if current.value.state != New || current.value.supersedes.Some? then
      (Failure(IllegalTransition), t)
    else
      var row := t.transactions[id];
      var updated := current.value.(supersedes := Some(previous));
      if row.version != current.value.version then (Failure(VersionConflict), t)
      else (Success(updated), t.(transactions := t.transactions[id := row.(record := updated)]))
  }

  /** Receipt ids cannot be overwritten; `receipts` refers to `transactions`. */
  function AppendReceipt(t: Tables, receipt: EffectReceipt): (Result<()>, Tables) {
    if receipt.receiptId in t.receipts || receipt.transactionId !in t.transactions then
      (Failure(IntegrityError), t)
    else (Success(()), t.(receipts := t.receipts[receipt.receiptId := receipt]))
  }

  function TryConsumeCapabilityUse(t: Tables, capabilityId: string, maxUses: int)
    : (Result<bool>, Tables)
  {
    if maxUses < 1 then (Failure(ValidationError), t)
    else
      var uses := if capabilityId in t.capabilityUses then t.capabilityUses[capabilityId] else 0;
      if uses >= maxUses then (Success(false), t)
      else (Success(true), t.(capabilityUses := t.capabilityUses[capabilityId := uses + 1]))
  }

  // ----- the class --------------------------------------------------------------------------

  class SQLiteJournal {
    const hash: EventHash
    var transactions: map<string, Row>
    var intents: map<string, string>
    var receipts: map<string, EffectReceipt>
    var events: seq<EventEnvelope>
    var capabilityUses: map<string, nat>

    constructor (hash: EventHash)
      ensures Contents() == EMPTY_TABLES && this.hash == hash
    {
      this.hash := hash;
      transactions, intents, receipts, events, capabilityUses := map[], map[], map[], [], map[];
    }

    function Contents(): Tables
      reads this
    {
      Tables(transactions, intents, receipts, events, capabilityUses)
    }

    /** `_insert_event`: refused by the unique constraints, otherwise appended. */
    method InsertEvent(event: EventEnvelope) returns (ok: bool)
      modifies this`events
      ensures ok <==> Insertable(old(events), event)
      ensures events == if ok then old(events) + [event] else old(events)
    {
      ok := Insertable(events, event);
      if ok {
        events := events + [event];
      }
    }

    method Create(record: TransactionRecord, stamp: Stamp) returns (r: Result<EventEnvelope>)
      modifies this
      ensures (r, Contents()) == CreateTransaction(hash, old(Contents()), record, stamp)
    {
      var saved := transactions;
      if record.transactionId in transactions {
        return Failure(StorageError);
      }
      transactions := transactions[record.transactionId :=
        Row(record.goalId, record.state, record.version, record.intentHash, record.intended, record)];
      var event := NextEvent(hash, events, stamp.(now := record.createdAt),
                             Some(record.transactionId), CREATED,
                             CreatedPayload(record.state, record.version));
      var ok := InsertEvent(event);
      if !ok {
        transactions := saved;
        return Failure(StorageError);
      }
      return Success(event);
    }

    method Append(stamp: Stamp, eventType: string, payload: Payload, transactionId: Option<string>)
      returns (r: Result<EventEnvelope>)
      modifies this
      ensures (r, Contents()) ==
              AppendEvent(hash, old(Contents()), stamp, eventType, payload, transactionId)
    {
      var event := NextEvent(hash, events, stamp, transactionId, eventType, payload);
      var ok := InsertEvent(event);
      if !ok {
        return Failure(StorageError);
      }
      return Success(event);
    }

    /** The conditional update `... WHERE transaction_id = ? AND version = ?`. */
    method UpdateRow(id: string, version: nat, row: Row) returns (count: nat)
      modifies this`transactions
      ensures count == if id in old(transactions) && old(transactions)[id].version == version
                       then 1 else 0
      ensures transactions ==
              if count == 1 then old(transactions)[id := row] else old(transactions)
    {
      if id in transactions && transactions[id].version == version {
        transactions := transactions[id := row];
        return 1;
      }
      return 0;
    }

    method SetIntent(id: string, intentHash: string) returns (r: Result<TransactionRecord>)
      modifies this
      ensures (r, Contents()) == SetTransactionIntent(old(Contents()), id, intentHash)
    {
      var current := GetTransaction(Contents(), id);
      if current.Failure? {
        return Failure(current.error);
      }
      if current.value.state != New || current.value.intentHash.Some? {
        return Failure(IllegalTransition);
      }
      var updated := current.value.(intentHash := Some(intentHash));
      var count := UpdateRow(id, current.value.version,
        transactions[id].(intentHash := Some(intentHash), record := updated));
      if count != 1 {
        return Failure(VersionConflict);
      }
      return Success(updated);
    }

    method Move(id: string, expectedVersion: nat, event: TransitionEvent, stamp: Stamp,
                reason: Option<string>) returns (r: Result<TransactionRecord>)
      modifies this
      ensures (r, Contents()) ==
              Transition(hash, old(Contents()), id, expectedVersion, event, stamp, reason)
    {
      hide ApplyTransition, NextEvent, Insertable, Advance;
      var saved := transactions;
      var current := GetTransaction(Contents(), id);
      if current.Failure? {
        return Failure(current.error);
      }
      if current.value.version != expectedVersion {
        return Failure(VersionConflict);
      }
      var decision := ApplyTransition(current.value.state, event, current.value.intended);
      if decision.Failure? {
        return Failure(decision.error);
      }
      var updated := Advance(current.value, decision.value, stamp.now, event, reason);
      var count := UpdateRow(id, expectedVersion,
        transactions[id].(state := updated.state, version := updated.version,
                          intended := updated.intended, record := updated));
      if count != 1 {
        return Failure(VersionConflict);
      }
      var envelope := NextEvent(hash, events, stamp, Some(id), TRANSITIONED,
        TransitionPayload(current.value.state, updated.state, event, updated.version));
      var ok := InsertEvent(envelope);
      if !ok {
        transactions := saved;
        return Failure(StorageError);
      }
      return Success(updated);
    }

    method Reserve(intentHash: string, id: string) returns (r: Result<IntentReservation>)
      modifies this
      ensures (r, Contents()) == ReserveIntent(old(Contents()), intentHash, id)
    {
      var created := false;
      if intentHash !in intents {
        if id !in transactions {
          return Failure(StorageError);
        }
        intents := intents[intentHash := id];
        created := true;
      }
      var owner := intents[intentHash];
      var previous: Option<string> := None;
      if owner != id {
        if owner in transactions && SafeNoEffect(transactions[owner].state)
           && !HasReceipt(receipts, owner) {
          if id !in transactions {
            return Failure(StorageError);
          }
          intents := intents[intentHash := id];
          previous := Some(owner);
          owner := id;
          created := true;
        }
      }
      return Success(IntentReservation(intentHash, owner, created, previous));
    }

    method Link(id: string, previous: string) returns (r: Result<TransactionRecord>)
      modifies this
      ensures (r, Contents()) == LinkSupersession(old(Contents()), id, previous)
    {
      var current := GetTransaction(Contents(), id);
      if current.Failure? {
        return Failure(current.error);
      }
      if current.value.state != New || current.value.supersedes.Some? {
        return Failure(IllegalTransition);
      }
      var updated := current.value.(supersedes := Some(previous));
      var count := UpdateRow(id, current.value.version, transactions[id].(record := updated));
      if count != 1 {
        return Failure(VersionConflict);
      }
      return Success(updated);
    }

    method StoreReceipt(receipt: EffectReceipt) returns (r: Result<()>)
      modifies this
      ensures (r, Contents()) == AppendReceipt(old(Contents()), receipt)
    {
      if receipt.receiptId in receipts || receipt.transactionId !in transactions {
        return Failure(IntegrityError);
      }
      receipts := receipts[receipt.receiptId := receipt];
      return Success(());
    }

    method TryConsume(capabilityId: string, maxUses: int) returns (r: Result<bool>)
      modifies this
      ensures (r, Contents()) == TryConsumeCapabilityUse(old(Contents()), capabilityId, maxUses)
    {
      if maxUses < 1 {
        return Failure(ValidationError);
      }
      var uses := if capabilityId in capabilityUses then capabilityUses[capabilityId] else 0;
      if uses >= maxUses {
        return Success(false);
      }
      capabilityUses := capabilityUses[capabilityId := uses + 1];
      return Success(true);
    }
  }
}
