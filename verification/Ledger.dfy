/** Event envelopes and the per-run hash chain. */
module Ledger {
  import opened Wrappers
  import opened StateMachine

  type Digest = string

  datatype Payload =
    | CreatedPayload(state: TransactionState, version: nat)
    | TransitionPayload(source: TransactionState, target: TransactionState,
                        event: TransitionEvent, version: nat)
    | EvidencePayload(json: string)

  const CREATED := "transaction.created"
  const TRANSITIONED := "transaction.transitioned"

  /** The fields of an event that its hash covers. */
  datatype EventMaterial = EventMaterial(
    eventId: string, runId: string, transactionId: Option<string>,
    sequence: nat, logicalTime: nat, wallTime: int,
    eventType: string, actor: string, onBehalfOf: string,
    payload: Payload, artifactRefs: seq<Digest>, previousEventHash: Option<Digest>)

  datatype EventEnvelope =
    EventEnvelope(material: EventMaterial, eventHash: Digest, signatureRef: Option<string>)

  /** The digest of the canonical text of an event, left abstract. */
  type EventHash = EventMaterial -> Digest

  ghost predicate Injective(hash: EventHash) {
    forall a, b :: hash(a) == hash(b) ==> a == b
  }

  function MakeEvent(hash: EventHash, material: EventMaterial): EventEnvelope {
    EventEnvelope(material, hash(material), None)
  }

  datatype BreakReason = NonContiguousSequence(expected: nat) | PreviousHashMismatch | ContentMismatch

  datatype LedgerValidation = LedgerValidation(
    valid: bool, firstBrokenSequence: Option<nat>, reason: Option<BreakReason>,
    finalHash: Option<Digest>)

  // ----- what a good chain is ---------------------------------------------------------------

  function LastHash(events: seq<EventEnvelope>): Option<Digest> {
    if events == [] then None else Some(events[|events| - 1].eventHash)
  }

  /** Event `i` sits at its place, points at its predecessor and carries its own digest. */
  predicate Linked(hash: EventHash, events: seq<EventEnvelope>, i: nat)
    requires i < |events|
  {
    && events[i].material.sequence == i
    && events[i].material.previousEventHash == LastHash(events[..i])
    && events[i].eventHash == hash(events[i].material)
  }

  predicate GoodChain(hash: EventHash, events: seq<EventEnvelope>) {
    forall i | 0 <= i < |events| :: Linked(hash, events, i)
  }

  /** Why event `i` is not linked, in the order in which the three checks are made. */
  function Fault(hash: EventHash, events: seq<EventEnvelope>, i: nat): BreakReason
    requires i < |events|
  {
    if events[i].material.sequence != i then NonContiguousSequence(i)
    else if events[i].material.previousEventHash != LastHash(events[..i]) then PreviousHashMismatch
    else ContentMismatch
  }

  /** `events[..k]` is the longest good prefix. */
  predicate FirstBadAt(hash: EventHash, events: seq<EventEnvelope>, k: nat) {
    && k < |events|
    && !Linked(hash, events, k)
    && forall i | 0 <= i < k :: Linked(hash, events, i)
  }

  /** Validate a complete supplied chain and report its first observable break. */
  method ValidateChain(hash: EventHash, events: seq<EventEnvelope>) returns (r: LedgerValidation)
    ensures r.valid <==> GoodChain(hash, events)
    ensures r.valid ==> r == LedgerValidation(true, None, None, LastHash(events))
    ensures !r.valid ==>
              exists k: nat ::
                && FirstBadAt(hash, events, k)
                && r == LedgerValidation(false, Some(events[k].material.sequence),
                                         Some(Fault(hash, events, k)), LastHash(events[..k]))
  {
    var previousHash: Option<Digest> := None;
    var previousSequence: Option<nat> := None;
    for n := 0 to |events|
      invariant previousHash == LastHash(events[..n])
      invariant previousSequence == if n == 0 then None else Some(n - 1)
      invariant forall i | 0 <= i < n :: Linked(hash, events, i)
    {
      var event := events[n];
      var expectedSequence := if previousSequence.None? then 0 else previousSequence.value + 1;
      if event.material.sequence != expectedSequence {
        assert FirstBadAt(hash, events, n);
        return LedgerValidation(false, Some(event.material.sequence),
                                Some(NonContiguousSequence(expectedSequence)), previousHash);
      }
      if event.material.previousEventHash != previousHash {
        assert FirstBadAt(hash, events, n);
        return LedgerValidation(false, Some(event.material.sequence),
                                Some(PreviousHashMismatch), previousHash);
      }
      if event.eventHash != hash(event.material) {
        assert FirstBadAt(hash, events, n);
        return LedgerValidation(false, Some(event.material.sequence),
                                Some(ContentMismatch), previousHash);
      }
      previousSequence := Some(event.material.sequence);
      previousHash := Some(event.eventHash);
    }
    assert events[..|events|] == events;
    return LedgerValidation(true, None, None, previousHash);
  }

  // ----- what the final hash pins -----------------------------------------------------------

  /** Deleting a suffix leaves a good chain: only the final hash tells. */
  lemma GoodPrefix(hash: EventHash, events: seq<EventEnvelope>, n: nat)
    requires GoodChain(hash, events) && n <= |events|
    ensures GoodChain(hash, events[..n])
  {
    forall i | 0 <= i < n ensures Linked(hash, events[..n], i) {
      assert Linked(hash, events, i);
      assert events[..n][..i] == events[..i];
    }
  }

  lemma GoodSnoc(hash: EventHash, events: seq<EventEnvelope>, event: EventEnvelope)
    requires GoodChain(hash, events)
    requires event.material.sequence == |events|
    requires event.material.previousEventHash == LastHash(events)
    requires event.eventHash == hash(event.material)
    ensures GoodChain(hash, events + [event])
  {
    var longer := events + [event];
    forall i | 0 <= i < |longer| ensures Linked(hash, longer, i) {
      assert longer[..i] == events[..i];
      if i < |events| {
        assert Linked(hash, events, i);
      } else {
        assert events[..i] == events;
      }
    }
  }

  /** Two accepted non-empty chains with one final hash have equal length and agree on every
      hashed field of every event: only the signature references may differ. */
  lemma {:induction false} FinalHashPinsHistory(hash: EventHash, a: seq<EventEnvelope>,
                                                b: seq<EventEnvelope>)
    requires Injective(hash)
    requires GoodChain(hash, a) && GoodChain(hash, b)
    requires a != [] && b != [] && LastHash(a) == LastHash(b)
    ensures |a| == |b|
    ensures forall i | 0 <= i < |a| ::
              a[i].material == b[i].material && a[i].eventHash == b[i].eventHash
    decreases |a|
  {
    var n, m := |a| - 1, |b| - 1;
    assert Linked(hash, a, n) && Linked(hash, b, m);
    assert a[n].material == b[m].material;
    assert n == m;
    if n > 0 {
      GoodPrefix(hash, a, n);
      GoodPrefix(hash, b, n);
      FinalHashPinsHistory(hash, a[..n], b[..n]);
      forall i | 0 <= i < n
        ensures a[i].material == b[i].material && a[i].eventHash == b[i].eventHash
      {
        assert a[i] == a[..n][i] && b[i] == b[..n][i];
      }
    }
  }

  /** The same, for validations: a tampered copy of an accepted chain is either rejected or has
      another final hash. */
  lemma TamperingShows(hash: EventHash, a: seq<EventEnvelope>, b: seq<EventEnvelope>, i: nat)
    requires Injective(hash)
    requires GoodChain(hash, a)
    requires i < |a| && i < |b| && a[i].material != b[i].material
    ensures !GoodChain(hash, b) || LastHash(a) != LastHash(b)
  {
    if GoodChain(hash, b) && LastHash(a) == LastHash(b) {
      FinalHashPinsHistory(hash, a, b);
    }
  }
}
