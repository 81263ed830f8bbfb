/** `TransactionCoordinator` and `TransactionSession` in their own form, run against one journal and
    one adapter while other sessions act in between, and proved to take only steps of the machine. */
module Sessions {
  import opened Wrappers
  import opened StateMachine
  import opened Ledger
  import opened Domain
  import opened Journal
  import opened Protocol
  import opened ProtocolLocal
  import opened ProtocolSync
  import opened ProtocolOwners
  import opened ProtocolEffects
  import opened ProtocolSerial
  import opened ProtocolClosing
  import opened ProtocolSteps
  import opened ProtocolMoves
  import Runs = ProtocolRuns
  import Verdicts = ProtocolVerdicts

  /** What the other sessions do while this one waits, and what its own next step meets. */
  datatype Turn = Turn(others: seq<Action>, env: Env)

  ghost predicate Fair(turn: Turn, id: string) {
    && (forall i | 0 <= i < |turn.others| :: Lawful(turn.others[i]) && !Acts(turn.others[i], id))
    && Lawful(Action.Advance(id, turn.env))
  }

  ghost predicate AllFair(turns: nat -> Turn, id: string) {
    forall t: nat :: Fair(turns(t), id)
  }

  /** Where the steps of a call begin: the history before them and the number of the first. */
  datatype Origin = Origin(start: seq<Action>, first: nat)

  /** The history of steps `a` to `b` of one session, with what the others do before each. */
  function Steps(id: string, turns: nat -> Turn, a: nat, b: nat): seq<Action> {
    if b <= a then []
    else Steps(id, turns, a, b - 1) + turns(b - 1).others + [Action.Advance(id, turns(b - 1).env)]
  }

  /** How a call ends. */
  datatype Answer = Returned(record: TransactionRecord) | Raised(exception: Exception)

  // ----- runs in pieces -----------------------------------------------------------------------

  lemma {:induction false} ReachConcat(hash: EventHash, init: System, a: seq<Action>, b: seq<Action>)
    ensures Reach(hash, init, a + b) == Reach(hash, Reach(hash, init, a), b)
  {
    hide Step;
    if b == [] {
      assert a + b == a;
    } else {
      assert (a + b)[..|a + b| - 1] == a + b[..|b| - 1];
      ReachConcat(hash, init, a, b[..|b| - 1]);
    }
  }

  lemma OneStep(hash: EventHash, init: System, before: seq<Action>, a: Action)
    ensures Reach(hash, init, before + [a]) == Step(hash, Reach(hash, init, before), a)
  {
    assert (before + [a])[..|before|] == before;
    hide Step;
  }

  lemma {:induction false} OtherSteps(hash: EventHash, s: System, actions: seq<Action>, id: string)
    requires id in s.sessions && forall i | 0 <= i < |actions| :: !Acts(actions[i], id)
    ensures var s' := Reach(hash, s, actions);
            id in s'.sessions && s'.sessions[id] == s.sessions[id]
  {
    hide Step, Acts;
    if actions != [] {
      var n := |actions| - 1;
      OtherSteps(hash, s, actions[..n], id);
      OtherStep(hash, Reach(hash, s, actions[..n]), actions[n], id);
    }
  }

  /** The origin of an operation: after the others' first turn and its start. */
  function Opened(history: seq<Action>, id: string, op: Operation, turns: nat -> Turn): Origin {
    Origin(history + turns(0).others + [Start(id, op, turns(0).env)], 1)
  }

  // ----- the shared part ------------------------------------------------------------------------

  /** The journal, the adapter and every session of the process, with the history of its steps. */
  class Cluster {
    const hash: EventHash
    const initial: M.Values
    const first: nat
    const journal: SQLiteJournal
    const adapter: M.MockReversibleAdapter
    var sessions: map<string, Session>
    var writes: seq<Write>
    var grants: map<string, seq<string>>
    ghost var history: seq<Action>

    function Contents(): System
      reads this, journal, adapter, adapter.target
    {
      System(journal.Contents(), adapter.Contents(), sessions, writes, grants)
    }

    /** The state is one that the machine reaches. */
    ghost predicate Valid()
      reads this, journal, adapter, adapter.target
    {
      && journal.hash == hash && LawfulRun(history)
      && Contents() == Reach(hash, Initial(initial, first), history)
    }

    /** The target is its initial state with all writes applied in the order of their commits. */
    lemma NothingLost()
      requires Valid()
      ensures adapter.target.state == Applied(initial, writes)
      ensures adapter.target.version == first + |writes|
    {
      Runs.NoLostUpdates(hash, initial, first, history);
      hide Reach, Initial, LawfulRun, Applied;
    }

    /** What the journal says of a transaction is what happened. */
    lemma OutcomesAreTrue(id: string)
      requires Valid() && id in journal.transactions
      ensures Runs.OutcomeIsTrue(Contents(), id)
    {
      hide Reach, Initial, LawfulRun, Runs.OutcomeIsTrue;
      Runs.DurableOutcomesAreTruthful(hash, initial, first, history, id);
    }

    /** What decided the outcome of a transaction, in the history of the cluster. */
    lemma OutcomesHaveCauses(id: string)
      requires Valid() && id in journal.transactions
      ensures var outcome := journal.transactions[id].state;
              && Verdicts.CommitIsCaused(hash, Initial(initial, first), history, id, outcome)
              && Verdicts.WayIsCaused(hash, Initial(initial, first), history, id, outcome)
    {
      hide Reach, Initial, LawfulRun, Verdicts.CommitIsCaused, Verdicts.WayIsCaused, Verdicts.AbortIsCaused;
      Verdicts.CommitsHaveCauses(hash, initial, first, history, id);
      Verdicts.WaysHaveCauses(hash, initial, first, history, id);
    }

    constructor (hash: EventHash, target: M.VersionedMemoryTarget)
      ensures Valid() && history == [] && adapter.target == target
      ensures initial == target.state && first == target.version
      ensures fresh(journal) && fresh(adapter)
    {
      this.hash := hash;
      initial, first := target.state, target.version;
      journal := new SQLiteJournal(hash);
      adapter := new M.MockReversibleAdapter(target);
      sessions, writes, grants := map[], [], map[];
      history := [];
    }

    method Reserve(intent: string, id: string, storageUp: bool) returns (r: Result<IntentReservation>)
      modifies this`grants, journal
      ensures var s := old(Contents());
              var out := if storageUp then ReserveIntent(s.tables, intent, id)
                         else (Failure(StorageError), s.tables);
              r == out.0 && Contents() == Granted(s.(tables := out.1), r, intent, id)
    {
      hide ReserveIntent;
      r := Failure(StorageError);
      if storageUp {
        r := journal.Reserve(intent, id);
      }
      if r.Success? && r.value.transactionId == id && r.value.created {
        var earlier := if intent in grants then grants[intent] else [];
        grants := grants[intent := earlier + [id]];
      }
    }

    method Commit(staged: M.StagedReceipt, plan: M.EffectPlan, id: string, receiptId: string, now: int)
      returns (r: Result<EffectReceipt>)
      modifies this`writes, adapter, adapter.target
      ensures var s := old(Contents());
              var out := M.Commit(s.mock, staged, plan.baseVersion, receiptId, now);
              r == out.0 && Contents() == Written(s, out.1, id, plan)
    {
      hide M.Commit;
      var version := adapter.target.version;
      r := adapter.DoCommit(staged, plan.baseVersion, receiptId, now);
      if adapter.target.version != version {
        writes := writes + [Effect(id, plan.intentHash, plan.values)];
      }
    }

    /** `adapter.commit` as a session hears of it. */
    method Ask(staged: M.StagedReceipt, plan: M.EffectPlan, id: string, env: Env) returns (r: Reply)
      modifies this`writes, adapter, adapter.target
      ensures var s := old(Contents());
              var out := M.Commit(s.mock, staged, plan.baseVersion, env.freshId, env.stamp.now);
              if env.fault.Some? && !env.late then r == Fault(env.fault.value) && Contents() == s
              else r == Heard(out.0, env.fault) && Contents() == Written(s, out.1, id, plan)
    {
      hide M.Commit, Written, Heard;
      if env.fault.Some? && !env.late {
        return Fault(env.fault.value);
      }
      var committed := Commit(staged, plan, id, env.freshId, env.stamp.now);
      r := Heard(committed, env.fault);
    }

    /** Other sessions run. */
    method Interleave(actions: seq<Action>, ghost id: string)
      requires Valid() && id in sessions
      requires forall i | 0 <= i < |actions| :: Lawful(actions[i]) && !Acts(actions[i], id)
      modifies this, journal, adapter, adapter.target
      ensures Valid() && id in sessions && sessions[id] == old(sessions[id])
      ensures history == old(history) + actions
    {
      hide Reach, Initial, Lawful, Acts;
      var s := Reach(hash, Contents(), actions);
      OtherSteps(hash, Contents(), actions, id);
      ReachConcat(hash, Initial(initial, first), history, actions);
      journal.transactions, journal.intents := s.tables.transactions, s.tables.intents;
      journal.receipts, journal.events := s.tables.receipts, s.tables.events;
      journal.capabilityUses := s.tables.capabilityUses;
      adapter.stages, adapter.snapshots := s.mock.stages, s.mock.snapshots;
      adapter.receipts := s.mock.receipts;
      adapter.target.state, adapter.target.version := s.mock.state, s.mock.version;
      sessions, writes, grants := s.sessions, s.writes, s.grants;
      history := history + actions;
      assert Contents() == s;
    }
  }

  // ----- one session ----------------------------------------------------------------------------

  class TransactionSession {
    const id: string
    const proposal: M.Proposal
    const cluster: Cluster
    var plan: Option<M.EffectPlan>
    var record: TransactionRecord
    var stagedEffect: Option<M.StagedEffect>
    var stagedReceipt: Option<M.StagedReceipt>
    var stagingCleanupFailed: bool
    // The position of the coroutine and what it has met, as the machine keeps them.
    var point: Point
    var operation: Operation
    var abortRaised: bool
    var discarded: bool
    var storage: StorageHistory

    constructor (cluster: Cluster, proposal: M.Proposal, record: TransactionRecord)
      ensures this.cluster == cluster && this.proposal == proposal && id == proposal.transactionId
      ensures Me() == Session(proposal, None, record, None, None, false, AtAdmission, Opening,
                              false, false, AllWorked)
    {
      this.cluster, this.proposal, id := cluster, proposal, proposal.transactionId;
      plan, this.record, stagedEffect, stagedReceipt := None, record, None, None;
      stagingCleanupFailed, point, operation := false, AtAdmission, Opening;
      abortRaised, discarded, storage := false, false, AllWorked;
    }

    function Me(): Session
      reads this
    {
      Session(proposal, plan, record, stagedEffect, stagedReceipt, stagingCleanupFailed, point,
              operation, abortRaised, discarded, storage)
    }

    ghost predicate Valid()
      reads this, cluster, cluster.journal, cluster.adapter, cluster.adapter.target
    {
      cluster.Valid() && id in cluster.sessions && cluster.sessions[id] == Me()
    }

    /** The invariant of all runs, for this session. */
    lemma Known()
      requires Valid()
      ensures LocalOk(Me(), id)
      ensures Inv(cluster.Contents(), cluster.initial, cluster.first)
    {
      hide Reach, Inv, LocalOk;
      Runs.RunsKeepInv(cluster.hash, cluster.initial, cluster.first, cluster.history);
      Parts(cluster.Contents(), id, cluster.initial, cluster.first);
    }

    /** The machine has reached `before`. */
    ghost predicate Ready(before: System)
      reads cluster`history
    {
      && cluster.journal.hash == cluster.hash && LawfulRun(cluster.history)
      && before == Reach(cluster.hash, Initial(cluster.initial, cluster.first), cluster.history)
    }

    /** The call has taken its steps up to `t`, in turn, and no others. */
    ghost predicate Underway(turns: nat -> Turn, t: nat, from: Origin)
      reads cluster`history
    {
      && AllFair(turns, id) && from.first <= t
      && cluster.history == from.start + Steps(id, turns, from.first, t)
    }

    ghost predicate Midway(turns: nat -> Turn, t: nat, from: Origin)
      reads cluster`history
    {
      && AllFair(turns, id) && from.first <= t
      && cluster.history == from.start + Steps(id, turns, from.first, t) + turns(t).others
    }

    /** Other sessions run while this one waits; then its own step starts from `before`. */
    method Pause(turn: Turn) returns (ghost before: System)
      requires Valid() && Fair(turn, id)
      modifies cluster, cluster.journal, cluster.adapter, cluster.adapter.target
      ensures before == cluster.Contents() && id in before.sessions && before.sessions[id] == Me()
      ensures Ready(before) && cluster.journal.hash == cluster.hash
      ensures Lawful(Action.Advance(id, turn.env))
      ensures LocalOk(Me(), id) && Inv(before, cluster.initial, cluster.first)
      ensures cluster.history == old(cluster.history) + turn.others
    {
      cluster.Interleave(turn.others, id);
      Known();
      before := cluster.Contents();
      hide Lawful, LawfulRun, Reach, Inv, LocalOk, Initial;
    }

    method Wait(turns: nat -> Turn, t: nat, ghost from: Origin) returns (ghost before: System)
      requires Valid() && Underway(turns, t, from)
      modifies cluster, cluster.journal, cluster.adapter, cluster.adapter.target
      ensures before == cluster.Contents() && id in before.sessions && before.sessions[id] == Me()
      ensures Ready(before) && cluster.journal.hash == cluster.hash
      ensures LocalOk(Me(), id) && Inv(before, cluster.initial, cluster.first)
      ensures Midway(turns, t, from)
    {
      hide Inv, LocalOk, Ready, Valid, Cluster.Valid, Fair, Steps, Lawful;
      assert Fair(turns(t), id);
      before := Pause(turns(t));
    }

    /** The end of every step: the machine has taken it too. */
    method Finish(ghost before: System, turns: nat -> Turn, t: nat, ghost from: Origin)
      requires Ready(before) && Midway(turns, t, from)
      requires cluster.Contents().(sessions := cluster.sessions[id := Me()]) ==
               Step(cluster.hash, before, Action.Advance(id, turns(t).env))
      modifies cluster`sessions, cluster`history
      ensures Valid() && Underway(turns, t + 1, from)
    {
      hide Step, Lawful, Inv, Steps;
      assert Fair(turns(t), id);
      ghost var history := cluster.history;
      Record(before, Action.Advance(id, turns(t).env));
      hide Valid, Ready, Fair, AllFair;
      OneMoreStep(turns, t, from);
    }

    lemma OneMoreStep(turns: nat -> Turn, t: nat, from: Origin)
      requires from.first <= t
      ensures from.start + Steps(id, turns, from.first, t + 1) ==
              from.start + Steps(id, turns, from.first, t) + turns(t).others + [Action.Advance(id, turns(t).env)]
    {
    }

    method Record(ghost before: System, ghost a: Action)
      requires Ready(before) && Lawful(a)
      requires cluster.Contents().(sessions := cluster.sessions[id := Me()]) == Step(cluster.hash, before, a)
      modifies cluster`sessions, cluster`history
      ensures Valid() && cluster.history == old(cluster.history) + [a]
    {
      hide Reach, Initial, Lawful, Step;
      OneStep(cluster.hash, Initial(cluster.initial, cluster.first), cluster.history, a);
      cluster.sessions := cluster.sessions[id := Me()];
      cluster.history := cluster.history + [a];
    }

    /** What a transition leaves alone. */
    twostate predicate HoldsOn()
      reads this
    {
      && plan == old(plan) && stagedEffect == old(stagedEffect) && stagedReceipt == old(stagedReceipt)
      && stagingCleanupFailed == old(stagingCleanupFailed) && operation == old(operation)
    }

    /** A failure of the journal, or of `adapter.abort`, is not forgotten. */
    twostate predicate Remembers()
      reads this
    {
      && (storage.AllWorked? ==> old(storage).AllWorked?)
      && (old(abortRaised) ==> abortRaised)
    }

    /** No journal operation of the session failed, and `adapter.abort` never raised. */
    predicate Smooth()
      reads this
    {
      storage.AllWorked? && !abortRaised
    }

    // ----- single steps ---------------------------------------------------------------------

    /** An operation takes the lock and runs up to its first atomic action. */
    method Begin(op: Operation, turns: nat -> Turn) returns (ghost from: Origin)
      requires Valid() && AllFair(turns, id) && point == AtRest && plan.Some? && op != Opening
      modifies this, cluster, cluster.journal, cluster.adapter, cluster.adapter.target
      ensures Valid() && Me() == old(Me()).(operation := op, point := Open(old(Me()), op, turns(0).env))
      ensures Underway(turns, 1, from) && from == Opened(old(cluster.history), id, op, turns)
    {
      hide Fair, Inv, LocalOk, Ready, Valid, Cluster.Valid, Open;
      assert Fair(turns(0), id);
      ghost var before := Pause(turns(0));
      operation, point := op, Open(Me(), op, turns(0).env);
      Record(before, Start(id, op, turns(0).env));
      from := Opened(old(cluster.history), id, op, turns);
    }

    /** `_transition`. */
    method Send(event: TransitionEvent, next: Next, turns: nat -> Turn, t: nat, ghost from: Origin)
      returns (r: Result<TransactionRecord>)
      requires Valid() && Underway(turns, t, from) && point == AtSend(event, next)
      modifies this, cluster, cluster.journal, cluster.adapter, cluster.adapter.target
      ensures Valid() && Underway(turns, t + 1, from) && Me() == Sent(old(Me()), r, next)
      ensures r.Success? ==>
                ApplyTransition(old(record.state), event, old(record.intended)) ==
                Success(TransitionDecision(record.state, record.intended))
      ensures !Completes(event) ==> NoNewSuccess(old(record.state), record.state)
    {
      hide Underway, Midway, Transition, ApplyTransition, Inv, LocalOk, Step, Resume, Ready, Valid, Cluster.Valid;
      ghost var before := Wait(turns, t, from);
      SentRecord(cluster.hash, before, id, event, turns(t).env, cluster.initial, cluster.first);
      SendStep(cluster.hash, before, id, event, next, turns(t).env);
      r := Failure(StorageError);
      if turns(t).env.storageUp {
        r := cluster.journal.Move(id, record.version, event, turns(t).env.stamp, turns(t).env.reason);
      }
      if r.Failure? {
        point, storage := AtRest, AfterFailure(Me());
      } else {
        record, point := r.value, Resume(next);
      }
      if r.Success? && !Completes(event) {
        OnlyCompletionSucceeds(old(record.state), event, old(record.intended));
      }
      Finish(before, turns, t, from);
    }

    method ReserveIntent(turns: nat -> Turn, t: nat, ghost from: Origin) returns (r: Result<IntentReservation>)
      requires Valid() && Underway(turns, t, from) && point == AtReserve && plan.Some?
      modifies this, cluster, cluster.journal, cluster.adapter, cluster.adapter.target
      ensures Valid() && Underway(turns, t + 1, from) && Me() == Reserved(old(Me()), r, id)
    {
      hide Underway, Midway, Journal.ReserveIntent, Granted, Inv, LocalOk, Step, Ready, Valid, Cluster.Valid;
      ghost var before := Wait(turns, t, from);
      ReserveStep(cluster.hash, before, id, turns(t).env);
      r := cluster.Reserve(plan.value.intentHash, id, turns(t).env.storageUp);
      TakeReservation(r);
      hide Reserved;
      Finish(before, turns, t, from);
    }

    method TakeReservation(r: Result<IntentReservation>)
      modifies this
      ensures Me() == Reserved(old(Me()), r, id)
    {
      if r.Failure? {
        point, storage := AtRest, AfterFailure(Me());
      } else if r.value.transactionId != id {
        point := AtSend(ValidationFailed, ThenRest);
      } else if r.value.previous.Some? {
        point := AtLink(r.value.previous.value);
      } else {
        point := AtSend(ProposalValid, ThenAuthorize);
      }
    }

    method LinkPrevious(previous: string, turns: nat -> Turn, t: nat, ghost from: Origin)
      returns (r: Result<TransactionRecord>)
      requires Valid() && Underway(turns, t, from) && point == AtLink(previous)
      modifies this, cluster, cluster.journal, cluster.adapter, cluster.adapter.target
      ensures Valid() && Underway(turns, t + 1, from) && Me() == Relinked(old(Me()), r)
      ensures r.Success? ==> record.state == New
    {
      hide Underway, Midway, LinkSupersession, Inv, LocalOk, Step, Ready, Valid, Cluster.Valid;
      ghost var before := Wait(turns, t, from);
      LinkStep(cluster.hash, before, id, previous, turns(t).env);
      RelinkedIsNew(before.tables, id, previous);
      r := Failure(StorageError);
      if turns(t).env.storageUp {
        r := cluster.journal.Link(id, previous);
      }
      TakeLink(r);
      hide Relinked;
      Finish(before, turns, t, from);
    }

    method TakeLink(r: Result<TransactionRecord>)
      requires point.AtLink?
      modifies this
      ensures Me() == Relinked(old(Me()), r)
      ensures r.Success? ==> record == r.value
    {
      if r.Failure? {
        point, storage := AtRest, LinkFailed;
      } else {
        record, point := r.value, AtSend(ProposalValid, ThenAuthorize);
      }
    }

    /** `adapter.stage`, or a guard or a cancellation instead. */
    method StageEffect(turns: nat -> Turn, t: nat, ghost from: Origin) returns (fault: Option<Exception>)
      requires Valid() && Underway(turns, t, from) && point == AtStage && plan.Some?
      modifies this, cluster, cluster.journal, cluster.adapter, cluster.adapter.target
      ensures Valid() && Underway(turns, t + 1, from) && plan == old(plan) && record == old(record)
      ensures Remembers()
      ensures fault == turns(t).env.fault
      ensures point == if fault.Some? then AtSend(EventFor(fault.value, StagingFailed), ThenDiscard)
                       else AtExecute
    {
      hide Underway, Midway, EventFor, Inv, LocalOk, Step, Ready, Valid, Cluster.Valid;
      ghost var before := Wait(turns, t, from);
      ConverseStep(cluster.hash, before, id, turns(t).env);
      fault := turns(t).env.fault;
      if fault.Some? {
        stagingCleanupFailed := fault.value == KernelError(RollbackFailed);
        point := AtSend(EventFor(fault.value, StagingFailed), ThenDiscard);
      } else {
        var staged := cluster.adapter.DoStage(plan.value, turns(t).env.freshId);
        stagedEffect, point := Some(staged), AtExecute;
      }
      Finish(before, turns, t, from);
    }

    /** `adapter.execute`; its acknowledgement may be lost after the stage was written. */
    method ExecuteStage(turns: nat -> Turn, t: nat, ghost from: Origin) returns (fault: Option<Exception>)
      requires Valid() && Underway(turns, t, from) && point == AtExecute && plan.Some? && stagedEffect.Some?
      modifies this, cluster, cluster.journal, cluster.adapter, cluster.adapter.target
      ensures Valid() && Underway(turns, t + 1, from) && plan == old(plan) && record == old(record)
      ensures Remembers()
      ensures fault == turns(t).env.fault
      ensures point == if fault.Some? then AtSend(EventFor(fault.value, StagingFailed), ThenDiscard)
                       else AtSend(StagingSucceeded, ThenVerifyStaged)
    {
      hide Underway, Midway, EventFor, Inv, LocalOk, Step, Ready, Valid, Cluster.Valid, M.Execute;
      ghost var before := Wait(turns, t, from);
      ConverseStep(cluster.hash, before, id, turns(t).env);
      fault := turns(t).env.fault;
      if fault.None? || turns(t).env.late {
        var receipt := cluster.adapter.DoExecute(stagedEffect.value);
        if fault.None? {
          stagedReceipt, point := Some(receipt), AtSend(StagingSucceeded, ThenVerifyStaged);
        }
      }
      if fault.Some? {
        stagingCleanupFailed := fault.value == KernelError(RollbackFailed);
        point := AtSend(EventFor(fault.value, StagingFailed), ThenDiscard);
      }
      Finish(before, turns, t, from);
    }

    method VerifyStage(turns: nat -> Turn, t: nat, ghost from: Origin)
      returns (fault: Option<Exception>, status: VerificationStatus)
      requires Valid() && Underway(turns, t, from) && point == AtVerifyStaged && plan.Some?
      modifies this, cluster, cluster.journal, cluster.adapter, cluster.adapter.target
      ensures Valid() && Underway(turns, t + 1, from) && HoldsOn() && record == old(record)
      ensures Remembers()
      ensures fault == turns(t).env.fault && status == turns(t).env.status
      ensures point == if fault.Some? then
                         AtSend(EventFor(fault.value, StagedVerificationFailed), ThenDiscard)
                       else if status != Pass then AtSend(StagedVerificationFailed, ThenDiscard)
                       else AtSend(StagedVerificationPassed, ThenNoApproval)
    {
      hide Underway, Midway, EventFor, Inv, LocalOk, Step, Ready, Valid, Cluster.Valid;
      ghost var before := Wait(turns, t, from);
      ConverseStep(cluster.hash, before, id, turns(t).env);
      fault, status := turns(t).env.fault, turns(t).env.status;
      point := if fault.Some? then AtSend(EventFor(fault.value, StagedVerificationFailed), ThenDiscard)
               else if status != Pass then AtSend(StagedVerificationFailed, ThenDiscard)
               else AtSend(StagedVerificationPassed, ThenNoApproval);
      Finish(before, turns, t, from);
    }

    /** The second `inspect` and the guards before the commit boundary. */
    method Recheck(turns: nat -> Turn, t: nat, ghost from: Origin) returns (fault: Option<Exception>, changed: bool)
      requires Valid() && Underway(turns, t, from) && point == AtReinspect && plan.Some?
      modifies this, cluster, cluster.journal, cluster.adapter, cluster.adapter.target
      ensures Valid() && Underway(turns, t + 1, from) && HoldsOn() && record == old(record)
      ensures Remembers()
      ensures fault == turns(t).env.fault
      ensures point == if fault.Some? then AtRest
                       else if changed then AtSend(TargetVersionChanged, ThenDiscard)
                       else if turns(t).env.guard != GuardsPass then
                         AtSend(GuardEvent(turns(t).env.guard), ThenDiscard)
                       else AtSend(CommitGuardsPassed, ThenCommit)
    {
      hide Underway, Midway, GuardEvent, Inv, LocalOk, Step, Ready, Valid, Cluster.Valid;
      ghost var before := Wait(turns, t, from);
      ConverseStep(cluster.hash, before, id, turns(t).env);
      fault, changed := turns(t).env.fault, false;
      if fault.Some? {
        point := AtRest;
      } else {
        var refreshed := cluster.adapter.DoInspect(proposal);
        changed := refreshed.baseVersion != plan.value.baseVersion;
        point := if changed then AtSend(TargetVersionChanged, ThenDiscard)
                 else if turns(t).env.guard != GuardsPass then AtSend(GuardEvent(turns(t).env.guard), ThenDiscard)
                 else AtSend(CommitGuardsPassed, ThenCommit);
      }
      Finish(before, turns, t, from);
    }

    /** `adapter.commit`: it may raise before doing anything, be refused, or take effect and lose its
        acknowledgement. */
    method CommitEffect(turns: nat -> Turn, t: nat, ghost from: Origin) returns (r: Reply)
      requires Valid() && Underway(turns, t, from) && point == AtCommit && plan.Some? && stagedReceipt.Some?
      modifies this, cluster, cluster.journal, cluster.adapter, cluster.adapter.target
      ensures Valid() && Underway(turns, t + 1, from) && Me() == old(Me()).(point :=
                if r.Fault? then CommitFault(r.exception) else AtReceipt(r.receipt))
    {
      hide Underway, Midway, CommitFault, Written, Heard, Inv, LocalOk, Step, Ready, Valid, Cluster.Valid, M.Commit;
      ghost var before := Wait(turns, t, from);
      CommitStep(cluster.hash, before, id, turns(t).env);
      r := cluster.Ask(stagedReceipt.value, plan.value, id, turns(t).env);
      point := if r.Fault? then CommitFault(r.exception) else AtReceipt(r.receipt);
      Finish(before, turns, t, from);
    }

    method StoreReceipt(receipt: EffectReceipt, turns: nat -> Turn, t: nat, ghost from: Origin)
      returns (failure: Option<Exception>)
      requires Valid() && Underway(turns, t, from) && point == AtReceipt(receipt)
      modifies this, cluster, cluster.journal, cluster.adapter, cluster.adapter.target
      ensures Valid() && Underway(turns, t + 1, from) && HoldsOn() && record == old(record)
      ensures Remembers()
      ensures point == if failure.Some? then AtSend(CommitOutcomeUnknown, ThenRest) else AtVerifyCommitted
    {
      hide Underway, Midway, AppendReceipt, Inv, LocalOk, Step, Ready, Valid, Cluster.Valid;
      ghost var before := Wait(turns, t, from);
      ReceiptStep(cluster.hash, before, id, receipt, turns(t).env);
      var r: Result<()> := Failure(StorageError);
      if turns(t).env.storageUp {
        r := cluster.journal.StoreReceipt(receipt);
      }
      if r.Failure? {
        point, failure := AtSend(CommitOutcomeUnknown, ThenRest), Some(KernelError(r.error));
      } else {
        point, failure := AtVerifyCommitted, None;
      }
      Finish(before, turns, t, from);
    }

    method VerifyCommitted(turns: nat -> Turn, t: nat, ghost from: Origin)
      returns (fault: Option<Exception>, status: VerificationStatus)
      requires Valid() && Underway(turns, t, from) && point == AtVerifyCommitted && plan.Some?
      modifies this, cluster, cluster.journal, cluster.adapter, cluster.adapter.target
      ensures Valid() && Underway(turns, t + 1, from) && HoldsOn() && record == old(record)
      ensures Remembers()
      ensures fault == turns(t).env.fault && status == turns(t).env.status
      ensures point == if fault.None? && status == Pass then AtSend(CommitVerified, ThenRest)
                       else AtSend(CommitPartialOrInvalid, ThenRest)
    {
      hide Underway, Midway, Inv, LocalOk, Step, Ready, Valid, Cluster.Valid;
      ghost var before := Wait(turns, t, from);
      ConverseStep(cluster.hash, before, id, turns(t).env);
      fault, status := turns(t).env.fault, turns(t).env.status;
      point := if fault.None? && status == Pass then AtSend(CommitVerified, ThenRest)
               else AtSend(CommitPartialOrInvalid, ThenRest);
      Finish(before, turns, t, from);
    }

    /** The part of `_complete_abort` up to its transition: nothing to discard, or `adapter.abort`. */
    method DiscardStage(turns: nat -> Turn, t: nat, ghost from: Origin)
      returns (fault: Option<Exception>, event: TransitionEvent)
      requires Valid() && Underway(turns, t, from) && point == AtDiscard && plan.Some?
      modifies this, cluster, cluster.journal, cluster.adapter, cluster.adapter.target
      ensures Valid() && Underway(turns, t + 1, from) && HoldsOn() && record == old(record)
      ensures Remembers()
      ensures point == if fault.Some? then AtRest else AtSend(event, ThenRest)
      ensures var held := stagedReceipt.Some? || stagedEffect.Some?;
              var asked := held && !stagingCleanupFailed;
              && fault == (if asked then turns(t).env.fault else None)
              && (fault.Some? ==> abortRaised)
              && event == if stagingCleanupFailed || (asked && fault.None? && turns(t).env.status != Pass)
                          then StagingDiscardFailed else StagingDiscardSucceeded
    {
      hide Underway, Midway, Inv, LocalOk, Step, Ready, Valid, Cluster.Valid;
      ghost var before := Wait(turns, t, from);
      ConverseStep(cluster.hash, before, id, turns(t).env);
      fault, event := None, StagingDiscardSucceeded;
      if stagingCleanupFailed {
        event := StagingDiscardFailed;
      } else if stagedReceipt.Some? || stagedEffect.Some? {
        fault := turns(t).env.fault;
        if fault.Some? {
          abortRaised := true;
        } else if turns(t).env.status != Pass {
          event := StagingDiscardFailed;
        } else {
          var stageId := if stagedReceipt.Some? then stagedReceipt.value.staged.stageId
                         else stagedEffect.value.stageId;
          var status := cluster.adapter.DoAbort(stageId);
          discarded := true;
        }
      }
      point := if fault.Some? then AtRest else AtSend(event, ThenRest);
      Finish(before, turns, t, from);
    }

    /** Nothing is held, or `adapter.abort` reports PASS. */
    predicate Discards(env: Env)
      reads this
    {
      !stagingCleanupFailed && ((stagedReceipt.None? && stagedEffect.None?) || env.status == Pass)
    }

    // ----- the operations ---------------------------------------------------------------------

    /** What a session holds at each position. */
    lemma Holding()
      requires Valid()
      ensures point.AtDiscard? ==> record.state == Aborting && plan.Some?
      ensures point.AtStage? || point.AtVerifyStaged? || point.AtReinspect? || point.AtVerifyCommitted? ==>
                plan.Some?
      ensures point.AtExecute? ==> plan.Some? && stagedEffect.Some?
      ensures point.AtCommit? ==> plan.Some? && stagedReceipt.Some?
      ensures record.state == ReadyToCommit ==> stagedReceipt.Some?
      ensures record.state == Aborting ==> record.intended.Some?
    {
      hide Inv, LocalOk, Valid;
      Known();
      HeldAt(Me(), id);
    }

    /** `_complete_abort`. */
    method CompleteAbort(turns: nat -> Turn, t: nat, ghost from: Origin)
      returns (fault: Option<Exception>, end: nat)
      requires Valid() && Underway(turns, t, from)
      requires point == if record.state == Aborting then AtDiscard else AtRest
      modifies this, cluster, cluster.journal, cluster.adapter, cluster.adapter.target
      ensures Valid() && Underway(turns, end, from)
      ensures Remembers()
      ensures point == AtRest && plan == old(plan) && operation == old(operation)
      ensures NoNewSuccess(old(record.state), record.state)
      ensures old(record.state) == Aborting && Smooth() ==> fault == None
      ensures old(record.state) == Aborting && fault == None ==>
                && old(record.intended).Some?
                && record.state == if Discards(turns(t).env) then OutcomeState(old(record.intended).value)
                                   else RecoveryFailed
    {
      hide Valid, Underway, ApplyTransition;
      if record.state != Aborting {
        return None, t;
      }
      Holding();
      ghost var aborting := record;
      var raised, event := DiscardStage(turns, t, from);
      if raised.Some? {
        return raised, t + 1;
      }
      var sent := Send(event, ThenRest, turns, t + 1, from);
      AbortEnds(aborting.state, aborting.intended);
      return FailureOf(sent), t + 2;
    }

    /** An aborting transition, the discard, and the exception that led here. */
    method Abandon(event: TransitionEvent, e: Exception, turns: nat -> Turn, t: nat, ghost from: Origin)
      returns (answer: Answer, end: nat)
      requires Valid() && Underway(turns, t, from) && point == AtSend(event, ThenDiscard)
      modifies this, cluster, cluster.journal, cluster.adapter, cluster.adapter.target
      ensures Valid() && Underway(turns, end, from)
      ensures Remembers()
      ensures point == AtRest && plan == old(plan) && operation == old(operation) && answer.Raised?
      ensures !Completes(event) ==> NoNewSuccess(old(record.state), record.state)
      ensures Smooth() ==> answer == Raised(e) && (record.state == EndOf(event) || record.state == RecoveryFailed)
    {
      hide Valid, ApplyTransition, Underway;
      ghost var before := record;
      var sent := Send(event, ThenDiscard, turns, t, from);
      if sent.Failure? {
        return Raised(KernelError(sent.error)), t + 1;
      }
      Holding();
      AbortIntends(before.state, event, before.intended);
      var fault;
      fault, end := CompleteAbort(turns, t + 1, from);
      answer := Raised(if fault.Some? then fault.value else e);
    }

    /** A last transition, and the exception that led here. */
    method GiveUp(event: TransitionEvent, e: Exception, turns: nat -> Turn, t: nat, ghost from: Origin)
      returns (answer: Answer)
      requires Valid() && Underway(turns, t, from) && point == AtSend(event, ThenRest)
      modifies this, cluster, cluster.journal, cluster.adapter, cluster.adapter.target
      ensures Valid() && Underway(turns, t + 1, from)
      ensures Remembers()
      ensures point == AtRest && plan == old(plan) && operation == old(operation) && answer.Raised?
      ensures !Completes(event) ==> NoNewSuccess(old(record.state), record.state)
      ensures storage.AllWorked? ==> answer == Raised(e)
      ensures storage.AllWorked? ==>
                ApplyTransition(old(record.state), event, old(record.intended)) ==
                Success(TransitionDecision(record.state, record.intended))
    {
      hide Valid, ApplyTransition, Underway;
      var sent := Send(event, ThenRest, turns, t, from);
      return Raised(if sent.Failure? then KernelError(sent.error) else e);
    }

    /** `_enter`. */
    method Enter(turns: nat -> Turn) returns (answer: Answer, end: nat)
      requires Valid() && AllFair(turns, id) && point == AtRest && plan.Some?
      modifies this, cluster, cluster.journal, cluster.adapter, cluster.adapter.target
      ensures Valid() && point == AtRest && plan == old(plan)
      ensures Remembers()
      ensures Underway(turns, end, Opened(old(cluster.history), id, Entering, turns))
      ensures answer.Returned? ==>
                answer.record == record && record.state == ReadyToCommit && stagedReceipt.Some?
      ensures old(record.state) != New ==>
                answer == Raised(KernelError(IllegalTransition)) && end == 1 && record == old(record)
      ensures old(record.state) == New && answer.Raised? ==> record.state != ReadyToCommit
      ensures old(record.state) == New && Smooth() ==>
                || (turns(0).env.guard == DeadlineElapsed && answer == Raised(KernelError(DeadlineExceeded)))
                || (turns(0).env.guard == ManifestChanged && answer == Raised(KernelError(IntegrityError)))
                || (turns(0).env.guard == GuardsPass && record.state == Rejected
                    && answer == Raised(KernelError(VersionConflict)))
                || (turns(0).env.guard == GuardsPass && answer == AnswerOf(StagingError(turns, 5), record))
                || (turns(0).env.guard == GuardsPass && answer == AnswerOf(StagingError(turns, 6), record))
    {
      hide Valid, ApplyTransition, Underway, AllFair, Opened, Fair;
      ghost var from := Begin(Entering, turns);
      if record.state != New {
        return Raised(KernelError(IllegalTransition)), 1;
      }
      var guard := turns(0).env.guard;
      if guard != GuardsPass {
        answer := GiveUp(ValidationFailed, GuardError(guard), turns, 1, from);
        return answer, 2;
      }
      var reservation := ReserveIntent(turns, 1, from);
      if reservation.Failure? {
        return Raised(KernelError(reservation.error)), 2;
      }
      if reservation.value.transactionId != id {
        answer := GiveUp(ValidationFailed, KernelError(VersionConflict), turns, 2, from);
        LeadsToRejected(old(record.state), old(record.intended));
        return answer, 3;
      }
      var next: nat := 2;
      if reservation.value.previous.Some? {
        var linked := LinkPrevious(reservation.value.previous.value, turns, 2, from);
        if linked.Failure? {
          return Raised(KernelError(linked.error)), 3;
        }
        next := 3;
      }
      answer, end := Prepare(turns, next, from);
    }

    /** `_enter`, from the planned transaction to the written stage. */
    method Prepare(turns: nat -> Turn, t: nat, ghost from: Origin) returns (answer: Answer, end: nat)
      requires Valid() && Underway(turns, t, from)
      requires point == AtSend(ProposalValid, ThenAuthorize) && plan.Some? && record.state == New
      modifies this, cluster, cluster.journal, cluster.adapter, cluster.adapter.target
      ensures Valid() && Underway(turns, end, from) && point == AtRest && plan == old(plan)
      ensures Remembers()
      ensures answer.Returned? ==>
                answer.record == record && record.state == ReadyToCommit && stagedReceipt.Some?
      ensures answer.Raised? ==> record.state != ReadyToCommit
      ensures Smooth() ==> answer == AnswerOf(StagingError(turns, t + 3), record)
    {
      hide Valid, ApplyTransition, Underway;
      var sent := Send(ProposalValid, ThenAuthorize, turns, t, from);
      if sent.Failure? {
        return Raised(KernelError(sent.error)), t + 1;
      }
      sent := Send(AuthorizedForStaging, ThenLease, turns, t + 1, from);
      if sent.Failure? {
        return Raised(KernelError(sent.error)), t + 2;
      }
      sent := Send(WorkerLeaseAcquired, ThenStage, turns, t + 2, from);
      if sent.Failure? {
        return Raised(KernelError(sent.error)), t + 3;
      }
      answer, end := Fill(turns, t + 3, from);
    }

    /** `_enter`, stage and execute. */
    method Fill(turns: nat -> Turn, t: nat, ghost from: Origin) returns (answer: Answer, end: nat)
      requires Valid() && Underway(turns, t, from)
      requires point == AtStage && plan.Some? && record.state != ReadyToCommit
      modifies this, cluster, cluster.journal, cluster.adapter, cluster.adapter.target
      ensures Valid() && Underway(turns, end, from) && point == AtRest && plan == old(plan)
      ensures Remembers()
      ensures answer.Returned? ==>
                answer.record == record && record.state == ReadyToCommit && stagedReceipt.Some?
      ensures answer.Raised? ==> record.state != ReadyToCommit
      ensures Smooth() ==> answer == AnswerOf(StagingError(turns, t), record)
    {
      hide Valid, ApplyTransition, Underway, EventFor;
      var fault := StageEffect(turns, t, from);
      if fault.Some? {
        AbortsOnly(fault.value, StagingFailed);
        answer, end := Abandon(EventFor(fault.value, StagingFailed), fault.value, turns, t + 1, from);
        return;
      }
      Holding();
      fault := ExecuteStage(turns, t + 1, from);
      if fault.Some? {
        AbortsOnly(fault.value, StagingFailed);
        answer, end := Abandon(EventFor(fault.value, StagingFailed), fault.value, turns, t + 2, from);
        return;
      }
      answer, end := Verify(turns, t + 2, from);
    }

    /** `_enter`, from the written stage to the commit boundary. */
    method Verify(turns: nat -> Turn, t: nat, ghost from: Origin) returns (answer: Answer, end: nat)
      requires Valid() && Underway(turns, t, from)
      requires point == AtSend(StagingSucceeded, ThenVerifyStaged) && record.state != ReadyToCommit
      modifies this, cluster, cluster.journal, cluster.adapter, cluster.adapter.target
      ensures Valid() && Underway(turns, end, from) && point == AtRest && plan == old(plan)
      ensures Remembers()
      ensures answer.Returned? ==>
                answer.record == record && record.state == ReadyToCommit && stagedReceipt.Some?
      ensures answer.Raised? ==> record.state != ReadyToCommit
      ensures Smooth() ==> answer == AnswerOf(StageCheckError(turns(t + 1).env), record)
      ensures Smooth() && turns(t + 1).env.fault == None && turns(t + 1).env.status != Pass ==>
                answer == Raised(KernelError(
                  if turns(t + 1).env.status == Unknown then VerificationUnknown else VerificationFailed))
    {
      hide Valid, ApplyTransition, Underway, EventFor;
      var sent := Send(StagingSucceeded, ThenVerifyStaged, turns, t, from);
      if sent.Failure? {
        return Raised(KernelError(sent.error)), t + 1;
      }
      Holding();
      var fault, status := VerifyStage(turns, t + 1, from);
      if fault.Some? {
        AbortsOnly(fault.value, StagedVerificationFailed);
        answer, end := Abandon(EventFor(fault.value, StagedVerificationFailed), fault.value, turns,
                               t + 2, from);
        return;
      }
      if status != Pass {
        answer, end := Abandon(StagedVerificationFailed, StatusError(status), turns, t + 2, from);
        return;
      }
      answer, end := BecomeReady(turns, t + 2, from);
    }

    /** `_enter`, its last two transitions. */
    method BecomeReady(turns: nat -> Turn, t: nat, ghost from: Origin) returns (answer: Answer, end: nat)
      requires Valid() && Underway(turns, t, from)
      requires point == AtSend(StagedVerificationPassed, ThenNoApproval) && record.state != ReadyToCommit
      modifies this, cluster, cluster.journal, cluster.adapter, cluster.adapter.target
      ensures Valid() && Underway(turns, end, from) && point == AtRest && plan == old(plan)
      ensures Remembers()
      ensures answer.Returned? ==>
                answer.record == record && record.state == ReadyToCommit && stagedReceipt.Some?
      ensures answer.Raised? ==> record.state != ReadyToCommit
      ensures Smooth() ==> answer.Returned?
    {
      hide Valid, ApplyTransition, Underway;
      var sent := Send(StagedVerificationPassed, ThenNoApproval, turns, t, from);
      if sent.Failure? {
        return Raised(KernelError(sent.error)), t + 1;
      }
      ghost var verified := record;
      sent := Send(NoApprovalRequired, ThenRest, turns, t + 1, from);
      if sent.Failure? {
        return Raised(KernelError(sent.error)), t + 2;
      }
      LeadsTo(verified.state, verified.intended);
      Holding();
      return Returned(record), t + 2;
    }

    /** `_commit`. */
    method Commit(turns: nat -> Turn) returns (answer: Answer, end: nat)
      requires Valid() && AllFair(turns, id) && point == AtRest && plan.Some?
      modifies this, cluster, cluster.journal, cluster.adapter, cluster.adapter.target
      ensures Valid() && point == AtRest && plan == old(plan)
      ensures Remembers()
      ensures Underway(turns, end, Opened(old(cluster.history), id, CommittingOp, turns))
      ensures answer.Returned? ==> answer.record == record && record.state == Committed
      ensures old(record.state) != ReadyToCommit ==>
                answer == Raised(KernelError(IllegalTransition)) && end == 1 && record == old(record)
      ensures old(record.state) == ReadyToCommit && answer.Raised? ==> record.state != Committed
      ensures answer.Returned? ==> end >= 2 && turns(end - 2).env.fault == None && turns(end - 2).env.status == Pass
      ensures old(record.state) == ReadyToCommit && Smooth() ==>
                && (record.state == StaleState ==> answer == Raised(KernelError(StaleTarget)))
                && (record.state == TransactionState.Failed ==>
                      end >= 2 && answer == Raised(VerdictError(turns(end - 2).env)))
                && (record.state == TransactionState.Failed && turns(end - 2).env.fault == None ==>
                      answer == Raised(KernelError(VerificationFailed)))
    {
      hide Valid, ApplyTransition, Underway, AllFair, Opened, Fair, GuardEvent;
      ghost var from := Begin(CommittingOp, turns);
      if record.state != ReadyToCommit {
        return Raised(KernelError(IllegalTransition)), 1;
      }
      if stagedReceipt.None? {
        return Raised(KernelError(IntegrityError)), 1;
      }
      var guard := turns(0).env.guard;
      if guard != GuardsPass {
        GuardsOnly(guard);
        answer, end := Abandon(GuardEvent(guard), GuardError(guard), turns, 1, from);
        return;
      }
      var fault, changed := Recheck(turns, 1, from);
      if fault.Some? {
        return Raised(fault.value), 2;
      }
      if changed {
        answer, end := Abandon(TargetVersionChanged, KernelError(StaleTarget), turns, 2, from);
        return;
      }
      guard := turns(1).env.guard;
      if guard != GuardsPass {
        GuardsOnly(guard);
        answer, end := Abandon(GuardEvent(guard), GuardError(guard), turns, 2, from);
        return;
      }
      answer, end := CrossBoundary(turns, 2, from);
    }

    /** `_commit`, from the journalled commit intent to the adapter's answer. */
    method CrossBoundary(turns: nat -> Turn, t: nat, ghost from: Origin) returns (answer: Answer, end: nat)
      requires Valid() && Underway(turns, t, from)
      requires point == AtSend(CommitGuardsPassed, ThenCommit) && record.state != Committed
      modifies this, cluster, cluster.journal, cluster.adapter, cluster.adapter.target
      ensures Valid() && Underway(turns, end, from) && point == AtRest && plan == old(plan)
      ensures Remembers()
      ensures answer.Returned? ==> answer.record == record && record.state == Committed
      ensures answer.Raised? ==> record.state != Committed
      ensures answer.Returned? ==> end >= 2 && turns(end - 2).env.fault == None && turns(end - 2).env.status == Pass
      ensures Smooth() ==>
                || record.state == Committed || record.state == InDoubt
                || record.state == Aborted || record.state == RecoveryFailed
                || (record.state == TransactionState.Failed && end >= 2
                    && answer == Raised(VerdictError(turns(end - 2).env)))
    {
      hide Valid, ApplyTransition, Underway;
      var sent := Send(CommitGuardsPassed, ThenCommit, turns, t, from);
      if sent.Failure? {
        return Raised(KernelError(sent.error)), t + 1;
      }
      Holding();
      var reply := CommitEffect(turns, t + 1, from);
      if reply.Fault? {
        answer, end := HearFault(reply.exception, turns, t + 2, from);
        return;
      }
      answer, end := Confirm(reply.receipt, turns, t + 2, from);
    }

    /** `_commit`, where `adapter.commit` raised. */
    method HearFault(e: Exception, turns: nat -> Turn, t: nat, ghost from: Origin) returns (answer: Answer, end: nat)
      requires Valid() && Underway(turns, t, from)
      requires point == CommitFault(e) && record.state != Committed
      modifies this, cluster, cluster.journal, cluster.adapter, cluster.adapter.target
      ensures Valid() && Underway(turns, end, from)
      ensures Remembers() && point == AtRest && plan == old(plan)
      ensures answer.Raised? && record.state != Committed
      ensures Smooth() ==> answer == Raised(e)
      ensures Smooth() ==>
                if e == KernelError(StaleTarget) then record.state == Aborted || record.state == RecoveryFailed
                else record.state == InDoubt
    {
      hide Valid, ApplyTransition, Underway;
      if e == KernelError(StaleTarget) {
        answer, end := Abandon(CommitFailedNoEffect, e, turns, t, from);
      } else {
        LeadsTo(record.state, record.intended);
        answer := GiveUp(CommitOutcomeUnknown, e, turns, t, from);
        end := t + 1;
      }
    }

    /** `_commit`, from the returned receipt on. */
    method Confirm(receipt: EffectReceipt, turns: nat -> Turn, t: nat, ghost from: Origin)
      returns (answer: Answer, end: nat)
      requires Valid() && Underway(turns, t, from)
      requires point == AtReceipt(receipt) && record.state != Committed
      modifies this, cluster, cluster.journal, cluster.adapter, cluster.adapter.target
      ensures Valid() && Underway(turns, end, from) && point == AtRest && plan == old(plan)
      ensures Remembers()
      ensures answer.Returned? ==> answer.record == record && record.state == Committed
      ensures answer.Raised? ==> record.state != Committed
      ensures answer.Returned? ==> end >= 2 && turns(end - 2).env.fault == None && turns(end - 2).env.status == Pass
      ensures storage.AllWorked? ==>
                || record.state == Committed || record.state == InDoubt
                || (record.state == TransactionState.Failed && end >= 2
                    && answer == Raised(VerdictError(turns(end - 2).env)))
    {
      hide Valid, ApplyTransition, Underway;
      LeadsTo(record.state, record.intended);
      var failure := StoreReceipt(receipt, turns, t, from);
      if failure.Some? {
        answer := GiveUp(CommitOutcomeUnknown, failure.value, turns, t + 1, from);
        return answer, t + 2;
      }
      Holding();
      var fault, status := VerifyCommitted(turns, t + 1, from);
      if fault.Some? || status != Pass {
        answer := GiveUp(CommitPartialOrInvalid,
                         if fault.Some? then fault.value else KernelError(VerificationFailed),
                         turns, t + 2, from);
        return answer, t + 3;
      }
      var sent := Send(CommitVerified, ThenRest, turns, t + 2, from);
      if sent.Failure? {
        return Raised(KernelError(sent.error)), t + 3;
      }
      return Returned(record), t + 3;
    }

    /** `_abort_precommit`. */
    method AbortPrecommit(event: TransitionEvent, turns: nat -> Turn, t: nat, ghost from: Origin)
      returns (answer: Answer, end: nat)
      requires Valid() && Underway(turns, t, from) && point == Protocol.AbortPrecommit(Me(), event)
      modifies this, cluster, cluster.journal, cluster.adapter, cluster.adapter.target
      ensures Valid() && Underway(turns, end, from)
      ensures Remembers()
      ensures point == AtRest && plan == old(plan) && operation == old(operation)
      ensures answer.Returned? ==> answer.record == record
      ensures IsTerminal(old(record.state)) && old(record.state) != Committed ==>
                answer == Returned(old(record)) && record == old(record) && end == t
      ensures old(record.state) == Committed || (!IsTerminal(old(record.state)) && !PreCommit(old(record.state))) ==>
                answer == Raised(KernelError(IllegalTransition)) && record == old(record) && end == t
      ensures PreCommit(old(record.state)) && Smooth() ==>
                answer.Returned? && (record.state == EndOf(event) || record.state == RecoveryFailed)
    {
      hide Valid, ApplyTransition, Underway;
      if IsTerminal(record.state) && record.state != Committed {
        return Returned(record), t;
      }
      if !PreCommit(record.state) {
        return Raised(KernelError(IllegalTransition)), t;
      }
      ghost var before := record;
      var sent := Send(event, ThenDiscard, turns, t, from);
      if sent.Failure? {
        return Raised(KernelError(sent.error)), t + 1;
      }
      Holding();
      AbortIntends(before.state, event, before.intended);
      var fault;
      fault, end := CompleteAbort(turns, t + 1, from);
      answer := if fault.Some? then Raised(fault.value) else Returned(record);
    }

    /** `cancel`. */
    method Cancel(turns: nat -> Turn) returns (answer: Answer, end: nat)
      requires Valid() && AllFair(turns, id) && point == AtRest && plan.Some?
      modifies this, cluster, cluster.journal, cluster.adapter, cluster.adapter.target
      ensures Valid() && point == AtRest && plan == old(plan)
      ensures Underway(turns, end, Opened(old(cluster.history), id, Cancelling, turns))
      ensures answer.Returned? ==> answer.record == record
      ensures old(record.state) == Committed ==> answer == Raised(KernelError(IllegalTransition))
      ensures PreCommit(old(record.state)) && Smooth() ==>
                answer.Returned? && (record.state == Aborted || record.state == RecoveryFailed)
    {
      hide Valid, Fair, Protocol.AbortPrecommit, Underway, Opened, AllFair;
      ghost var from := Begin(Cancelling, turns);
      SamePrecommit(Me(), old(Me()), Cancelled);
      answer, end := AbortPrecommit(Cancelled, turns, 1, from);
    }

    /** `_enforce_deadline`. */
    method EnforceDeadline(turns: nat -> Turn) returns (answer: Answer, end: nat)
      requires Valid() && AllFair(turns, id) && point == AtRest && plan.Some?
      modifies this, cluster, cluster.journal, cluster.adapter, cluster.adapter.target
      ensures Valid() && point == AtRest && plan == old(plan)
      ensures Underway(turns, end, Opened(old(cluster.history), id, EnforcingDeadline, turns))
      ensures answer.Returned? ==> answer.record == record
      ensures IsTerminal(old(record.state)) || turns(0).env.guard != DeadlineElapsed ==>
                answer == Returned(old(record)) && record == old(record)
      ensures PreCommit(old(record.state)) && turns(0).env.guard == DeadlineElapsed && Smooth() ==>
                && answer.Returned?
                && if old(record.state) == New then record.state == Rejected
                   else record.state == Aborted || record.state == RecoveryFailed
    {
      hide Valid, Fair, Protocol.AbortPrecommit, ApplyTransition, Underway, Opened, AllFair;
      ghost var from := Begin(EnforcingDeadline, turns);
      if IsTerminal(record.state) || turns(0).env.guard != DeadlineElapsed {
        return Returned(record), 1;
      }
      if record.state == New {
        LeadsToRejected(record.state, record.intended);
        var sent := Send(ValidationFailed, ThenRest, turns, 1, from);
        return if sent.Failure? then Raised(KernelError(sent.error)) else Returned(record), 2;
      }
      SamePrecommit(Me(), old(Me()), DeadlinePassed);
      answer, end := AbortPrecommit(DeadlinePassed, turns, 1, from);
    }

    /** `_exit`: with storage that worked, what it leaves is closed. */
    method Exit(turns: nat -> Turn) returns (fault: Option<Exception>, end: nat)
      requires Valid() && AllFair(turns, id) && point == AtRest && plan.Some?
      modifies this, cluster, cluster.journal, cluster.adapter, cluster.adapter.target
      ensures Valid() && point == AtRest && plan == old(plan)
      ensures Underway(turns, end, Opened(old(cluster.history), id, Exiting, turns))
      ensures storage == AllWorked ==>
                && (IsTerminal(record.state) || record.state in {InDoubt, TransactionState.Failed, Aborting})
                && (record.state == Aborting ==> abortRaised)
      ensures old(record.state) == Aborting && fault == None ==>
                && old(record.intended).Some?
                && record.state == if Discards(turns(1).env) then OutcomeState(old(record.intended).value)
                                   else RecoveryFailed
    {
      hide Valid, Underway, Opened, AllFair;
      fault, end := Leave(turns);
      if storage == AllWorked {
        Closed();
      }
    }

    method Leave(turns: nat -> Turn) returns (fault: Option<Exception>, end: nat)
      requires Valid() && AllFair(turns, id) && point == AtRest && plan.Some?
      modifies this, cluster, cluster.journal, cluster.adapter, cluster.adapter.target
      ensures Valid() && point == AtRest && plan == old(plan) && operation == Exiting
      ensures Underway(turns, end, Opened(old(cluster.history), id, Exiting, turns))
      ensures old(record.state) == Aborting && fault == None ==>
                && old(record.intended).Some?
                && record.state == if Discards(turns(1).env) then OutcomeState(old(record.intended).value)
                                   else RecoveryFailed
    {
      hide Valid, Fair, Protocol.AbortPrecommit, Underway, Opened, AllFair;
      ghost var from := Begin(Exiting, turns);
      if IsTerminal(record.state) {
        return None, 1;
      }
      if PreCommit(record.state) {
        SamePrecommit(Me(), old(Me()), ContextExited);
        var answer;
        answer, end := AbortPrecommit(ContextExited, turns, 1, from);
        return if answer.Raised? then Some(answer.exception) else None, end;
      }
      fault, end := CompleteAbort(turns, 1, from);
    }

    /** What an operation that has finished leaves. */
    lemma Closed()
      requires Valid() && point == AtRest && storage == AllWorked
      ensures IsTerminal(record.state)
              || record.state in {InDoubt, TransactionState.Failed, Aborting, New, ReadyToCommit}
      ensures record.state == Aborting ==> abortRaised
      ensures operation == Exiting && record.state in {New, ReadyToCommit} ==> IsTerminal(record.state)
    {
      hide Reach, Inv, LocalOk, LawfulRun, Initial;
      Known();
      OwnState(cluster.Contents(), id, cluster.initial, cluster.first);
      Runs.SessionsClose(cluster.hash, cluster.initial, cluster.first, cluster.history, id);
    }

    // ----- admission --------------------------------------------------------------------------

    /** The checks before `inspect`. */
    method PassAdmission(turns: nat -> Turn, t: nat, ghost from: Origin) returns (fault: Option<Exception>)
      requires Valid() && Underway(turns, t, from) && point == AtAdmission
      modifies this, cluster, cluster.journal, cluster.adapter, cluster.adapter.target
      ensures Valid() && Underway(turns, t + 1, from)
      ensures Me() == old(Me()).(point := if fault.Some? then Refuse(fault.value) else AtInspect)
      ensures fault == turns(t).env.fault
    {
      hide Underway, Midway, Refuse, Inv, LocalOk, Step, Ready, Valid, Cluster.Valid;
      ghost var before := Wait(turns, t, from);
      AdmissionStep(cluster.hash, before, id, turns(t).env);
      fault := turns(t).env.fault;
      point := if fault.Some? then Refuse(fault.value) else AtInspect;
      Finish(before, turns, t, from);
    }

    method InspectTarget(turns: nat -> Turn, t: nat, ghost from: Origin)
      returns (fault: Option<Exception>, found: M.EffectPlan)
      requires Valid() && Underway(turns, t, from) && point == AtInspect
      modifies this, cluster, cluster.journal, cluster.adapter, cluster.adapter.target
      ensures Valid() && Underway(turns, t + 1, from)
      ensures Me() == old(Me()).(point := if fault.Some? then Refuse(fault.value) else AtBind(found))
      ensures fault == turns(t).env.fault
    {
      hide Underway, Midway, Refuse, Inv, LocalOk, Step, Ready, Valid, Cluster.Valid;
      ghost var before := Wait(turns, t, from);
      InspectStep(cluster.hash, before, id, turns(t).env);
      fault := turns(t).env.fault;
      found := cluster.adapter.DoInspect(proposal);
      point := if fault.Some? then Refuse(fault.value) else AtBind(found);
      Finish(before, turns, t, from);
    }

    method BindIntent(found: M.EffectPlan, turns: nat -> Turn, t: nat, ghost from: Origin)
      returns (r: Result<TransactionRecord>)
      requires Valid() && Underway(turns, t, from) && point == AtBind(found)
      modifies this, cluster, cluster.journal, cluster.adapter, cluster.adapter.target
      ensures Valid() && Underway(turns, t + 1, from) && Me() == Bound(old(Me()), found, r)
      ensures r.Failure? ==> !storage.AllWorked?
      ensures r.Success? ==> record.state == New
    {
      hide Underway, Midway, SetTransactionIntent, Inv, LocalOk, Step, Ready, Valid, Cluster.Valid;
      ghost var before := Wait(turns, t, from);
      BindStep(cluster.hash, before, id, found, turns(t).env);
      BoundIsNew(before.tables, id, found.intentHash);
      r := Failure(StorageError);
      if turns(t).env.storageUp {
        r := cluster.journal.SetIntent(id, found.intentHash);
      }
      TakeBinding(found, r);
      hide Bound;
      Finish(before, turns, t, from);
    }

    method TakeBinding(found: M.EffectPlan, r: Result<TransactionRecord>)
      modifies this
      ensures Me() == Bound(old(Me()), found, r)
      ensures r.Failure? ==> !storage.AllWorked?
      ensures r.Success? ==> record == r.value
    {
      if r.Failure? {
        point, storage := AtSend(ValidationFailed, ThenRest), AfterFailure(Me());
      } else {
        plan, record, point := Some(found), r.value, AtRest;
      }
    }

    /** `transaction`, once the row exists: the checks, `inspect` and the binding of the intent. */
    method PlanEffect(turns: nat -> Turn, ghost from: Origin) returns (answer: Answer, end: nat)
      requires Valid() && Underway(turns, 0, from) && point == AtAdmission
      modifies this, cluster, cluster.journal, cluster.adapter, cluster.adapter.target
      ensures Valid() && Underway(turns, end, from) && point == AtRest
      ensures answer.Returned? ==> plan.Some? && answer.record == record && record.state == New
      ensures storage.AllWorked? ==>
                var fault := if turns(0).env.fault.Some? then turns(0).env.fault else turns(1).env.fault;
                && (answer.Returned? <==> fault == None)
                && (fault.Some? ==>
                      && answer == Raised(fault.value)
                      && record.state == if fault.value == CancelledError then Aborted else Rejected)
    {
      hide Valid, Underway, ApplyTransition, Refuse, AfterFailure;
      var fault := PassAdmission(turns, 0, from);
      if fault.Some? {
        answer, end := RefuseAdmission(fault.value, turns, 1, from);
        return;
      }
      var raised, found := InspectTarget(turns, 1, from);
      if raised.Some? {
        answer, end := RefuseAdmission(raised.value, turns, 2, from);
        return;
      }
      var bound := BindIntent(found, turns, 2, from);
      if bound.Failure? {
        answer := GiveUp(ValidationFailed, KernelError(bound.error), turns, 3, from);
        return answer, 4;
      }
      return Returned(record), 3;
    }

    /** The two ways in which `transaction` gives up before a session is handed out. */
    method RefuseAdmission(e: Exception, turns: nat -> Turn, t: nat, ghost from: Origin)
      returns (answer: Answer, end: nat)
      requires Valid() && Underway(turns, t, from) && point == Refuse(e)
      modifies this, cluster, cluster.journal, cluster.adapter, cluster.adapter.target
      ensures Valid() && Underway(turns, end, from) && point == AtRest && answer.Raised?
      ensures Remembers()
      ensures storage.AllWorked? ==>
                answer == Raised(e) && record.state == if e == CancelledError then Aborted else Rejected
    {
      hide Valid, Underway, ApplyTransition;
      if e == CancelledError {
        AbortIntends(record.state, Cancelled, record.intended);
        var sent := Send(Cancelled, ThenFinishAbort, turns, t, from);
        if sent.Failure? {
          return Raised(KernelError(sent.error)), t + 1;
        }
        AbortEnds(record.state, record.intended);
        answer := GiveUp(StagingDiscardSucceeded, e, turns, t + 1, from);
        end := t + 2;
      } else {
        LeadsToRejected(record.state, record.intended);
        answer := GiveUp(ValidationFailed, e, turns, t, from);
        end := t + 1;
      }
    }
  }

  class TransactionCoordinator {
    const cluster: Cluster

    constructor (cluster: Cluster)
      ensures this.cluster == cluster
    {
      this.cluster := cluster;
    }

    /** `create_transaction`: the session exists for the machine from here on. */
    method Admit(proposal: M.Proposal, env: Env) returns (session: TransactionSession?)
      requires cluster.Valid()
      modifies cluster, cluster.journal
      ensures cluster.Valid() && cluster.history == old(cluster.history) + [Action.Admit(proposal, env)]
      ensures session != null ==>
                && fresh(session) && session.cluster == cluster && session.id == proposal.transactionId
                && session.Valid() && session.point == AtAdmission && session.record.state == New
    {
      hide CreateTransaction, Reach, Initial;
      ghost var before := cluster.Contents();
      OneStep(cluster.hash, Initial(cluster.initial, cluster.first), cluster.history,
              Action.Admit(proposal, env));
      AdmitStep(cluster.hash, before, proposal, env);
      var record := NewRecord(proposal.transactionId, proposal.goalId, env.stamp.now);
      var created: Result<EventEnvelope> := Failure(StorageError);
      if env.storageUp {
        created := cluster.journal.Create(record, env.stamp);
      }
      cluster.history := cluster.history + [Action.Admit(proposal, env)];
      if created.Failure? {
        return null;
      }
      session := new TransactionSession(cluster, proposal, record);
      cluster.sessions := cluster.sessions[session.id := session.Me()];
    }

    /** `transaction`. */
    method Transaction(proposal: M.Proposal, env: Env, turns: nat -> Turn)
      returns (session: TransactionSession?, answer: Answer, end: nat)
      requires cluster.Valid() && AllFair(turns, proposal.transactionId)
      modifies cluster, cluster.journal, cluster.adapter, cluster.adapter.target
      ensures cluster.Valid()
      ensures session == null ==>
                answer.Raised? && cluster.history == old(cluster.history) + [Action.Admit(proposal, env)]
      ensures session != null ==>
                && fresh(session) && session.cluster == cluster && session.id == proposal.transactionId
                && session.Valid() && session.point == AtRest
                && session.Underway(turns, end, Origin(old(cluster.history) + [Action.Admit(proposal, env)], 0))
      ensures answer.Returned? ==>
                && session != null && session.plan.Some?
                && answer.record == session.record && session.record.state == New
      ensures session != null && session.storage.AllWorked? ==>
                var fault := if turns(0).env.fault.Some? then turns(0).env.fault else turns(1).env.fault;
                && (answer.Returned? <==> fault == None)
                && (fault.Some? ==>
                      && answer == Raised(fault.value)
                      && session.record.state == if fault.value == CancelledError then Aborted else Rejected)
    {
      hide Cluster.Valid, Fair, ApplyTransition, AllFair, Refuse;
      ghost var from := Origin(cluster.history + [Action.Admit(proposal, env)], 0);
      session := Admit(proposal, env);
      if session == null {
        return null, Raised(KernelError(StorageError)), 0;
      }
      assert cluster.history == from.start + Steps(session.id, turns, 0, 0);
      hide TransactionSession.Underway, TransactionSession.Valid;
      answer, end := session.PlanEffect(turns, from);
      ValidParts(session);
    }
  }

  lemma ValidParts(session: TransactionSession)
    requires session.Valid()
    ensures session.cluster.Valid()
  {
    hide Cluster.Valid;
  }

  /** The events that end an operation well. */
  predicate Completes(e: TransitionEvent) {
    e.CommitVerified? || e.ReconciliationCommitted? || e.NoApprovalRequired? || e.ApprovalGranted?
  }

  predicate NoNewSuccess(before: TransactionState, after: TransactionState) {
    && (after == Committed ==> before == Committed)
    && (after == ReadyToCommit ==> before == ReadyToCommit)
  }

  lemma OnlyCompletionSucceeds(s: TransactionState, e: TransitionEvent, o: Option<IntendedOutcome>)
    requires !Completes(e) && ApplyTransition(s, e, o).Success?
    ensures NoNewSuccess(s, ApplyTransition(s, e, o).value.target)
  {
    OtherRows(e);
    hide RowOf;
  }

  lemma OtherRows(e: TransitionEvent)
    requires !Completes(e)
    ensures IsStop(e) ==> RowOf(e).rule.ToAborting?
    ensures RowOf(e).rule.To? ==>
              RowOf(e).rule.target != Committed && RowOf(e).rule.target != ReadyToCommit
  {}

  lemma AbortsOnly(e: Exception, otherwise: TransitionEvent)
    requires !Completes(otherwise)
    ensures !Completes(EventFor(e, otherwise))
  {}

  lemma GuardsOnly(g: Guard)
    ensures !Completes(GuardEvent(g)) && EndOf(GuardEvent(g)) == Aborted
  {}

  lemma RelinkedIsNew(t: Tables, id: string, previous: string)
    ensures var r := LinkSupersession(t, id, previous).0;
            r.Success? ==> r.value.state == New
  {}

  lemma HeldAt(me: Session, id: string)
    requires LocalOk(me, id)
    ensures me.point.AtDiscard? ==> me.record.state == Aborting && me.plan.Some?
    ensures (me.point.AtStage? || me.point.AtVerifyStaged? || me.point.AtReinspect?
             || me.point.AtVerifyCommitted?) ==> me.plan.Some?
    ensures me.point.AtExecute? ==> me.plan.Some? && me.effect.Some?
    ensures me.point.AtCommit? ==> me.plan.Some? && me.staged.Some?
    ensures me.record.state == ReadyToCommit ==> me.staged.Some?
    ensures me.record.state == Aborting ==> me.record.intended.Some?
  {
    hide SendOk;
  }

  function FailureOf(r: Result<TransactionRecord>): Option<Exception> {
    if r.Failure? then Some(KernelError(r.error)) else None
  }

  /** What `commit` raises for a verdict that is not PASS. */
  function VerdictError(env: Env): Exception {
    if env.fault.Some? then env.fault.value else KernelError(VerificationFailed)
  }

  /** How an operation ends that leaves `record` and meets an error or none. */
  function AnswerOf(error: Option<Exception>, record: TransactionRecord): Answer {
    if error.Some? then Raised(error.value) else Returned(record)
  }

  /** What `verify_staged` stops the entry with. */
  function StageCheckError(env: Env): Option<Exception> {
    if env.fault.Some? then env.fault else if env.status != Pass then Some(StatusError(env.status)) else None
  }

  /** What stops the entry from `adapter.stage` on: steps `t` and `t + 1` stage and execute, step `t + 3`
      verifies the stage. */
  function StagingError(turns: nat -> Turn, t: nat): Option<Exception> {
    if turns(t).env.fault.Some? then turns(t).env.fault
    else if turns(t + 1).env.fault.Some? then turns(t + 1).env.fault
    else StageCheckError(turns(t + 3).env)
  }

  function GuardError(g: Guard): Exception {
    KernelError(if g == DeadlineElapsed then DeadlineExceeded else IntegrityError)
  }

  function StatusError(status: VerificationStatus): Exception {
    KernelError(if status == Unknown then VerificationUnknown else VerificationFailed)
  }

  /** What an abort with this event ends in. */
  function EndOf(event: TransitionEvent): TransactionState {
    if event == TargetVersionChanged then StaleState else Aborted
  }

  lemma AbortIntends(s: TransactionState, e: TransitionEvent, o: Option<IntendedOutcome>)
    ensures var d := ApplyTransition(s, e, o);
            d.Success? && d.value.target == Aborting ==>
              d.value.intended.Some? && OutcomeState(d.value.intended.value) == EndOf(e)
  {
    AbortingRows(e);
    StopRows(e);
    hide RowOf;
  }

  lemma AbortingRows(e: TransitionEvent)
    ensures RowOf(e).rule.ToAborting? ==> OutcomeState(RowOf(e).rule.outcome) == EndOf(e)
    ensures RowOf(e).rule.To? ==> RowOf(e).rule.target != Aborting
    ensures RowOf(e).rule.Complete? ==> RowOf(e).source == Aborting
  {}

  lemma AbortEnds(s: TransactionState, o: Option<IntendedOutcome>)
    ensures var d := ApplyTransition(s, StagingDiscardSucceeded, o);
            d.Success? ==> s == Aborting && o.Some? && d.value.target == OutcomeState(o.value)
    ensures var d := ApplyTransition(s, StagingDiscardFailed, o);
            d.Success? ==> d.value.target == RecoveryFailed
  {}

  /** The transitions that end an operation lead to one state each. */
  lemma LeadsTo(s: TransactionState, o: Option<IntendedOutcome>)
    ensures var d := ApplyTransition(s, NoApprovalRequired, o);
            d.Success? ==> d.value.target == ReadyToCommit
    ensures var d := ApplyTransition(s, CommitVerified, o);
            d.Success? ==> d.value.target == Committed
    ensures var d := ApplyTransition(s, CommitPartialOrInvalid, o);
            d.Success? ==> d.value.target == TransactionState.Failed
    ensures var d := ApplyTransition(s, CommitOutcomeUnknown, o);
            d.Success? ==> d.value.target == InDoubt
  {}

  lemma LeadsToRejected(s: TransactionState, o: Option<IntendedOutcome>)
    ensures var d := ApplyTransition(s, ValidationFailed, o);
            d.Success? ==> d.value.target == Rejected
  {}

  lemma SamePrecommit(me: Session, before: Session, event: TransitionEvent)
    requires me.record == before.record
    ensures Protocol.AbortPrecommit(me, event) == Protocol.AbortPrecommit(before, event)
  {}

  lemma BoundIsNew(t: Tables, id: string, intentHash: string)
    ensures var r := SetTransactionIntent(t, id, intentHash).0;
            r.Success? ==> r.value.state == New
  {}

  lemma OwnState(s: System, id: string, initial: M.Values, first: nat)
    requires Inv(s, initial, first) && id in s.sessions
    ensures id in s.tables.transactions
    ensures s.tables.transactions[id].state == s.sessions[id].record.state
  {
    hide Inv, LocalOk, OwnerOk, CopyOk, ClosedOk, EffectOk;
    Parts(s, id, initial, first);
    hide RowOk;
    Runs.RowState(s, id, initial, first);
  }

  /** A transition that the journal accepts is one of the table, from the state the session knows. */
  lemma SentRecord(hash: EventHash, s: System, id: string, event: TransitionEvent, env: Env,
                   initial: M.Values, first: nat)
    requires Inv(s, initial, first) && id in s.sessions
    ensures var me := s.sessions[id];
            var r := Transition(hash, s.tables, id, me.record.version, event, env.stamp, env.reason).0;
            r.Success? ==> ApplyTransition(me.record.state, event, me.record.intended) ==
                           Success(TransitionDecision(r.value.state, r.value.intended))
  {
    hide Inv, ApplyTransition, NextEvent, Insertable;
    OwnRow(s, id, initial, first);
  }

  lemma OwnRow(s: System, id: string, initial: M.Values, first: nat)
    requires Inv(s, initial, first) && id in s.sessions
    ensures id in s.tables.transactions
    ensures s.tables.transactions[id].record == s.sessions[id].record
  {
    hide Inv, LocalOk, OwnerOk, CopyOk, ClosedOk, EffectOk;
    Parts(s, id, initial, first);
    hide RowOk;
    Runs.RowState(s, id, initial, first);
  }
}
