/** One step of a session in closed form: what the journal or the adapter answers, and where the answer
    leaves the session. */
module ProtocolMoves {
  import opened Wrappers
  import opened StateMachine
  import opened Ledger
  import opened Domain
  import opened Journal
  import opened Protocol
  import opened ProtocolLocal

  /** The history of grants and of writes, kept beside the state. */
  function Granted(s: System, r: Result<IntentReservation>, intent: string, id: string): System {
    if r.Success? && r.value.transactionId == id && r.value.created then
      s.(grants := s.grants[intent := (if intent in s.grants then s.grants[intent] else []) + [id]])
    else s
  }

  function Written(s: System, mock: M.Adapter, id: string, plan: M.EffectPlan): System {
    if mock.version == s.mock.version then s.(mock := mock)
    else s.(mock := mock, writes := s.writes + [Effect(id, plan.intentHash, plan.values)])
  }

  /** Where a transition leaves a session. */
  function Sent(me: Session, r: Result<TransactionRecord>, next: Next): Session {
    if r.Failure? then Stop(me) else me.(record := r.value, point := Resume(next))
  }

  function Relinked(me: Session, r: Result<TransactionRecord>): Session {
    if r.Failure? then Stop(me)
    else me.(record := r.value, point := AtSend(ProposalValid, ThenAuthorize))
  }

  /** Where a reservation leaves a session. */
  function Reserved(me: Session, r: Result<IntentReservation>, id: string): Session {
    if r.Failure? then Stop(me)
    else if r.value.transactionId != id then me.(point := AtSend(ValidationFailed, ThenRest))
    else if r.value.previous.Some? then me.(point := AtLink(r.value.previous.value))
    else me.(point := AtSend(ProposalValid, ThenAuthorize))
  }

  /** What a session hears of an `adapter.commit`. */
  datatype Reply = Fault(exception: Exception) | Receipt(receipt: EffectReceipt)

  function Heard(r: Result<EffectReceipt>, lost: Option<Exception>): Reply {
    if r.Failure? then Fault(KernelError(r.error))
    else if lost.Some? then Fault(lost.value)
    else Receipt(r.value)
  }

  /** Where binding the inspected intent leaves a session. */
  function Bound(me: Session, found: M.EffectPlan, r: Result<TransactionRecord>): Session {
    if r.Failure? then me.(point := AtSend(ValidationFailed, ThenRest), storage := AfterFailure(me))
    else me.(plan := Some(found), record := r.value, point := AtRest)
  }

  /** The action is one of this session. */
  predicate Acts(a: Action, id: string) {
    match a
    case Admit(p, _) => p.transactionId == id
    case Start(who, _, _) => who == id
    case Advance(who, _) => who == id
    case OutsideWrite(_) => false
  }

  // ----- the steps ----------------------------------------------------------------------------

  lemma AdmissionStep(hash: EventHash, s: System, id: string, env: Env)
    requires id in s.sessions && s.sessions[id].point == AtAdmission
    ensures Step(hash, s, Action.Advance(id, env)) ==
            With(s, id, s.sessions[id].(point :=
              if env.fault.Some? then Refuse(env.fault.value) else AtInspect))
  {
    hide Refuse;
  }

  lemma InspectStep(hash: EventHash, s: System, id: string, env: Env)
    requires id in s.sessions && s.sessions[id].point == AtInspect
    ensures Step(hash, s, Action.Advance(id, env)) ==
            With(s, id, s.sessions[id].(point :=
              if env.fault.Some? then Refuse(env.fault.value)
              else AtBind(M.Inspect(s.mock, s.sessions[id].proposal))))
  {
    hide Refuse;
  }

  lemma BindStep(hash: EventHash, s: System, id: string, found: M.EffectPlan, env: Env)
    requires id in s.sessions && s.sessions[id].point == AtBind(found)
    ensures var out := if env.storageUp then SetTransactionIntent(s.tables, id, found.intentHash)
                       else (Failure(StorageError), s.tables);
            Step(hash, s, Action.Advance(id, env)) ==
            With(s.(tables := out.1), id, Bound(s.sessions[id], found, out.0))
  {}

  lemma AdmitStep(hash: EventHash, s: System, p: M.Proposal, env: Env)
    ensures var record := NewRecord(p.transactionId, p.goalId, env.stamp.now);
            var out := if env.storageUp then CreateTransaction(hash, s.tables, record, env.stamp)
                       else (Failure(StorageError), s.tables);
            Step(hash, s, Action.Admit(p, env)) ==
            if out.0.Failure? then s.(tables := out.1)
            else With(s.(tables := out.1), p.transactionId,
                      Session(p, None, record, None, None, false, AtAdmission, Opening,
                              false, false, AllWorked))
  {
    hide NextEvent, Insertable;
  }

  lemma SendStep(hash: EventHash, s: System, id: string, event: TransitionEvent, next: Next, env: Env)
    requires id in s.sessions && s.sessions[id].point == AtSend(event, next)
    ensures var me := s.sessions[id];
            var out := if env.storageUp
                       then Transition(hash, s.tables, id, me.record.version, event, env.stamp, env.reason)
                       else (Failure(StorageError), s.tables);
            Step(hash, s, Action.Advance(id, env)) ==
            With(s.(tables := out.1), id,
                 Sent(me, out.0, next))
  {
    hide NextEvent, Insertable, ApplyTransition, Resume;
  }

  lemma ReserveStep(hash: EventHash, s: System, id: string, env: Env)
    requires id in s.sessions && s.sessions[id].point == AtReserve && s.sessions[id].plan.Some?
    ensures var me := s.sessions[id];
            var intent := me.plan.value.intentHash;
            var out := if env.storageUp then ReserveIntent(s.tables, intent, id)
                       else (Failure(StorageError), s.tables);
            Step(hash, s, Action.Advance(id, env)) ==
            With(Granted(s.(tables := out.1), out.0, intent, id), id,
                 Reserved(me, out.0, id))
  {
    hide Replaceable;
  }

  lemma LinkStep(hash: EventHash, s: System, id: string, previous: string, env: Env)
    requires id in s.sessions && s.sessions[id].point == AtLink(previous)
    ensures var me := s.sessions[id];
            var out := if env.storageUp then LinkSupersession(s.tables, id, previous)
                       else (Failure(StorageError), s.tables);
            Step(hash, s, Action.Advance(id, env)) ==
            With(s.(tables := out.1), id,
                 Relinked(me, out.0))
  {}

  lemma ReceiptStep(hash: EventHash, s: System, id: string, receipt: EffectReceipt, env: Env)
    requires id in s.sessions && s.sessions[id].point == AtReceipt(receipt)
    ensures var out := if env.storageUp then AppendReceipt(s.tables, receipt)
                       else (Failure(StorageError), s.tables);
            Step(hash, s, Action.Advance(id, env)) ==
            With(s.(tables := out.1), id, s.sessions[id].(point :=
              if out.0.Failure? then AtSend(CommitOutcomeUnknown, ThenRest) else AtVerifyCommitted))
  {}

  lemma CommitStep(hash: EventHash, s: System, id: string, env: Env)
    requires id in s.sessions && s.sessions[id].point == AtCommit
    requires s.sessions[id].plan.Some? && s.sessions[id].staged.Some?
    ensures var me := s.sessions[id];
            var plan := me.plan.value;
            var out := M.Commit(s.mock, me.staged.value, plan.baseVersion, env.freshId, env.stamp.now);
            Step(hash, s, Action.Advance(id, env)) ==
            if env.fault.Some? && !env.late then With(s, id, me.(point := CommitFault(env.fault.value)))
            else
              var r := Heard(out.0, env.fault);
              With(Written(s, out.1, id, plan), id,
                   me.(point := if r.Fault? then CommitFault(r.exception) else AtReceipt(r.receipt)))
  {
    hide CommitFault;
  }

  lemma ConverseStep(hash: EventHash, s: System, id: string, env: Env)
    requires id in s.sessions && Conversing(s.sessions[id].point) && s.sessions[id].plan.Some?
    ensures var out := Converse(s.sessions[id], s.sessions[id].plan.value, s.mock, env);
            Step(hash, s, Action.Advance(id, env)) == With(s.(mock := out.1), id, out.0)
  {
    hide Converse;
  }

  /** The others leave a session alone. */
  lemma OtherStep(hash: EventHash, s: System, a: Action, id: string)
    requires id in s.sessions && !Acts(a, id)
    ensures var s' := Step(hash, s, a);
            id in s'.sessions && s'.sessions[id] == s.sessions[id]
  {
    hide NextEvent, Insertable, ApplyTransition, Converse, M.Commit, M.Inspect, Replaceable,
         CommitFault, Refuse, Resume, Open, Transition, CreateTransaction;
  }
}
