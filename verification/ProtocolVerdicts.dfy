/** What decided each outcome: the reports of the adapter and the storage behind every durable state. */
module ProtocolVerdicts {
  import opened Wrappers
  import opened StateMachine
  import opened Outcomes
  import opened Ledger
  import opened Journal
  import opened Protocol
  import opened ProtocolLocal
  import opened ProtocolSync
  import opened ProtocolOwners
  import opened ProtocolEffects
  import opened ProtocolSerial
  import opened ProtocolClosing
  import opened ProtocolSteps
  import opened ProtocolMoves
  import opened ProtocolCauses
  import Runs = ProtocolRuns

  // ----- one step --------------------------------------------------------------------------------

  /** A step calls for an event exactly if it puts that event before the session. */
  lemma StepCalls(hash: EventHash, s: System, a: Action, id: string, event: TransitionEvent,
                  state: M.Values, version: nat)
    requires Inv(s, state, version) && Lawful(a)
    ensures Calls(hash, s, a, id, event) <==> Sets(hash, s, a, id, event)
  {
    hide Inv, Step, Calls, LocalOk, Lawful, Sets;
    if id in s.sessions {
      Parts(s, id, state, version);
      hide RowOk, ClosedOk, CopyOk, OwnerOk, EffectOk;
      if a.Start? && a.id == id {
        StartCalls(hash, s, id, a.op, a.env, event);
      } else if a.Advance? && a.id == id {
        AdvanceCalls(hash, s, id, a.env, event, state, version);
      } else {
        OthersCallNothing(hash, s, a, id, event);
        OthersKeepPoint(hash, s, a, id, state, version);
        StaysUnset(hash, s, a, id, event);
      }
    } else {
      OthersCallNothing(hash, s, a, id, event);
      StrangersSetNothing(hash, s, a, id, event);
    }
  }

  lemma OthersCallNothing(hash: EventHash, s: System, a: Action, id: string, event: TransitionEvent)
    requires id in s.sessions ==> !(a.Start? && a.id == id) && !(a.Advance? && a.id == id)
    ensures !Calls(hash, s, a, id, event)
  {
    hide Step;
  }

  lemma OthersKeepPoint(hash: EventHash, s: System, a: Action, id: string, state: M.Values, version: nat)
    requires Inv(s, state, version) && id in s.sessions
    requires !(a.Start? && a.id == id) && !(a.Advance? && a.id == id)
    ensures id in Step(hash, s, a).sessions && Step(hash, s, a).sessions[id] == s.sessions[id]
  {
    if a.Admit? && a.proposal.transactionId == id {
      InvIsSynced(s, state, version);
      hide Inv, LocalOk, RowOk;
    } else {
      OtherStep(hash, s, a, id);
    }
  }

  lemma StrangersSetNothing(hash: EventHash, s: System, a: Action, id: string, event: TransitionEvent)
    requires id !in s.sessions
    ensures !Sets(hash, s, a, id, event)
  {
    hide NextEvent, Insertable, ApplyTransition, Converse, M.Commit, M.Inspect, Replaceable, CommitFault, Refuse,
         Resume, Open, Transition, CreateTransaction;
  }

  lemma StepFollows(hash: EventHash, s: System, a: Action, id: string, state: M.Values, version: nat)
    requires Inv(s, state, version) && Lawful(a) && id in s.sessions
    ensures Follows(hash, s, a, id)
  {
    hide Inv, Step, LocalOk, Lawful, Follows;
    InvIsSynced(s, state, version);
    hide Synced;
    match a
    case Admit(p, env) => AdmitFollows(hash, s, p, env, id);
    case Start(other, op, env) =>
      Parts(s, id, state, version);
      StartFollows(hash, s, other, op, env, id);
    case Advance(other, env) =>
      if other == id {
        OwnFollows(hash, s, env, id, state, version);
      } else {
        OtherFollows(hash, s, other, env, id, state, version);
      }
    case OutsideWrite(_) => OutsideFollows(hash, s, a, id);
  }

  lemma OutsideFollows(hash: EventHash, s: System, a: Action, id: string)
    requires a.OutsideWrite? && id in s.sessions
    ensures Follows(hash, s, a, id)
  {
    hide J.Sent;
  }

  // ----- everything a session has met --------------------------------------------------------------

  /** Some step of a run called for the event. */
  ghost predicate CalledFor(hash: EventHash, init: System, actions: seq<Action>, id: string, e: TransitionEvent) {
    exists i :: 0 <= i < |actions| && Calls(hash, Reach(hash, init, actions[..i]), actions[i], id, e)
  }

  ghost function Met(hash: EventHash, init: System, actions: seq<Action>, id: string): iset<TransitionEvent> {
    iset e | CalledFor(hash, init, actions, id, e)
  }

  ghost function CalledIn(hash: EventHash, s: System, a: Action, id: string): iset<TransitionEvent> {
    iset e | Calls(hash, s, a, id, e)
  }

  lemma CalledSnoc(hash: EventHash, init: System, actions: seq<Action>, id: string, e: TransitionEvent)
    requires actions != []
    ensures var n := |actions| - 1;
            CalledFor(hash, init, actions, id, e) <==>
            || CalledFor(hash, init, actions[..n], id, e)
            || Calls(hash, Reach(hash, init, actions[..n]), actions[n], id, e)
  {
    hide Calls, Reach;
    var n := |actions| - 1;
    forall i | 0 <= i < n ensures actions[..n][..i] == actions[..i] && actions[..n][i] == actions[i] {}
    if CalledFor(hash, init, actions, id, e) {
      var i :| 0 <= i < |actions| && Calls(hash, Reach(hash, init, actions[..i]), actions[i], id, e);
      if i < n {
        assert Calls(hash, Reach(hash, init, actions[..n][..i]), actions[..n][i], id, e);
      }
    }
    if CalledFor(hash, init, actions[..n], id, e) {
      var i :| 0 <= i < n && Calls(hash, Reach(hash, init, actions[..n][..i]), actions[..n][i], id, e);
      assert Calls(hash, Reach(hash, init, actions[..i]), actions[i], id, e);
    }
  }

  lemma MetSnoc(hash: EventHash, init: System, actions: seq<Action>, id: string)
    requires actions != []
    ensures var n := |actions| - 1;
            Met(hash, init, actions, id) ==
            Met(hash, init, actions[..n], id) + CalledIn(hash, Reach(hash, init, actions[..n]), actions[n], id)
  {
    hide Calls, Reach, CalledFor;
    forall e { CalledSnoc(hash, init, actions, id, e); }
  }

  /** Nothing is sent that was not called for. */
  ghost predicate Sound(s: System, id: string, met: iset<TransitionEvent>) {
    && (forall e | e in J.Sent(s.tables.events, id) || Pending(s, id, e) :: e in met)
    && (forall e | e in met :: !Recovers(e) && !e.AuthorityOrPolicyDenied?)
    && (id !in s.sessions ==> met == iset{})
  }

  /** While storage works, everything called for is sent. */
  ghost predicate Complete(s: System, id: string, met: iset<TransitionEvent>) {
    id in s.sessions && s.sessions[id].storage.AllWorked? ==>
      forall e | e in met :: e in J.Sent(s.tables.events, id) || Pending(s, id, e)
  }

  /** The commit came to `e`, and the row does not say so yet. */
  predicate Unsent(s: System, id: string, e: TransitionEvent) {
    && id in s.sessions && s.sessions[id].record.state.Committing?
    && (Pending(s, id, e) || s.sessions[id].point.AtRest?)
  }

  /** A commit comes to one thing, and that is sent unless storage fails. */
  ghost predicate Answered(s: System, id: string, met: iset<TransitionEvent>) {
    && (forall e | e in met && IsAnswer(e) :: e in J.Sent(s.tables.events, id) || Unsent(s, id, e))
    && (forall e, f | e in met && f in met && IsAnswer(e) && IsAnswer(f) :: e == f)
  }

  /** What a step of the machine does, as far as one session can tell. */
  ghost predicate Moved(hash: EventHash, s: System, a: Action, id: string) {
    && id in s.sessions && Follows(hash, s, a, id)
    && forall e :: Calls(hash, s, a, id, e) <==> Sets(hash, s, a, id, e)
  }

  lemma SoundStep(hash: EventHash, s: System, a: Action, id: string, met: iset<TransitionEvent>)
    requires Moved(hash, s, a, id) && Sound(s, id, met)
    ensures Sound(Step(hash, s, a), id, met + CalledIn(hash, s, a, id))
  {
    hide Step, J.Sent, Calls;
    forall e | Calls(hash, s, a, id, e) ensures !Recovers(e) && !e.AuthorityOrPolicyDenied? {
      NobodyRecovers(hash, s, a, id, e);
    }
  }

  lemma NobodyRecovers(hash: EventHash, s: System, a: Action, id: string, e: TransitionEvent)
    requires Calls(hash, s, a, id, e)
    ensures !Recovers(e) && !e.AuthorityOrPolicyDenied?
  {
    hide Step;
  }

  lemma CompleteStep(hash: EventHash, s: System, a: Action, id: string, met: iset<TransitionEvent>)
    requires Moved(hash, s, a, id) && Complete(s, id, met)
    ensures Complete(Step(hash, s, a), id, met + CalledIn(hash, s, a, id))
  {
    hide Step, J.Sent, Calls;
  }

  lemma AnsweredStep(hash: EventHash, s: System, a: Action, id: string, met: iset<TransitionEvent>,
                     state: M.Values, version: nat)
    requires Inv(s, state, version) && Lawful(a) && J.LogInv(hash, s.tables)
    requires Moved(hash, s, a, id) && Sound(s, id, met) && Answered(s, id, met)
    ensures Answered(Step(hash, s, a), id, met + CalledIn(hash, s, a, id))
  {
    hide Step, J.Sent, Calls, Inv, J.LogInv, Lawful;
    forall e | Calls(hash, s, a, id, e) && IsAnswer(e)
      ensures Unsent(Step(hash, s, a), id, e)
      ensures forall f | f in met && IsAnswer(f) :: false
    {
      StepKeepsInv(hash, s, a, state, version);
      AnswersAreLate(Step(hash, s, a), id, e, state, version);
      CommitIsOpen(hash, s, a, id, e, met, state, version);
    }
  }

  lemma AnswersAreLate(s: System, id: string, e: TransitionEvent, state: M.Values, version: nat)
    requires Inv(s, state, version) && Pending(s, id, e) && IsAnswer(e)
    ensures s.sessions[id].record.state.Committing?
  {
    hide Inv;
    Parts(s, id, state, version);
    hide ClosedOk, CopyOk, OwnerOk, EffectOk, RowOk, SteadyOk;
  }

  /** A step that settles the commit finds it unsettled. */
  lemma CommitIsOpen(hash: EventHash, s: System, a: Action, id: string, e: TransitionEvent,
                     met: iset<TransitionEvent>, state: M.Values, version: nat)
    requires Inv(s, state, version) && J.LogInv(hash, s.tables) && id in s.sessions
    requires Sound(s, id, met) && Answered(s, id, met)
    requires Calls(hash, s, a, id, e) && IsAnswer(e)
    ensures forall f | f in met && IsAnswer(f) :: false
  {
    hide Inv, J.LogInv, J.Sent, Calls, LocalOk, Run, ClosedOk, CopyOk, OwnerOk, EffectOk, RowOk;
    AnswersSettle(hash, s, a, id, e);
    Parts(s, id, state, version);
    SettlingIsCommitting(s.sessions[id], id);
    StateIsTold(hash, s, id, state, version);
    forall f | f in met && IsAnswer(f) ensures false {
      AnswersLeaveCommitting(J.Sent(s.tables.events, id), f);
    }
  }

  lemma AnswersSettle(hash: EventHash, s: System, a: Action, id: string, e: TransitionEvent)
    requires Calls(hash, s, a, id, e) && IsAnswer(e)
    ensures id in s.sessions && Settling(s.sessions[id].point)
  {
    hide Step;
  }

  predicate Settling(p: Point) {
    p.AtCommit? || p.AtReceipt? || p.AtVerifyCommitted?
  }

  lemma SettlingIsCommitting(me: Session, id: string)
    requires LocalOk(me, id) && Settling(me.point)
    ensures me.record.state.Committing?
  {}

  /** The state of a session is where the transitions in its log lead. */
  lemma StateIsTold(hash: EventHash, s: System, id: string, state: M.Values, version: nat)
    requires Inv(s, state, version) && J.LogInv(hash, s.tables) && id in s.sessions
    ensures Run(J.Sent(s.tables.events, id)) ==
            Success(Config(s.sessions[id].record.state, s.sessions[id].record.intended))
  {
    Parts(s, id, state, version);
    hide Inv, LocalOk, ClosedOk, CopyOk, OwnerOk, EffectOk;
    RowState(s, id, state, version);
    J.LogIsARun(s.tables.events, id);
    hide J.Sent, Run, J.Replay;
  }

  lemma RowState(s: System, id: string, state: M.Values, version: nat)
    requires Inv(s, state, version) && id in s.sessions
    ensures id in s.tables.transactions
    ensures s.tables.transactions[id].state == s.sessions[id].record.state
    ensures s.tables.transactions[id].intended == s.sessions[id].record.intended
  {
    Parts(s, id, state, version);
    hide Inv, LocalOk;
    Runs.RowState(s, id, state, version);
  }

  /** A session that is not there yet has nothing in the log. */
  lemma StrangerIsSilent(hash: EventHash, s: System, id: string, state: M.Values, version: nat)
    requires Inv(s, state, version) && J.LogInv(hash, s.tables) && id !in s.sessions
    ensures J.Sent(s.tables.events, id) == []
  {
    InvIsSynced(s, state, version);
    hide Inv, LocalOk, RowOk;
    J.LogIsARun(s.tables.events, id);
  }

  /** One more step. */
  lemma StepTold(hash: EventHash, s: System, a: Action, id: string, met: iset<TransitionEvent>,
                 state: M.Values, version: nat)
    requires Inv(s, state, version) && Lawful(a) && J.LogInv(hash, s.tables)
    requires J.LogInv(hash, Step(hash, s, a).tables)
    requires Sound(s, id, met) && Complete(s, id, met) && Answered(s, id, met)
    ensures var met', s' := met + CalledIn(hash, s, a, id), Step(hash, s, a);
            Sound(s', id, met') && Complete(s', id, met') && Answered(s', id, met')
  {
    hide Inv, Step, Calls, Lawful, Follows, J.LogInv, J.Sent, Sets;
    forall e ensures Calls(hash, s, a, id, e) <==> Sets(hash, s, a, id, e) {
      StepCalls(hash, s, a, id, e, state, version);
    }
    if id in s.sessions {
      StepFollows(hash, s, a, id, state, version);
      hide Sound, Complete, Answered, CalledIn;
      SoundStep(hash, s, a, id, met);
      CompleteStep(hash, s, a, id, met);
      AnsweredStep(hash, s, a, id, met, state, version);
    } else {
      StrangerTold(hash, s, a, id, met, state, version);
    }
  }

  lemma StrangerTold(hash: EventHash, s: System, a: Action, id: string, met: iset<TransitionEvent>,
                     state: M.Values, version: nat)
    requires Inv(s, state, version) && Lawful(a) && id !in s.sessions && Sound(s, id, met)
    requires J.LogInv(hash, Step(hash, s, a).tables)
    ensures var met', s' := met + CalledIn(hash, s, a, id), Step(hash, s, a);
            Sound(s', id, met') && Complete(s', id, met') && Answered(s', id, met')
  {
    hide Inv, Step, Calls, Lawful, J.LogInv, J.Sent, Sets;
    var s' := Step(hash, s, a);
    forall e ensures !Calls(hash, s, a, id, e) && !Pending(s', id, e) {
      StepCalls(hash, s, a, id, e, state, version);
      StrangersSetNothing(hash, s, a, id, e);
      assert Pending(s', id, e) ==> Sets(hash, s, a, id, e) by { hide *; StrangerPending(hash, s, a, id, e); }
    }
    StepKeepsInv(hash, s, a, state, version);
    FirstLog(hash, s, a, id, state, version);
  }

  lemma StrangerPending(hash: EventHash, s: System, a: Action, id: string, e: TransitionEvent)
    ensures id !in s.sessions && Pending(Step(hash, s, a), id, e) ==> Sets(hash, s, a, id, e)
  {
    hide Step;
  }

  lemma FirstLog(hash: EventHash, s: System, a: Action, id: string, state: M.Values, version: nat)
    requires Inv(s, state, version) && Lawful(a) && id !in s.sessions
    requires Inv(Step(hash, s, a), state, version) && J.LogInv(hash, Step(hash, s, a).tables)
    ensures J.Sent(Step(hash, s, a).tables.events, id) == []
  {
    hide Inv, J.LogInv, J.Sent, Lawful;
    var s' := Step(hash, s, a);
    if id in s'.sessions {
      assert s'.sessions[id].record.state == New by { NewcomerIsNew(hash, s, a, id); }
      hide Step;
      StateIsTold(hash, s', id, state, version);
      EndIsToldByEvents(J.Sent(s'.tables.events, id));
    } else {
      hide Step;
      StrangerIsSilent(hash, s', id, state, version);
    }
  }

  lemma NewcomerIsNew(hash: EventHash, s: System, a: Action, id: string)
    requires id !in s.sessions && id in Step(hash, s, a).sessions
    ensures Step(hash, s, a).sessions[id].record.state == New
  {
    hide NextEvent, Insertable, ApplyTransition, Converse, M.Commit, M.Inspect, Replaceable, CommitFault, Refuse,
         Resume, Open, Transition;
  }

  // ----- over whole runs ---------------------------------------------------------------------------

  lemma {:induction false} RunsAreTold(hash: EventHash, state: M.Values, version: nat, actions: seq<Action>,
                                       id: string)
    requires LawfulRun(actions)
    ensures var init := Initial(state, version);
            var s, met := Reach(hash, init, actions), Met(hash, init, actions, id);
            Sound(s, id, met) && Complete(s, id, met) && Answered(s, id, met)
  {
    hide Step, Inv, J.LogInv, Calls, Sound, Complete, Answered, Lawful, CalledFor, CalledIn;
    var init := Initial(state, version);
    if actions == [] {
      StartIsTold(hash, state, version, id);
    } else {
      var n := |actions| - 1;
      var s := Reach(hash, init, actions[..n]);
      RunsAreTold(hash, state, version, actions[..n], id);
      Runs.RunsKeepInv(hash, state, version, actions[..n]);
      Runs.ConcurrentLogInv(hash, state, version, actions[..n]);
      Runs.ConcurrentLogInv(hash, state, version, actions);
      MetSnoc(hash, init, actions, id);
      hide Met;
      StepTold(hash, s, actions[n], id, Met(hash, init, actions[..n], id), state, version);
    }
  }

  lemma StartIsTold(hash: EventHash, state: M.Values, version: nat, id: string)
    ensures var s, met := Initial(state, version), Met(hash, Initial(state, version), [], id);
            Sound(s, id, met) && Complete(s, id, met) && Answered(s, id, met)
  {
    assert Met(hash, Initial(state, version), [], id) == iset{} by {
      hide Calls;
    }
    hide Met;
  }

  /** In every lawful run: the transitions that the log holds of a transaction, and the one that its
      session is about to send, were each called for by a step of that session; and as long as its
      journal operations worked, every event that one of its steps called for is in the log or about to
      be sent. */
  lemma EventsHaveCauses(hash: EventHash, state: M.Values, version: nat, actions: seq<Action>, id: string,
                         e: TransitionEvent)
    requires LawfulRun(actions)
    ensures var init := Initial(state, version);
            var s := Reach(hash, init, actions);
            var sent := e in J.Sent(s.tables.events, id) || Pending(s, id, e);
            && (sent ==> CalledFor(hash, init, actions, id, e))
            && (id in s.sessions && s.sessions[id].storage.AllWorked? ==>
                  (sent <==> CalledFor(hash, init, actions, id, e)))
  {
    hide Reach, Initial, CalledFor, LawfulRun;
    RunsAreTold(hash, state, version, actions, id);
  }

  // ----- the outcomes ------------------------------------------------------------------------------

  /** `adapter.verify_committed` reported PASS to the session. */
  ghost predicate VerdictPassed(hash: EventHash, init: System, actions: seq<Action>, id: string) {
    exists i :: 0 <= i < |actions| && CommitPassed(Reach(hash, init, actions[..i]), actions[i], id)
  }

  /** It raised, or reported anything else. */
  ghost predicate VerdictNotPassed(hash: EventHash, init: System, actions: seq<Action>, id: string) {
    exists i :: 0 <= i < |actions| && CommitNotPassed(Reach(hash, init, actions[..i]), actions[i], id)
  }

  /** `adapter.commit` was not heard to commit or refuse, or its receipt was not stored. */
  ghost predicate AnswerLost(hash: EventHash, init: System, actions: seq<Action>, id: string) {
    exists i :: 0 <= i < |actions| &&
      var s := Reach(hash, init, actions[..i]);
      CommitUnheard(s, actions[i], id) || ReceiptLost(s, actions[i], id)
  }

  /** `adapter.commit` raised STALE_STATE. */
  ghost predicate AnswerStale(hash: EventHash, init: System, actions: seq<Action>, id: string) {
    exists i :: 0 <= i < |actions| && CommitRefused(Reach(hash, init, actions[..i]), actions[i], id)
  }

  lemma AnswersMean(hash: EventHash, init: System, actions: seq<Action>, id: string)
    ensures CalledFor(hash, init, actions, id, CommitVerified) <==> VerdictPassed(hash, init, actions, id)
    ensures CalledFor(hash, init, actions, id, CommitPartialOrInvalid) <==>
            VerdictNotPassed(hash, init, actions, id)
    ensures CalledFor(hash, init, actions, id, CommitOutcomeUnknown) <==> AnswerLost(hash, init, actions, id)
    ensures CalledFor(hash, init, actions, id, CommitFailedNoEffect) <==> AnswerStale(hash, init, actions, id)
  {
    hide *;
    PassMeans(hash, init, actions, id);
    FailMeans(hash, init, actions, id);
    LostMeans(hash, init, actions, id);
    StaleMeans(hash, init, actions, id);
  }

  lemma PassMeans(hash: EventHash, init: System, actions: seq<Action>, id: string)
    ensures CalledFor(hash, init, actions, id, CommitVerified) <==> VerdictPassed(hash, init, actions, id)
  {
    hide Step, Reach, CommitPassed;
  }

  lemma FailMeans(hash: EventHash, init: System, actions: seq<Action>, id: string)
    ensures CalledFor(hash, init, actions, id, CommitPartialOrInvalid) <==>
            VerdictNotPassed(hash, init, actions, id)
  {
    hide Step, Reach, CommitNotPassed;
  }

  lemma LostMeans(hash: EventHash, init: System, actions: seq<Action>, id: string)
    ensures CalledFor(hash, init, actions, id, CommitOutcomeUnknown) <==> AnswerLost(hash, init, actions, id)
  {
    hide Step, Reach, CommitUnheard, ReceiptLost;
  }

  lemma StaleMeans(hash: EventHash, init: System, actions: seq<Action>, id: string)
    ensures CalledFor(hash, init, actions, id, CommitFailedNoEffect) <==> AnswerStale(hash, init, actions, id)
  {
    hide Step, Reach, CommitRefused;
  }

  /** What the commit came to decides the outcome, once the row is past COMMITTING; it comes to one
      thing at most. */
  ghost predicate CommitIsCaused(hash: EventHash, init: System, actions: seq<Action>, id: string,
                                 outcome: TransactionState)
  {
    var passed, notPassed := VerdictPassed(hash, init, actions, id), VerdictNotPassed(hash, init, actions, id);
    var lost, stale := AnswerLost(hash, init, actions, id), AnswerStale(hash, init, actions, id);
    && (outcome.Committed? <==> passed && !outcome.Committing?)
    && (outcome.Failed? <==> notPassed && !outcome.Committing?)
    && (outcome.InDoubt? <==> lost && !outcome.Committing?)
    && (stale ==> outcome.Committing? || Ending(outcome))
    && !(passed && notPassed) && !(passed && lost) && !(passed && stale)
    && !(notPassed && lost) && !(notPassed && stale) && !(lost && stale)
  }

  lemma AnswerDecides(hash: EventHash, s: System, id: string, met: iset<TransitionEvent>, e: TransitionEvent,
                      state: M.Values, version: nat)
    requires Inv(s, state, version) && J.LogInv(hash, s.tables) && id in s.sessions
    requires Sound(s, id, met) && Answered(s, id, met) && IsAnswer(e)
    ensures var outcome := s.sessions[id].record.state;
            && (e.CommitVerified? ==> (outcome.Committed? <==> e in met && !outcome.Committing?))
            && (e.CommitPartialOrInvalid? ==> (outcome.Failed? <==> e in met && !outcome.Committing?))
            && (e.CommitOutcomeUnknown? ==> (outcome.InDoubt? <==> e in met && !outcome.Committing?))
            && (e.CommitFailedNoEffect? && e in met ==> outcome.Committing? || Ending(outcome))
  {
    hide Inv, J.LogInv, J.Sent, Run, Ending;
    StateIsTold(hash, s, id, state, version);
    AnswersLeaveCommitting(J.Sent(s.tables.events, id), e);
  }

  /** In every lawful run, of every transaction: its row is COMMITTED exactly if its session was told
      PASS by `verify_committed`, FAILED exactly if that raised or reported anything else, and IN_DOUBT
      exactly if the answer of `commit` or its receipt was lost, as soon as the row has left COMMITTING;
      with working storage no operation ends before that. */
  lemma CommitsHaveCauses(hash: EventHash, state: M.Values, version: nat, actions: seq<Action>, id: string)
    requires LawfulRun(actions)
    requires id in Reach(hash, Initial(state, version), actions).tables.transactions
    ensures var init := Initial(state, version);
            var s := Reach(hash, init, actions);
            && id in s.sessions
            && CommitIsCaused(hash, init, actions, id, s.tables.transactions[id].state)
            && (s.sessions[id].storage.AllWorked? && s.sessions[id].point.AtRest? ==>
                  !s.tables.transactions[id].state.Committing?)
  {
    hide Reach, Initial, CalledFor, LawfulRun, Inv, J.LogInv, Sound, Answered, Complete, Ending,
         VerdictPassed, VerdictNotPassed, AnswerLost, AnswerStale;
    var init := Initial(state, version);
    var s := Reach(hash, init, actions);
    var met := Met(hash, init, actions, id);
    RunsAreTold(hash, state, version, actions, id);
    Runs.RunsKeepInv(hash, state, version, actions);
    Runs.ConcurrentLogInv(hash, state, version, actions);
    Runs.RowState(s, id, state, version);
    AnswersMean(hash, init, actions, id);
    AnswerDecides(hash, s, id, met, CommitVerified, state, version);
    AnswerDecides(hash, s, id, met, CommitPartialOrInvalid, state, version);
    AnswerDecides(hash, s, id, met, CommitOutcomeUnknown, state, version);
    AnswerDecides(hash, s, id, met, CommitFailedNoEffect, state, version);
    AnswersExclude(s, id, met);
    if s.sessions[id].storage.AllWorked? && s.sessions[id].point.AtRest? {
      Runs.SessionsClose(hash, state, version, actions, id);
    }
  }

  lemma AnswersExclude(s: System, id: string, met: iset<TransitionEvent>)
    requires Answered(s, id, met)
    ensures forall e, f | e in met && f in met && IsAnswer(e) && IsAnswer(f) :: e == f
  {
    hide J.Sent;
  }

  // ----- the way to the commit, and the aborts -------------------------------------------------------

  /** `adapter.verify_staged` reported PASS to the session. */
  ghost predicate StageVerdictPassed(hash: EventHash, init: System, actions: seq<Action>, id: string) {
    exists i :: 0 <= i < |actions| && StagePassed(Reach(hash, init, actions[..i]), actions[i], id)
  }

  /** A second `inspect` found the target at the planned version, and the guards passed. */
  ghost predicate Cleared(hash: EventHash, init: System, actions: seq<Action>, id: string) {
    exists i :: 0 <= i < |actions| && actions[i].Advance? && actions[i].env.guard.GuardsPass?
                && Reinspected(Reach(hash, init, actions[..i]), actions[i], id, false)
  }

  /** A second `inspect` found the target at another version. */
  ghost predicate TargetMoved(hash: EventHash, init: System, actions: seq<Action>, id: string) {
    exists i :: 0 <= i < |actions| && Reinspected(Reach(hash, init, actions[..i]), actions[i], id, true)
  }

  /** There was nothing to discard, or `adapter.abort` reported PASS. */
  ghost predicate DiscardPassed(hash: EventHash, init: System, actions: seq<Action>, id: string) {
    exists i :: 0 <= i < |actions| &&
      var s := Reach(hash, init, actions[..i]);
      Discarded(s, actions[i], id) || AbandonsNothing(hash, s, actions[i], id)
  }

  /** Staging did not clean up after itself, or `adapter.abort` reported anything but PASS. */
  ghost predicate DiscardNotPassed(hash: EventHash, init: System, actions: seq<Action>, id: string) {
    exists i :: 0 <= i < |actions| && NotDiscarded(Reach(hash, init, actions[..i]), actions[i], id)
  }

  lemma StagePassMeans(hash: EventHash, init: System, actions: seq<Action>, id: string)
    ensures CalledFor(hash, init, actions, id, StagedVerificationPassed) <==>
            StageVerdictPassed(hash, init, actions, id)
  {
    hide Step, Reach, StagePassed;
  }

  lemma ClearedMeans(hash: EventHash, init: System, actions: seq<Action>, id: string)
    ensures CalledFor(hash, init, actions, id, CommitGuardsPassed) <==> Cleared(hash, init, actions, id)
  {
    hide Step, Reach;
  }

  lemma MovedMeans(hash: EventHash, init: System, actions: seq<Action>, id: string)
    ensures CalledFor(hash, init, actions, id, TargetVersionChanged) <==> TargetMoved(hash, init, actions, id)
  {
    hide Step, Reach, Reinspected;
  }

  lemma DiscardMeans(hash: EventHash, init: System, actions: seq<Action>, id: string)
    ensures CalledFor(hash, init, actions, id, StagingDiscardSucceeded) <==> DiscardPassed(hash, init, actions, id)
    ensures CalledFor(hash, init, actions, id, StagingDiscardFailed) <==> DiscardNotPassed(hash, init, actions, id)
  {
    hide Step, Reach, Discarded, NotDiscarded, AbandonsNothing;
  }

  /** What the way of an attempt has been, by its state. */
  ghost predicate WayIsCaused(hash: EventHash, init: System, actions: seq<Action>, id: string,
                              outcome: TransactionState)
  {
    && (AfterVerification(outcome) ==> StageVerdictPassed(hash, init, actions, id))
    && (PastCommit(outcome) ==> Cleared(hash, init, actions, id))
    && (outcome.StaleState? ==> TargetMoved(hash, init, actions, id))
    && (outcome.Aborted? || outcome.StaleState? ==> DiscardPassed(hash, init, actions, id))
    && (outcome.RecoveryFailed? ==> DiscardNotPassed(hash, init, actions, id))
    && (outcome.Rejected? ==> CalledFor(hash, init, actions, id, ValidationFailed))
  }

  /** With working storage, an abort that is over says what caused it. */
  ghost predicate AbortIsCaused(hash: EventHash, init: System, actions: seq<Action>, id: string,
                                outcome: TransactionState)
  {
    && (outcome.Aborted? || outcome.StaleState? || outcome.RecoveryFailed? ==>
          && (outcome.RecoveryFailed? <==> DiscardNotPassed(hash, init, actions, id))
          && (outcome.RecoveryFailed? || (outcome.StaleState? <==> TargetMoved(hash, init, actions, id))))
    && (DiscardNotPassed(hash, init, actions, id) ==> outcome.Aborting? || outcome.RecoveryFailed?)
  }

  /** The same, of the events that the session has met. */
  lemma WayFromLog(hash: EventHash, s: System, id: string, met: iset<TransitionEvent>,
                   state: M.Values, version: nat)
    requires Inv(s, state, version) && J.LogInv(hash, s.tables) && id in s.sessions && Sound(s, id, met)
    ensures var outcome := s.sessions[id].record.state;
            && (AfterVerification(outcome) ==> StagedVerificationPassed in met)
            && (PastCommit(outcome) ==> CommitGuardsPassed in met)
            && (outcome.StaleState? ==> TargetVersionChanged in met)
            && (outcome.Aborted? || outcome.StaleState? ==> StagingDiscardSucceeded in met)
            && (outcome.RecoveryFailed? ==> StagingDiscardFailed in met)
            && (outcome.Rejected? ==> ValidationFailed in met)
  {
    hide Inv, J.LogInv, J.Sent, Run, AfterVerification, PastCommit;
    StateIsTold(hash, s, id, state, version);
    EndIsToldByEvents(J.Sent(s.tables.events, id));
  }

  lemma AbortFromLog(hash: EventHash, s: System, id: string, met: iset<TransitionEvent>,
                     state: M.Values, version: nat)
    requires Inv(s, state, version) && J.LogInv(hash, s.tables) && id in s.sessions
    requires Complete(s, id, met) && s.sessions[id].storage.AllWorked?
    ensures var outcome := s.sessions[id].record.state;
            && (outcome.Aborted? ==> TargetVersionChanged !in met)
            && (StagingDiscardFailed in met ==> outcome.Aborting? || outcome.RecoveryFailed?)
  {
    hide Inv, J.LogInv, J.Sent, Run;
    StateIsTold(hash, s, id, state, version);
    EndIsToldByEvents(J.Sent(s.tables.events, id));
    AbortsArePending(s, id, state, version);
    hide WayTold, EndTold;
  }

  lemma AbortsArePending(s: System, id: string, state: M.Values, version: nat)
    requires Inv(s, state, version) && id in s.sessions
    ensures Pending(s, id, TargetVersionChanged) ==> s.sessions[id].record.state.ReadyToCommit?
    ensures Pending(s, id, StagingDiscardFailed) ==> s.sessions[id].record.state.Aborting?
  {
    hide Inv;
    Parts(s, id, state, version);
    hide ClosedOk, CopyOk, OwnerOk, EffectOk, RowOk, SteadyOk;
  }

  /** In every lawful run: an attempt is only READY_TO_COMMIT, or past it, after `verify_staged` reported
      PASS, and only past the commit boundary after a second `inspect` cleared it; STALE_STATE means that
      the target had moved, ABORTED and STALE_STATE that the discard passed, RECOVERY_FAILED that it did
      not.  With working storage the converse holds: among the aborts that are over, STALE_STATE are
      exactly those whose target had moved, and RECOVERY_FAILED those whose discard did not pass. */
  lemma WaysHaveCauses(hash: EventHash, state: M.Values, version: nat, actions: seq<Action>, id: string)
    requires LawfulRun(actions)
    requires id in Reach(hash, Initial(state, version), actions).tables.transactions
    ensures var init := Initial(state, version);
            var s := Reach(hash, init, actions);
            var outcome := s.tables.transactions[id].state;
            && id in s.sessions
            && WayIsCaused(hash, init, actions, id, outcome)
            && (s.sessions[id].storage.AllWorked? ==> AbortIsCaused(hash, init, actions, id, outcome))
  {
    hide Reach, Initial, CalledFor, LawfulRun, Inv, J.LogInv, Sound, Complete, Answered, Run, J.Sent,
         StageVerdictPassed, Cleared, TargetMoved, DiscardPassed, DiscardNotPassed;
    var init := Initial(state, version);
    var s := Reach(hash, init, actions);
    RunsAreTold(hash, state, version, actions, id);
    Runs.RunsKeepInv(hash, state, version, actions);
    Runs.ConcurrentLogInv(hash, state, version, actions);
    Runs.RowState(s, id, state, version);
    StagePassMeans(hash, init, actions, id);
    ClearedMeans(hash, init, actions, id);
    MovedMeans(hash, init, actions, id);
    DiscardMeans(hash, init, actions, id);
    var met := Met(hash, init, actions, id);
    WayFromLog(hash, s, id, met, state, version);
    if s.sessions[id].storage.AllWorked? {
      AbortFromLog(hash, s, id, met, state, version);
    }
  }
}
