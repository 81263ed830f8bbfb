/** What a session asks once, and how it knows that staging left something behind. */
module ProtocolQuestions {
  import opened Wrappers
  import opened StateMachine
  import opened Outcomes
  import opened Ledger
  import opened Journal
  import opened Protocol
  import opened ProtocolLocal
  import opened ProtocolSteps
  import opened ProtocolMoves
  import opened ProtocolCauses
  import opened ProtocolVerdicts

  // ----- asked once ----------------------------------------------------------------------------------

  /** What a session asks of its adapter and of the receipts table on the way to the commit. */
  datatype Question = ToStage | ToExecute | ToVerifyStage | ToCommit | ToStore | ToVerifyCommit

  predicate AsksAt(p: Point, q: Question) {
    match q
    case ToStage => p.AtStage?
    case ToExecute => p.AtExecute?
    case ToVerifyStage => p.AtVerifyStaged?
    case ToCommit => p.AtCommit?
    case ToStore => p.AtReceipt?
    case ToVerifyCommit => p.AtVerifyCommitted?
  }

  predicate Asks(s: System, a: Action, id: string, q: Question) {
    Acting(s, a, id) && AsksAt(s.sessions[id].point, q)
  }

  /** How far a session is when it asks. */
  function AskedAt(q: Question): nat {
    match q
    case ToStage => 12
    case ToExecute => 13
    case ToVerifyStage => 16
    case ToCommit => 32
    case ToStore => 33
    case ToVerifyCommit => 34
  }

  lemma AskingIsThere(me: Session, id: string, q: Question)
    requires LocalOk(me, id) && AsksAt(me.point, q)
    ensures Progress(me) == AskedAt(q) && Place(me.point) < 3
  {
    hide SteadyOk;
  }

  lemma {:induction false} ProgressGrows(hash: EventHash, state: M.Values, version: nat, actions: seq<Action>,
                                         i: nat, id: string)
    requires LawfulRun(actions) && i <= |actions|
    requires id in Reach(hash, Initial(state, version), actions[..i]).sessions
    ensures var s := Reach(hash, Initial(state, version), actions[..i]);
            var t := Reach(hash, Initial(state, version), actions);
            id in t.sessions && Progress(s.sessions[id]) <= Progress(t.sessions[id])
    decreases |actions|
  {
    hide Step, Progress, Lawful, Inv;
    if i == |actions| {
      assert actions[..i] == actions;
    } else {
      var n := |actions| - 1;
      assert actions[..n][..i] == actions[..i];
      ProgressGrows(hash, state, version, actions[..n], i, id);
      Runs.RunsKeepInv(hash, state, version, actions[..n]);
      OneStepOn(hash, Reach(hash, Initial(state, version), actions[..n]), actions[n], id, state, version);
    }
  }

  lemma OneStepOn(hash: EventHash, s: System, a: Action, id: string, state: M.Values, version: nat)
    requires Inv(s, state, version) && Lawful(a) && id in s.sessions
    ensures var s' := Step(hash, s, a);
            && id in s'.sessions && Progress(s.sessions[id]) <= Progress(s'.sessions[id])
            && (Acting(s, a, id) && Place(s.sessions[id].point) < 3 ==>
                  Progress(s.sessions[id]) < Progress(s'.sessions[id]))
  {
    hide Step, Progress, Lawful, Inv, Sends;
    StepFollows(hash, s, a, id, state, version);
  }

  /** In every lawful run a session asks each of these at most once: its adapter is never staged,
      executed, committed or asked for a verdict twice in one attempt. */
  lemma AskedOnce(hash: EventHash, state: M.Values, version: nat, actions: seq<Action>, id: string, q: Question,
                  i: nat, j: nat)
    requires LawfulRun(actions) && i < |actions| && j < |actions|
    requires Asks(Reach(hash, Initial(state, version), actions[..i]), actions[i], id, q)
    requires Asks(Reach(hash, Initial(state, version), actions[..j]), actions[j], id, q)
    ensures i == j
  {
    hide Reach, Progress, Lawful;
    if i < j {
      NotAskedAgain(hash, state, version, actions, id, q, i, j);
    }
    if j < i {
      NotAskedAgain(hash, state, version, actions, id, q, j, i);
    }
  }

  lemma NotAskedAgain(hash: EventHash, state: M.Values, version: nat, actions: seq<Action>, id: string, q: Question,
                      i: nat, j: nat)
    requires LawfulRun(actions) && i < j < |actions|
    requires Asks(Reach(hash, Initial(state, version), actions[..i]), actions[i], id, q)
    ensures !Asks(Reach(hash, Initial(state, version), actions[..j]), actions[j], id, q)
  {
    hide Step, Progress, Lawful, Inv, AsksAt, LocalOk, AskedAt;
    var init := Initial(state, version);
    var s, t := Reach(hash, init, actions[..i]), Reach(hash, init, actions[..j]);
    Runs.RunsKeepInv(hash, state, version, actions[..i]);
    Runs.RunsKeepInv(hash, state, version, actions[..j]);
    Parts(s, id, state, version);
    AskingIsThere(s.sessions[id], id, q);
    OneStepOn(hash, s, actions[i], id, state, version);
    assert actions[..i + 1][..i] == actions[..i] && actions[..j][..i + 1] == actions[..i + 1];
    ProgressGrows(hash, state, version, actions[..j], i + 1, id);
    if Asks(t, actions[j], id, q) {
      Parts(t, id, state, version);
      AskingIsThere(t.sessions[id], id, q);
      assert false;
    }
  }

  /** So an attempt that is READY_TO_COMMIT, or past it, was never told anything but PASS of its stage. */
  lemma NoStageFailed(hash: EventHash, state: M.Values, version: nat, actions: seq<Action>, id: string, i: nat)
    requires LawfulRun(actions) && i < |actions|
    requires id in Reach(hash, Initial(state, version), actions).tables.transactions
    requires AfterVerification(Reach(hash, Initial(state, version), actions).tables.transactions[id].state)
    requires CheckingStage(Reach(hash, Initial(state, version), actions[..i]), actions[i], id)
    ensures StagePassed(Reach(hash, Initial(state, version), actions[..i]), actions[i], id)
  {
    hide Reach, Initial, LawfulRun, AbortIsCaused;
    var init := Initial(state, version);
    WaysHaveCauses(hash, state, version, actions, id);
    var j :| 0 <= j < |actions| && StagePassed(Reach(hash, init, actions[..j]), actions[j], id);
    AskedOnce(hash, state, version, actions, id, ToVerifyStage, i, j);
  }

  // ----- staging that does not clean up after itself --------------------------------------------------

  /** Staging raises ROLLBACK_FAILED in this step. */
  predicate StagingSpoils(s: System, a: Action, id: string) {
    FillingStage(s, a, id) && s.sessions[id].plan.Some? && a.env.fault == Some(KernelError(RollbackFailed))
  }

  ghost predicate StageSpoilt(hash: EventHash, init: System, actions: seq<Action>, id: string) {
    exists i :: 0 <= i < |actions| && StagingSpoils(Reach(hash, init, actions[..i]), actions[i], id)
  }

  /** The session knows that staging left something behind, and is past staging. */
  predicate KnowsSpoilt(s: System, id: string) {
    id in s.sessions && s.sessions[id].cleanupFailed && Progress(s.sessions[id]) > AskedAt(ToExecute)
  }

  lemma SpoiltSnoc(hash: EventHash, init: System, actions: seq<Action>, id: string)
    requires actions != []
    ensures var n := |actions| - 1;
            StageSpoilt(hash, init, actions, id) <==>
            || StageSpoilt(hash, init, actions[..n], id)
            || StagingSpoils(Reach(hash, init, actions[..n]), actions[n], id)
  {
    hide StagingSpoils, Reach;
    var n := |actions| - 1;
    forall i | 0 <= i < n ensures actions[..n][..i] == actions[..i] && actions[..n][i] == actions[i] {}
    if StageSpoilt(hash, init, actions, id) {
      var i :| 0 <= i < |actions| && StagingSpoils(Reach(hash, init, actions[..i]), actions[i], id);
      if i < n {
        assert StagingSpoils(Reach(hash, init, actions[..n][..i]), actions[..n][i], id);
      }
    }
    if StageSpoilt(hash, init, actions[..n], id) {
      var i :| 0 <= i < n && StagingSpoils(Reach(hash, init, actions[..n][..i]), actions[..n][i], id);
      assert StagingSpoils(Reach(hash, init, actions[..i]), actions[i], id);
    }
  }

  /** Only staging touches the flag. */
  lemma FlagStands(hash: EventHash, s: System, a: Action, id: string, state: M.Values, version: nat)
    requires Inv(s, state, version) && id in s.sessions && !FillingStage(s, a, id)
    ensures id in Step(hash, s, a).sessions
    ensures Step(hash, s, a).sessions[id].cleanupFailed == s.sessions[id].cleanupFailed
  {
    hide Inv;
    if !(a.Start? && a.id == id) && !(a.Advance? && a.id == id) {
      hide Step;
      OthersKeepPoint(hash, s, a, id, state, version);
    } else if a.Advance? && Conversing(s.sessions[id].point) {
      Parts(s, id, state, version);
      PlannedPoints(s.sessions[id], id);
      ConverseStep(hash, s, id, a.env);
      hide Step, LocalOk, EventFor, GuardEvent, M.Stage, M.Execute, M.Abort, M.Inspect;
    } else if a.Start? {
      StartLeavesFlag(hash, s, a, id);
    } else if s.sessions[id].point.AtCommit? {
      CommitLeavesFlag(hash, s, a, id);
    } else {
      JournalLeavesFlag(hash, s, a, id);
    }
  }

  lemma StartLeavesFlag(hash: EventHash, s: System, a: Action, id: string)
    requires id in s.sessions && a.Start? && a.id == id
    ensures id in Step(hash, s, a).sessions
    ensures Step(hash, s, a).sessions[id].cleanupFailed == s.sessions[id].cleanupFailed
  {
    hide Open;
  }

  lemma CommitLeavesFlag(hash: EventHash, s: System, a: Action, id: string)
    requires id in s.sessions && a.Advance? && a.id == id && s.sessions[id].point.AtCommit?
    ensures id in Step(hash, s, a).sessions
    ensures Step(hash, s, a).sessions[id].cleanupFailed == s.sessions[id].cleanupFailed
  {
    hide M.Commit, CommitFault, Converse;
  }

  lemma JournalLeavesFlag(hash: EventHash, s: System, a: Action, id: string)
    requires id in s.sessions && a.Advance? && a.id == id
    requires !Conversing(s.sessions[id].point) && !s.sessions[id].point.AtCommit?
    ensures id in Step(hash, s, a).sessions
    ensures Step(hash, s, a).sessions[id].cleanupFailed == s.sessions[id].cleanupFailed
  {
    hide Transition, ReserveIntent, LinkSupersession, AppendReceipt, SetTransactionIntent, Refuse, M.Inspect, Resume,
         DoCommit, Converse;
  }

  lemma StagingSetsFlag(hash: EventHash, s: System, a: Action, id: string)
    requires FillingStage(s, a, id) && LocalOk(s.sessions[id], id)
    ensures var s' := Step(hash, s, a);
            && id in s'.sessions
            && (s'.sessions[id].cleanupFailed <==>
                  StagingSpoils(s, a, id) || (a.env.fault.None? && s.sessions[id].cleanupFailed))
  {
    var me := s.sessions[id];
    PlannedPoints(me, id);
    TalkEquipped(me, id);
    ConverseStep(hash, s, id, a.env);
    hide Step, LocalOk, EventFor, M.Stage, M.Execute;
  }

  lemma StepSpoils(hash: EventHash, s: System, a: Action, id: string, spoilt: bool, state: M.Values, version: nat)
    requires Inv(s, state, version) && Lawful(a)
    requires spoilt <==> KnowsSpoilt(s, id)
    requires id in s.sessions && s.sessions[id].cleanupFailed ==> spoilt
    ensures var s' := Step(hash, s, a);
            && (spoilt || StagingSpoils(s, a, id) <==> KnowsSpoilt(s', id))
            && (id in s'.sessions && s'.sessions[id].cleanupFailed ==> KnowsSpoilt(s', id))
  {
    hide Inv, Step, LocalOk, Lawful, Progress;
    if id in s.sessions {
      Parts(s, id, state, version);
      OneStepOn(hash, s, a, id, state, version);
      if FillingStage(s, a, id) {
        StagingSetsFlag(hash, s, a, id);
        StagingIsAsked(s.sessions[id], id);
        SpoilingLeaves(hash, s, a, id, state, version);
      } else {
        FlagStands(hash, s, a, id, state, version);
      }
    } else {
      NewcomerIsClean(hash, s, a, id);
    }
  }

  lemma StagingIsAsked(me: Session, id: string)
    requires LocalOk(me, id) && (me.point.AtStage? || me.point.AtExecute?)
    ensures Progress(me) <= AskedAt(ToExecute)
  {
    hide SteadyOk;
  }

  /** A fault ends staging. */
  lemma SpoilingLeaves(hash: EventHash, s: System, a: Action, id: string, state: M.Values, version: nat)
    requires Inv(s, state, version) && FillingStage(s, a, id)
    ensures var s' := Step(hash, s, a);
            && id in s'.sessions
            && (StagingSpoils(s, a, id) ==> Progress(s'.sessions[id]) > AskedAt(ToExecute))
  {
    hide Inv, LocalOk, EventFor;
    Parts(s, id, state, version);
    PlannedPoints(s.sessions[id], id);
    TalkEquipped(s.sessions[id], id);
    assert s.sessions[id].record.state.Staging? by { hide *; StagingState(s.sessions[id], id); }
    var p := StagingLeads(hash, s, id, a.env);
    hide Step;
  }

  lemma StagingState(me: Session, id: string)
    requires LocalOk(me, id) && (me.point.AtStage? || me.point.AtExecute?)
    ensures me.record.state.Staging?
  {
    hide SteadyOk;
  }

  lemma NewcomerIsClean(hash: EventHash, s: System, a: Action, id: string)
    requires id !in s.sessions
    ensures id in Step(hash, s, a).sessions ==> !Step(hash, s, a).sessions[id].cleanupFailed
  {
    hide NextEvent, Insertable, ApplyTransition, Converse, M.Commit, M.Inspect, Replaceable, CommitFault, Refuse,
         Resume, Open, Transition;
  }

  lemma {:induction false} SpoiltIsKnown(hash: EventHash, state: M.Values, version: nat, actions: seq<Action>,
                                         id: string)
    requires LawfulRun(actions)
    ensures var init := Initial(state, version);
            var s := Reach(hash, init, actions);
            && (StageSpoilt(hash, init, actions, id) <==> KnowsSpoilt(s, id))
            && (id in s.sessions && s.sessions[id].cleanupFailed ==> KnowsSpoilt(s, id))
  {
    hide Step, Inv, Lawful, StagingSpoils, KnowsSpoilt;
    var init := Initial(state, version);
    if actions == [] {
      assert !KnowsSpoilt(init, id) && id !in init.sessions by { hide *; NobodyKnows(state, version, id); }
    } else {
      var n := |actions| - 1;
      var s := Reach(hash, init, actions[..n]);
      SpoiltIsKnown(hash, state, version, actions[..n], id);
      Runs.RunsKeepInv(hash, state, version, actions[..n]);
      SpoiltSnoc(hash, init, actions, id);
      StepSpoils(hash, s, actions[n], id, KnowsSpoilt(s, id), state, version);
    }
  }

  lemma NobodyKnows(state: M.Values, version: nat, id: string)
    ensures !KnowsSpoilt(Initial(state, version), id) && id !in Initial(state, version).sessions
  {}

  /** A session discards nothing, and reports that, exactly if staging raised ROLLBACK_FAILED. */
  lemma CleanupFailedExactly(hash: EventHash, state: M.Values, version: nat, actions: seq<Action>, id: string)
    requires LawfulRun(actions)
    requires id in Reach(hash, Initial(state, version), actions).sessions
    ensures Reach(hash, Initial(state, version), actions).sessions[id].cleanupFailed <==>
            StageSpoilt(hash, Initial(state, version), actions, id)
  {
    hide Reach, StageSpoilt, Progress, LawfulRun;
    SpoiltIsKnown(hash, state, version, actions, id);
  }
}
