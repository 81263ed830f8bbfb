/** What a discard leaves in the adapter: the stage is gone from its table. */
module ProtocolStages {
  import opened Wrappers
  import opened Ledger
  import opened Domain
  import opened Journal
  import opened Protocol
  import opened ProtocolLocal
  import opened ProtocolSync
  import opened ProtocolEffects
  import opened ProtocolSerial
  import opened ProtocolOwners
  import opened ProtocolSteps
  import opened ProtocolMoves
  import Runs = ProtocolRuns

  /** The step draws an identifier for a stage. */
  predicate Draws(s: System, a: Action) {
    a.Advance? && a.id in s.sessions && s.sessions[a.id].point.AtStage? && a.env.fault.None?
  }

  /** The identifiers drawn for stages in a run. */
  function Drawn(hash: EventHash, init: System, actions: seq<Action>): set<string> {
    if actions == [] then {}
    else
      var n := |actions| - 1;
      Drawn(hash, init, actions[..n])
      + if Draws(Reach(hash, init, actions[..n]), actions[n]) then {actions[n].env.freshId} else {}
  }

  /** No identifier is drawn for two stages. */
  ghost predicate DrawsAreFresh(hash: EventHash, init: System, actions: seq<Action>) {
    forall i | 0 <= i < |actions| && Draws(Reach(hash, init, actions[..i]), actions[i]) ::
      actions[i].env.freshId !in Drawn(hash, init, actions[..i])
  }

  /** The stage of a session. */
  function StageOf(me: Session): Option<string> {
    if me.effect.Some? then Some(me.effect.value.stageId) else None
  }

  /** A discarded stage is gone, and is not about to be written again. */
  predicate GoneOk(me: Session, stages: map<string, M.StagedReceipt>) {
    me.discarded ==> me.effect.Some? && me.effect.value.stageId !in stages && !me.point.AtExecute?
  }

  /** So is the stage that the session's own commit promoted. */
  predicate PromotedOk(me: Session, mock: M.Adapter) {
    Wrote(me, mock.receipts) ==> me.effect.Some? && me.effect.value.stageId !in mock.stages
  }

  ghost predicate StagesOk(s: System, drawn: set<string>) {
    && s.mock.stages.Keys <= drawn
    && (forall id | id in s.sessions && s.sessions[id].effect.Some? :: s.sessions[id].effect.value.stageId in drawn)
    && (forall id, other | id in s.sessions && other in s.sessions && id != other && s.sessions[id].effect.Some? ::
          StageOf(s.sessions[id]) != StageOf(s.sessions[other]))
    && (forall id | id in s.sessions :: GoneOk(s.sessions[id], s.mock.stages) && PromotedOk(s.sessions[id], s.mock))
  }

  /** What one step does to the stage of one session and to the table of stages. */
  ghost predicate StageMoves(s: System, s': System, id: string, env: Env) {
    && id in s.sessions && id in s'.sessions
    && s'.sessions == s.sessions[id := s'.sessions[id]]
    && var me, me', stages, stages' := s.sessions[id], s'.sessions[id], s.mock.stages, s'.mock.stages;
    && (if me.point.AtStage? && env.fault.None? then me.effect.None? && StageOf(me') == Some(env.freshId)
        else me'.effect == me.effect)
    && (me'.point.AtExecute? ==> me.point.AtStage? && env.fault.None?)
    && (forall k | k in stages' && k !in stages :: me.point.AtExecute? && StageOf(me) == Some(k))
    && (me'.discarded ==> me.discarded || (me.effect.Some? && me.effect.value.stageId !in stages'))
  }

  /** What one step does to the effects that the adapter remembers. */
  ghost predicate EffectMoves(s: System, s': System, id: string) {
    && id in s.sessions && id in s'.sessions
    && (Wrote(s'.sessions[id], s'.mock.receipts) ==>
          || (Wrote(s.sessions[id], s.mock.receipts)
              && !s.sessions[id].point.AtStage? && !s.sessions[id].point.AtExecute?)
          || (s'.sessions[id].effect.Some? && s'.sessions[id].effect.value.stageId !in s'.mock.stages))
    && (forall other | other in s.sessions && other != id && Wrote(s.sessions[other], s'.mock.receipts) ::
          Wrote(s.sessions[other], s.mock.receipts))
  }

  /** At the points that leave the adapter's stages alone. */
  predicate Aside(s: System, s': System, id: string) {
    && id in s.sessions && id in s'.sessions && s'.sessions == s.sessions[id := s'.sessions[id]]
    && s'.sessions[id].effect == s.sessions[id].effect && s'.sessions[id].discarded == s.sessions[id].discarded
    && !s'.sessions[id].point.AtExecute? && (forall k | k in s'.mock.stages :: k in s.mock.stages)
  }

  lemma JournalStands(hash: EventHash, s: System, id: string, env: Env)
    requires id in s.sessions
    requires var p := s.sessions[id].point;
             p.AtSend? || p.AtAdmission? || p.AtInspect? || p.AtBind? || p.AtReserve? || p.AtLink? || p.AtReceipt?
             || p.AtRest?
    ensures Aside(s, Step(hash, s, Action.Advance(id, env)), id)
  {
    hide Transition, SetTransactionIntent, ReserveIntent, LinkSupersession, AppendReceipt, Refuse, M.Inspect;
    RefuseSends(OtherError);
    forall e ensures Refuse(e).AtSend? { RefuseSends(e); }
    assert s.sessions == s.sessions[id := s.sessions[id]];
  }

  lemma RefuseSends(e: Exception)
    ensures Refuse(e).AtSend?
  {}

  lemma CommitStands(hash: EventHash, s: System, id: string, env: Env)
    requires id in s.sessions && s.sessions[id].point.AtCommit?
    requires s.sessions[id].plan.Some? && s.sessions[id].staged.Some?
    ensures Aside(s, Step(hash, s, Action.Advance(id, env)), id)
  {
    CommitStep(hash, s, id, env);
    hide Step;
  }

  lemma StagingMoves(hash: EventHash, s: System, id: string, env: Env)
    requires id in s.sessions && LocalOk(s.sessions[id], id)
    requires s.sessions[id].point.AtStage? || s.sessions[id].point.AtExecute?
    ensures StageMoves(s, Step(hash, s, Action.Advance(id, env)), id, env)
  {
    var me := s.sessions[id];
    PlannedPoints(me, id);
    Equipment(me, id);
    ConverseStep(hash, s, id, env);
    hide Step, LocalOk, EventFor;
  }

  lemma TalkingMoves(hash: EventHash, s: System, id: string, env: Env)
    requires id in s.sessions && Conversing(s.sessions[id].point) && LocalOk(s.sessions[id], id)
    requires !s.sessions[id].point.AtStage? && !s.sessions[id].point.AtExecute?
    ensures StageMoves(s, Step(hash, s, Action.Advance(id, env)), id, env)
  {
    var me := s.sessions[id];
    PlannedPoints(me, id);
    Equipment(me, id);
    ConverseStep(hash, s, id, env);
    hide Step, LocalOk, EventFor, GuardEvent, M.Stage, M.Execute, M.Inspect;
  }

  lemma Equipment(me: Session, id: string)
    requires LocalOk(me, id)
    ensures me.point.AtStage? ==> me.effect.None?
    ensures me.point.AtExecute? ==> me.effect.Some?
    ensures me.staged.Some? ==> me.effect == Some(me.staged.value.staged)
    ensures me.point.AtCommit? ==> me.plan.Some? && me.staged.Some?
  {
    hide SendOk;
  }

  lemma AdvanceMoves(hash: EventHash, s: System, id: string, env: Env, state: M.Values, version: nat)
    requires Inv(s, state, version) && id in s.sessions
    ensures StageMoves(s, Step(hash, s, Action.Advance(id, env)), id, env)
  {
    hide Inv, Step, LocalOk;
    Parts(s, id, state, version);
    Equipment(s.sessions[id], id);
    var p := s.sessions[id].point;
    if p.AtStage? || p.AtExecute? {
      StagingMoves(hash, s, id, env);
    } else if Conversing(p) {
      TalkingMoves(hash, s, id, env);
    } else if p.AtCommit? {
      CommitStands(hash, s, id, env);
    } else {
      JournalStands(hash, s, id, env);
    }
  }

  // ----- the effects that the adapter remembers ---------------------------------------------------

  /** The step leaves them alone, and the plan of its session, unless it binds one. */
  ghost predicate RecordsNothing(s: System, s': System, id: string) {
    && id in s.sessions && id in s'.sessions && s'.mock.receipts == s.mock.receipts
    && (if s.sessions[id].point.AtBind? then s'.sessions[id].record.state.New?
        else s'.sessions[id].plan == s.sessions[id].plan)
  }

  lemma TalkRecordsNothing(hash: EventHash, s: System, id: string, env: Env)
    requires id in s.sessions && LocalOk(s.sessions[id], id) && Conversing(s.sessions[id].point)
    ensures RecordsNothing(s, Step(hash, s, Action.Advance(id, env)), id)
  {
    hide LocalOk, Converse;
    var me := s.sessions[id];
    PlannedPoints(me, id);
    ConverseStep(hash, s, id, env);
    hide Step;
    ConverseKeepsRecord(me, s.mock, env);
    ConverseKeepsTarget(me, me.plan.value, s.mock, env);
  }

  lemma BindRecordsNothing(hash: EventHash, s: System, id: string, env: Env)
    requires id in s.sessions && LocalOk(s.sessions[id], id) && s.sessions[id].point.AtBind?
    ensures RecordsNothing(s, Step(hash, s, Action.Advance(id, env)), id)
  {
    BindStep(hash, s, id, s.sessions[id].point.plan, env);
    hide Step;
  }

  lemma JournalRecordsNothing(hash: EventHash, s: System, id: string, env: Env)
    requires id in s.sessions && !Conversing(s.sessions[id].point)
    requires !s.sessions[id].point.AtBind? && !s.sessions[id].point.AtCommit?
    ensures RecordsNothing(s, Step(hash, s, Action.Advance(id, env)), id)
  {
    hide Transition, ReserveIntent, LinkSupersession, AppendReceipt, Refuse, M.Inspect, Resume, DoCommit, DoBind,
         Converse;
  }

  /** A commit records one effect, its own, and drops the stage. */
  lemma RecordsOwn(s: System, s': System, id: string, receipt: EffectReceipt)
    requires id in s.sessions && s.sessions[id].plan.Some? && s.sessions[id].effect.Some?
    requires id in s'.sessions && s'.sessions == s.sessions[id := s.sessions[id].(point := s'.sessions[id].point)]
    requires s'.mock.receipts == s.mock.receipts[s.sessions[id].plan.value.intentHash := receipt]
    requires receipt.transactionId == id && s.sessions[id].effect.value.stageId !in s'.mock.stages
    requires forall other | other in s.sessions :: s.sessions[other].record.transactionId == other
    ensures EffectMoves(s, s', id)
  {
  }

  lemma CommitRecords(hash: EventHash, s: System, id: string, env: Env, state: M.Values, version: nat)
    requires Inv(s, state, version) && id in s.sessions && s.sessions[id].point.AtCommit?
    ensures EffectMoves(s, Step(hash, s, Action.Advance(id, env)), id)
  {
    hide Inv, Step, LocalOk, EffectOk, EffectMoves, M.Commit, CommitFault;
    var me, s' := s.sessions[id], Step(hash, s, Action.Advance(id, env));
    Parts(s, id, state, version);
    CommittingState(me, id);
    CommitOutcome(s, id, env, state, version);
    Equipment(me, id);
    CommitStep(hash, s, id, env);
    forall other | other in s.sessions ensures s.sessions[other].record.transactionId == other {
      Parts(s, other, state, version);
      OwnId(s.sessions[other], other);
    }
    if s'.mock == s.mock {
      RecordsNone(s, s', id);
    } else {
      var plan := me.plan.value;
      var r := M.Commit(s.mock, me.staged.value, plan.baseVersion, env.freshId, env.stamp.now).0;
      RecordsOwn(s, s', id, r.value);
    }
  }

  lemma RecordsNone(s: System, s': System, id: string)
    requires id in s.sessions && s.sessions[id].point.AtCommit? && s'.mock == s.mock && id in s'.sessions
    requires s'.sessions == s.sessions[id := s.sessions[id].(point := s'.sessions[id].point)]
    ensures EffectMoves(s, s', id)
  {
  }

  lemma CommitOutcome(s: System, id: string, env: Env, state: M.Values, version: nat)
    requires Inv(s, state, version) && id in s.sessions && s.sessions[id].point.AtCommit?
    requires s.sessions[id].plan.Some? && s.sessions[id].staged.Some?
    ensures var me := s.sessions[id];
            var plan := me.plan.value;
            var (r, mock) := M.Commit(s.mock, me.staged.value, plan.baseVersion, env.freshId, env.stamp.now);
            if r.Failure? then mock == s.mock
            else
              && mock.receipts == s.mock.receipts[plan.intentHash := r.value]
              && r.value.transactionId == id && mock.version == s.mock.version + 1
              && me.staged.value.staged.stageId !in mock.stages
  {
    Parts(s, id, state, version);
    CommittingState(s.sessions[id], id);
    hide LocalOk, EffectOk, Synced, Owned, Truthful, Serial, Recorded, AllClosed;
    NobodyElseWrote(s, id);
    CommitMerges(s, id, env, state, version);
  }

  lemma AdvanceRecords(hash: EventHash, s: System, id: string, env: Env, state: M.Values, version: nat)
    requires Inv(s, state, version) && Inv(Step(hash, s, Action.Advance(id, env)), state, version)
    requires id in s.sessions
    ensures EffectMoves(s, Step(hash, s, Action.Advance(id, env)), id)
  {
    hide Inv, Step, LocalOk;
    var s' := Step(hash, s, Action.Advance(id, env));
    if s.sessions[id].point.AtCommit? {
      CommitRecords(hash, s, id, env, state, version);
    } else {
      Parts(s, id, state, version);
      if Conversing(s.sessions[id].point) {
        TalkRecordsNothing(hash, s, id, env);
      } else if s.sessions[id].point.AtBind? {
        BindRecordsNothing(hash, s, id, env);
      } else {
        JournalRecordsNothing(hash, s, id, env);
      }
      Parts(s', id, state, version);
      OwnId(s.sessions[id], id);
      OwnId(s'.sessions[id], id);
      if s.sessions[id].point.AtStage? || s.sessions[id].point.AtExecute? {
        StagingIsEarly(s.sessions[id], id);
      }
    }
  }

  lemma StagingIsEarly(me: Session, id: string)
    requires LocalOk(me, id) && (me.point.AtStage? || me.point.AtExecute?)
    ensures !CommitSide(me.record.state)
  {}

  lemma MovesKeepStages(s: System, s': System, id: string, env: Env, drawn: set<string>)
    requires StagesOk(s, drawn) && StageMoves(s, s', id, env) && EffectMoves(s, s', id)
    requires Draws(s, Action.Advance(id, env)) ==> env.freshId !in drawn
    ensures StagesOk(s', drawn + if Draws(s, Action.Advance(id, env)) then {env.freshId} else {})
  {
    forall other | other in s'.sessions
      ensures GoneOk(s'.sessions[other], s'.mock.stages) && PromotedOk(s'.sessions[other], s'.mock)
    {
      assert GoneOk(s.sessions[other], s.mock.stages) && PromotedOk(s.sessions[other], s.mock);
    }
  }

  lemma StepKeepsStages(hash: EventHash, s: System, a: Action, drawn: set<string>, state: M.Values, version: nat)
    requires Inv(s, state, version) && StagesOk(s, drawn) && Inv(Step(hash, s, a), state, version)
    requires Draws(s, a) ==> a.env.freshId !in drawn
    ensures StagesOk(Step(hash, s, a), drawn + if Draws(s, a) then {a.env.freshId} else {})
  {
    hide Inv, StagesOk, StageMoves, EffectMoves, DoAdvance;
    match a
    case Advance(id, env) =>
      if id in s.sessions {
        AdvanceMoves(hash, s, id, env, state, version);
        AdvanceRecords(hash, s, id, env, state, version);
        MovesKeepStages(s, Step(hash, s, a), id, env, drawn);
      } else {
        assert drawn + {} == drawn;
      }
    case Admit(p, env) =>
      assert drawn + {} == drawn;
      AdmitKeepsStages(hash, s, p, env, drawn, state, version);
    case Start(id, op, env) =>
      assert drawn + {} == drawn;
      StartKeepsStages(hash, s, id, op, env, drawn);
    case OutsideWrite(_) =>
      assert drawn + {} == drawn;
      OutsideKeepsStages(hash, s, a, drawn);
  }

  lemma AdmitKeepsStages(hash: EventHash, s: System, p: M.Proposal, env: Env, drawn: set<string>,
                         state: M.Values, version: nat)
    requires Inv(s, state, version) && StagesOk(s, drawn)
    ensures StagesOk(Step(hash, s, Action.Admit(p, env)), drawn)
  {
    hide Inv, StagesOk, DoAdmit;
    Runs.AdmitsFresh(s, p, state, version);
    AdmitOutcome(hash, s, p, env);
    var s' := Step(hash, s, Action.Admit(p, env));
    if s'.sessions == s.sessions {
      SameStages(s, s', drawn);
    } else {
      NewcomerKeepsStages(s, s', p.transactionId, drawn);
    }
  }

  lemma SameStages(s: System, s': System, drawn: set<string>)
    requires StagesOk(s, drawn) && s'.sessions == s.sessions && s'.mock == s.mock
    ensures StagesOk(s', drawn)
  {}

  lemma NewcomerKeepsStages(s: System, s': System, id: string, drawn: set<string>)
    requires StagesOk(s, drawn) && id !in s.sessions && id in s'.sessions && s'.mock == s.mock
    requires s'.sessions == s.sessions[id := s'.sessions[id]]
    requires s'.sessions[id].effect.None? && !s'.sessions[id].discarded && s'.sessions[id].plan.None?
    ensures StagesOk(s', drawn)
  {}

  lemma StartKeepsStages(hash: EventHash, s: System, id: string, op: Operation, env: Env, drawn: set<string>)
    requires StagesOk(s, drawn)
    ensures StagesOk(Step(hash, s, Action.Start(id, op, env)), drawn)
  {
    if id in s.sessions {
      OpenDoesNotExecute(s.sessions[id], op, env);
    }
    hide Open;
  }

  lemma OpenDoesNotExecute(me: Session, op: Operation, env: Env)
    ensures !Open(me, op, env).AtExecute?
  {}

  lemma OutsideKeepsStages(hash: EventHash, s: System, a: Action, drawn: set<string>)
    requires StagesOk(s, drawn) && a.OutsideWrite?
    ensures StagesOk(Step(hash, s, a), drawn)
  {}

  lemma {:induction false} StagesAreKept(hash: EventHash, state: M.Values, version: nat, actions: seq<Action>)
    requires LawfulRun(actions) && DrawsAreFresh(hash, Initial(state, version), actions)
    ensures var init := Initial(state, version);
            StagesOk(Reach(hash, init, actions), Drawn(hash, init, actions))
  {
    hide Step, Inv, Draws, Lawful, StagesOk;
    var init := Initial(state, version);
    if actions == [] {
      assert StagesOk(init, {}) by { hide *; NoStages(state, version); }
    } else {
      var n := |actions| - 1;
      FreshPrefix(hash, init, actions);
      StagesAreKept(hash, state, version, actions[..n]);
      Runs.RunsKeepInv(hash, state, version, actions[..n]);
      Runs.RunsKeepInv(hash, state, version, actions);
      var s := Reach(hash, init, actions[..n]);
      StepKeepsStages(hash, s, actions[n], Drawn(hash, init, actions[..n]), state, version);
    }
  }

  lemma NoStages(state: M.Values, version: nat)
    ensures StagesOk(Initial(state, version), {})
  {}

  lemma FreshPrefix(hash: EventHash, init: System, actions: seq<Action>)
    requires actions != [] && DrawsAreFresh(hash, init, actions)
    ensures DrawsAreFresh(hash, init, actions[..|actions| - 1])
  {
    hide Reach, Drawn;
    var before := actions[..|actions| - 1];
    forall i | 0 <= i < |before| && Draws(Reach(hash, init, before[..i]), before[i])
      ensures before[i].env.freshId !in Drawn(hash, init, before[..i])
    {
      assert before[..i] == actions[..i] && before[i] == actions[i];
    }
  }

  /** In every lawful run in which no identifier is drawn for two stages, the stage of a discarded attempt
      is not in the adapter's table, nor is that of an attempt whose commit took effect; so no attempt that
      is ABORTED, STALE_STATE, COMMITTED or FAILED has a stage there. */
  lemma DiscardedStagesAreGone(hash: EventHash, state: M.Values, version: nat, actions: seq<Action>, id: string)
    requires LawfulRun(actions) && DrawsAreFresh(hash, Initial(state, version), actions)
    requires id in Reach(hash, Initial(state, version), actions).sessions
    ensures var s := Reach(hash, Initial(state, version), actions);
            var me := s.sessions[id];
            && id in s.tables.transactions
            && var outcome := s.tables.transactions[id].state;
            && (me.discarded ==> me.effect.Some? && me.effect.value.stageId !in s.mock.stages)
            && (outcome.Aborted? || outcome.StaleState? || outcome.Committed? || outcome.Failed? ==>
                  me.effect.None? || me.effect.value.stageId !in s.mock.stages)
  {
    hide Reach, Initial, Drawn, DrawsAreFresh, LawfulRun, Inv, LocalOk;
    var s := Reach(hash, Initial(state, version), actions);
    StagesAreKept(hash, state, version, actions);
    Runs.RunsKeepInv(hash, state, version, actions);
    Parts(s, id, state, version);
    assert GoneOk(s.sessions[id], s.mock.stages) && PromotedOk(s.sessions[id], s.mock);
    var outcome := s.tables.transactions[id].state;
    if outcome.Aborted? || outcome.StaleState? {
      Runs.AbortedMeansDiscarded(hash, state, version, actions, id);
    }
  }
}
