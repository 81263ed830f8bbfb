/** No lost updates: the target is the initial state with the writes applied one after another. */
module ProtocolSerial {
  import opened Wrappers
  import opened Domain
  import opened Protocol
  import opened ProtocolLocal
  import opened ProtocolSync

  /** The state after a history of writes: an effect merges its values, an outside writer
      replaces everything. */
  function Applied(initial: M.Values, writes: seq<Write>): M.Values {
    if writes == [] then initial
    else
      var last := writes[|writes| - 1];
      if last.Effect? then Applied(initial, writes[..|writes| - 1]) + last.values else last.state
  }

  lemma AppliedSnoc(initial: M.Values, writes: seq<Write>, w: Write)
    ensures Applied(initial, writes + [w]) ==
            if w.Effect? then Applied(initial, writes) + w.values else w.state
  {
    assert (writes + [w])[..|writes|] == writes;
  }

  /** A plan names a version the target has had. */
  predicate PlanSeen(plan: M.EffectPlan, version: nat) {
    plan.baseVersion.Counter? && plan.baseVersion.n <= version
  }

  /** A staged copy is the state after some prefix of the writes, not earlier than its plan. */
  ghost predicate SnapshotOf(effect: M.StagedEffect, initial: M.Values, first: nat,
                             writes: seq<Write>, n: nat)
  {
    && n <= |writes|
    && effect.plan.baseVersion.Counter? && effect.plan.baseVersion.n <= first + n
    && effect.state == Applied(initial, writes[..n])
  }

  ghost predicate CopyOk(me: Session, initial: M.Values, first: nat, writes: seq<Write>) {
    && (me.plan.Some? ==> PlanSeen(me.plan.value, first + |writes|))
    && (me.point.AtBind? ==> PlanSeen(me.point.plan, first + |writes|))
    && (me.effect.Some? ==> exists n: nat :: SnapshotOf(me.effect.value, initial, first, writes, n))
  }

  ghost predicate Serial(s: System, initial: M.Values, first: nat) {
    && s.mock.state == Applied(initial, s.writes)
    && s.mock.version == first + |s.writes|
    && (forall id | id in s.sessions :: CopyOk(s.sessions[id], initial, first, s.writes))
  }

  /** The effects in the history are exactly what the adapter remembers, one per intent. */
  predicate WriteOk(w: Write, s: System) {
    w.Effect? ==>
      && w.intentHash in s.mock.receipts
      && s.mock.receipts[w.intentHash].transactionId == w.transactionId
      && w.transactionId in s.sessions
      && s.sessions[w.transactionId].plan.Some?
      && s.sessions[w.transactionId].plan.value.intentHash == w.intentHash
      && s.sessions[w.transactionId].plan.value.values == w.values
  }

  predicate OncePerIntent(writes: seq<Write>) {
    forall j, k | 0 <= j < k < |writes| ::
      writes[j].Effect? && writes[k].Effect? ==> writes[j].intentHash != writes[k].intentHash
  }

  ghost predicate Recorded(s: System) {
    && OncePerIntent(s.writes)
    && (forall k | 0 <= k < |s.writes| :: WriteOk(s.writes[k], s))
    && (forall intent | intent in s.mock.receipts ::
          exists k :: 0 <= k < |s.writes| && s.writes[k].Effect? && s.writes[k].intentHash == intent)
  }

  // ----- steps that do not write ---------------------------------------------------------------

  lemma SessionKeepsSerial(s: System, s': System, id: string, me: Session,
                           initial: M.Values, first: nat)
    requires Serial(s, initial, first)
    requires s'.sessions == s.sessions[id := me] && s'.writes == s.writes
    requires s'.mock.state == s.mock.state && s'.mock.version == s.mock.version
    requires CopyOk(me, initial, first, s.writes)
    ensures Serial(s', initial, first)
  {
    hide CopyOk;
  }

  lemma SessionKeepsRecord(s: System, s': System, id: string, me: Session)
    requires Recorded(s)
    requires s'.sessions == s.sessions[id := me] && s'.writes == s.writes
    requires s'.mock.receipts == s.mock.receipts
    requires id in s.sessions && s.sessions[id].plan.Some? ==> me.plan == s.sessions[id].plan
    ensures Recorded(s')
  {
    hide OncePerIntent;
    forall k | 0 <= k < |s'.writes| ensures WriteOk(s'.writes[k], s') {
      assert WriteOk(s.writes[k], s);
    }
  }

  /** The plan and the copy of a session stay, wherever its point and record go. */
  lemma SameCopy(me: Session, me': Session, initial: M.Values, first: nat, writes: seq<Write>)
    requires CopyOk(me, initial, first, writes)
    requires me'.plan == me.plan && (me'.effect == me.effect) && !me'.point.AtBind?
    ensures CopyOk(me', initial, first, writes)
  {}

  lemma FreshCopy(me: Session, initial: M.Values, first: nat, writes: seq<Write>)
    requires me.plan.None? && me.effect.None? && !me.point.AtBind?
    ensures CopyOk(me, initial, first, writes)
  {}

  lemma InspectedCopy(s: System, id: string, initial: M.Values, first: nat)
    requires Serial(s, initial, first) && id in s.sessions
    ensures CopyOk(s.sessions[id].(point := AtBind(M.Inspect(s.mock, s.sessions[id].proposal))),
                   initial, first, s.writes)
  {
    assert CopyOk(s.sessions[id], initial, first, s.writes);
  }

  lemma BoundCopy(me: Session, plan: M.EffectPlan, record: TransactionRecord,
                  initial: M.Values, first: nat, writes: seq<Write>)
    requires CopyOk(me, initial, first, writes) && me.point == AtBind(plan)
    ensures CopyOk(me.(plan := Some(plan), record := record, point := AtRest), initial, first, writes)
  {}

  /** A stage copies the state after all the writes so far. */
  lemma StagedCopy(s: System, id: string, env: Env, initial: M.Values, first: nat)
    requires Serial(s, initial, first) && id in s.sessions && s.sessions[id].plan.Some?
    requires Conversing(s.sessions[id].point)
    ensures CopyOk(Converse(s.sessions[id], s.sessions[id].plan.value, s.mock, env).0,
                   initial, first, s.writes)
  {
    var me := s.sessions[id];
    assert CopyOk(me, initial, first, s.writes);
    var me' := Converse(me, me.plan.value, s.mock, env).0;
    ConverseKeepsCopy(me, s.mock, env);
    hide Converse;
    if me'.effect == me.effect {
      SameCopy(me, me', initial, first, s.writes);
    } else {
      assert s.writes[..|s.writes|] == s.writes;
      assert SnapshotOf(me'.effect.value, initial, first, s.writes, |s.writes|);
    }
  }

  lemma ConverseKeepsCopy(me: Session, mock: M.Adapter, env: Env)
    requires me.plan.Some? && Conversing(me.point)
    ensures !Converse(me, me.plan.value, mock, env).0.point.AtBind?
    ensures var effect := Converse(me, me.plan.value, mock, env).0.effect;
            effect == me.effect || effect == Some(M.Stage(mock, me.plan.value, env.freshId))
    ensures Converse(me, me.plan.value, mock, env).0.plan == me.plan
  {
    hide M.Stage, M.Inspect, M.Execute, M.Abort;
  }

  lemma ConverseKeepsTarget(me: Session, plan: M.EffectPlan, mock: M.Adapter, env: Env)
    requires Conversing(me.point)
    ensures var mock' := Converse(me, plan, mock, env).1;
            mock == mock'.(stages := mock.stages)
  {
    hide M.Stage, M.Inspect;
  }

  // ----- steps that write ------------------------------------------------------------------------

  lemma LongerHistory(me: Session, initial: M.Values, first: nat, writes: seq<Write>, w: Write)
    requires CopyOk(me, initial, first, writes)
    ensures CopyOk(me, initial, first, writes + [w])
  {
    if me.effect.Some? {
      var n: nat :| SnapshotOf(me.effect.value, initial, first, writes, n);
      assert (writes + [w])[..n] == writes[..n];
      assert SnapshotOf(me.effect.value, initial, first, writes + [w], n);
    }
  }

  lemma OutsideKeepsSerial(s: System, state: M.Values, initial: M.Values, first: nat)
    requires Serial(s, initial, first)
    ensures Serial(s.(mock := s.mock.(state := state, version := s.mock.version + 1),
                      writes := s.writes + [Outside(state)]), initial, first)
  {
    AppliedSnoc(initial, s.writes, Outside(state));
    forall id | id in s.sessions
      ensures CopyOk(s.sessions[id], initial, first, s.writes + [Outside(state)])
    {
      LongerHistory(s.sessions[id], initial, first, s.writes, Outside(state));
    }
    hide CopyOk, Applied;
  }

  lemma OutsideKeepsRecord(s: System, state: M.Values)
    requires Recorded(s)
    ensures Recorded(s.(mock := s.mock.(state := state, version := s.mock.version + 1),
                        writes := s.writes + [Outside(state)]))
  {
    var s' := s.(mock := s.mock.(state := state, version := s.mock.version + 1),
                 writes := s.writes + [Outside(state)]);
    forall k | 0 <= k < |s'.writes| ensures WriteOk(s'.writes[k], s') {
      if k < |s.writes| {
        assert WriteOk(s.writes[k], s);
      }
    }
    forall intent | intent in s'.mock.receipts
      ensures exists k :: 0 <= k < |s'.writes| && s'.writes[k].Effect? && s'.writes[k].intentHash == intent
    {
      var k :| 0 <= k < |s.writes| && s.writes[k].Effect? && s.writes[k].intentHash == intent;
      assert s'.writes[k] == s.writes[k];
    }
  }

  /** The heart of it: if the version is still the one planned, the staged copy is current. */
  lemma CurrentCopy(s: System, id: string, initial: M.Values, first: nat)
    requires Serial(s, initial, first) && id in s.sessions && s.sessions[id].effect.Some?
    requires s.sessions[id].effect.value.plan.baseVersion == Counter(s.mock.version)
    ensures s.sessions[id].effect.value.state == s.mock.state
  {
    assert CopyOk(s.sessions[id], initial, first, s.writes);
    var n: nat :| SnapshotOf(s.sessions[id].effect.value, initial, first, s.writes, n);
    assert n == |s.writes| && s.writes[..n] == s.writes;
  }

  /** An effectful commit merges its values into the current state. */
  lemma CommitMerges(s: System, id: string, env: Env, initial: M.Values, first: nat)
    requires Synced(s) && Serial(s, initial, first) && id in s.sessions
    requires s.sessions[id].point.AtCommit?
    ensures s.sessions[id].plan.Some? && s.sessions[id].staged.Some?
    ensures var me := s.sessions[id];
            var plan := me.plan.value;
            var (r, mock) := M.Commit(s.mock, me.staged.value, plan.baseVersion, env.freshId, env.stamp.now);
            plan.intentHash !in s.mock.receipts ==>
              && (r.Failure? ==> mock == s.mock && r.error == StaleTarget)
              && (r.Success? ==>
                    && mock.version == s.mock.version + 1
                    && mock.state == s.mock.state + plan.values
                    && mock.receipts == s.mock.receipts[plan.intentHash := r.value]
                    && r.value.transactionId == id && r.value.intentHash == plan.intentHash)
  {
    var me := s.sessions[id];
    CommittingState(me, id);
    StagedMerges(me, id);
    hide LocalOk, RowOk;
    if Counter(s.mock.version) == me.plan.value.baseVersion {
      CurrentCopy(s, id, initial, first);
    }
  }

  lemma StagedMerges(me: Session, id: string)
    requires LocalOk(me, id) && me.staged.Some?
    ensures me.plan.Some? && me.effect.Some? && me.effect.value.plan == me.plan.value
    ensures me.plan.value.transactionId == id
    ensures me.staged.value.staged == me.effect.value
    ensures me.staged.value.state == me.effect.value.state + me.plan.value.values
  {}

  lemma WriteKeepsSerial(s: System, s': System, id: string, me: Session, w: Write,
                         initial: M.Values, first: nat)
    requires Serial(s, initial, first) && id in s.sessions
    requires s'.sessions == s.sessions[id := me] && s'.writes == s.writes + [w]
    requires me.plan == s.sessions[id].plan && me.effect == s.sessions[id].effect && !me.point.AtBind?
    requires w.Effect? && s'.mock.state == s.mock.state + w.values
    requires s'.mock.version == s.mock.version + 1
    ensures Serial(s', initial, first)
  {
    AppliedSnoc(initial, s.writes, w);
    SameCopy(s.sessions[id], me, initial, first, s.writes);
    hide CopyOk, Applied;
    forall other | other in s'.sessions ensures CopyOk(s'.sessions[other], initial, first, s'.writes) {
      LongerHistory(s'.sessions[other], initial, first, s.writes, w);
    }
  }

  lemma WriteKeepsRecord(s: System, s': System, id: string, me: Session, w: Write, receipt: EffectReceipt)
    requires Recorded(s) && id in s.sessions
    requires s'.sessions == s.sessions[id := me] && s'.writes == s.writes + [w]
    requires me.plan == s.sessions[id].plan && me.plan.Some?
    requires w == Effect(id, me.plan.value.intentHash, me.plan.value.values)
    requires w.intentHash !in s.mock.receipts && receipt.transactionId == id
    requires s'.mock.receipts == s.mock.receipts[w.intentHash := receipt]
    ensures Recorded(s')
  {
    forall k | 0 <= k < |s'.writes| ensures WriteOk(s'.writes[k], s') {
      if k < |s.writes| {
        assert WriteOk(s.writes[k], s);
      }
    }
    assert OncePerIntent(s'.writes) by {
      forall k | 0 <= k < |s.writes| && s.writes[k].Effect?
        ensures s.writes[k].intentHash != w.intentHash
      {
        assert WriteOk(s.writes[k], s);
      }
    }
    forall intent | intent in s'.mock.receipts
      ensures exists k :: 0 <= k < |s'.writes| && s'.writes[k].Effect? && s'.writes[k].intentHash == intent
    {
      if intent == w.intentHash {
        assert s'.writes[|s.writes|] == w;
      } else {
        var k :| 0 <= k < |s.writes| && s.writes[k].Effect? && s.writes[k].intentHash == intent;
        assert s'.writes[k] == s.writes[k];
      }
    }
  }
}
