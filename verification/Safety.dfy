/** Every action of the protocol keeps the invariant, whichever workers still believe they hold the lease. */
module Safety {
  import opened Fsm
  import opened Goals
  import opened Invariants
  import opened Json
  import opened Key
  import opened Protocol
  import opened Wrappers

  lemma EvolvesTransitive(s: Slice, t: Slice, u: Slice)
    requires Evolves(s, t) && Evolves(t, u)
    ensures Evolves(s, u)
  {
  }

  lemma StepKeepsInv(c: Config, s: Sys, t: Sys, actor: Option<WorkerId>)
    requires Inv(c, s) && StepOk(c, s, t, actor)
    ensures Inv(c, t)
  {
    forall w: WorkerId ensures LocalOk(t, w) {
      if actor != Some(w) {
        assert LocalOk(s, w);
        OthersKeep(s, t, actor, w);
      }
    }
  }

  lemma OthersKeep(s: Sys, t: Sys, actor: Option<WorkerId>, w: WorkerId)
    requires LocalOk(s, w) && LeaseOk(s.slice.goal, s.hist.grants) && Frames(s, t, actor) && actor != Some(w)
    ensures LocalOk(t, w)
  {
    var l := At(s, w);
    if l.pc != Idle {
      if HoldsLease(t, w) {
        assert HoldsLease(s, w);
        assert t.slice.goal.cursor == s.slice.goal.cursor && t.slice.steps == s.slice.steps;
      }
      PcKeeps(s.slice, t.slice, l.pc, HoldsLease(s, w), HoldsLease(t, w));
    }
  }

  lemma PcKeeps(s: Slice, t: Slice, pc: Pc, held: bool, holds: bool)
    requires Evolves(s, t) && PcOk(s, pc, held)
    requires holds ==> held && t.goal.cursor == s.goal.cursor && t.steps == s.steps
    ensures PcOk(t, pc, holds)
  {
  }

  /** A step by `w` to the local state `l`; it moves the cursor only under the lease. */
  lemma Assemble(c: Config, s: Sys, t: Sys, w: WorkerId, l: Local)
    requires GlobalOk(c, t) && Evolves(s.slice, t.slice) && s.hist.grants <= t.hist.grants
    requires t.workers == s.workers[w := l]
    requires t.slice.goal.cursor != s.slice.goal.cursor || t.slice.steps != s.slice.steps ==>
      HoldsLease(s, w) && t.slice.goal.owner == s.slice.goal.owner
    requires l.pc != Idle ==> 1 <= l.epoch <= |t.hist.grants| && t.hist.grants[l.epoch - 1] == w
    requires l.pc != Idle ==> PcOk(t.slice, l.pc, Holds(t.slice.goal, w, l.epoch))
    ensures StepOk(c, s, t, Some(w))
  {
    hide GlobalOk, Evolves, PcOk;
  }

  // ---- one lemma per kind of step ---------------------------------------------------------------

  /** A worker moves without touching rows or logs. */
  lemma LocalMove(c: Config, s: Sys, w: WorkerId, l: Local, loads: nat, crashes: nat, verdicts: seq<Context>)
    requires GlobalOk(c, s) && LocalOk(s, w) && At(s, w).pc != Idle
    requires l.epoch == At(s, w).epoch && PcOk(s.slice, l.pc, HoldsLease(s, w))
    ensures var hist := s.hist.(loads := loads, crashes := crashes, verdicts := verdicts);
            StepOk(c, s, s.(workers := s.workers[w := l], hist := hist), Some(w))
  {
    hide RowsAgree, CallsBound, ReturnsStored, ResultsDelivered, WritesOrdered;
    hide LeaseOk, PauseOk, Untouched, Evolves, PcOk;
    EvolvesReflexive(s.slice);
  }

  lemma EvolvesReflexive(s: Slice)
    ensures Evolves(s, s)
  {
  }

  /** Heartbeat, expiry and release change the lease bits of the goal row only. */
  lemma LeaseMove(c: Config, s: Sys, t: Sys, actor: Option<WorkerId>)
    requires GlobalOk(c, s)
    requires t.hist == s.hist && t.resumes == s.resumes
    requires t.slice == WithGoal(s.slice, s.slice.goal.(owner := t.slice.goal.owner, expired := t.slice.goal.expired))
    requires t.slice.goal.owner == s.slice.goal.owner || t.slice.goal.owner.None?
    requires forall w: WorkerId :: actor != Some(w) ==> At(t, w) == At(s, w)
    requires actor.Some? ==> At(t, actor.value).pc == Idle
    ensures StepOk(c, s, t, actor)
  {
    hide RowsAgree, CallsBound, ReturnsStored, ResultsDelivered, WritesOrdered, PcOk;
  }

  lemma ClaimOk(c: Config, s: Sys, w: WorkerId)
    requires GlobalOk(c, s) && LocalOk(s, w)
    ensures StepOk(c, s, DoClaim(s, w), Some(w))
  {
    if At(s, w).pc != Idle || !Claimable(s.slice.goal) {
      hide GlobalOk;
      NoMove(c, s, w);
    } else {
      GoalEvolves(s.slice, Claimed(s.slice.goal, w));
      ClaimKeeps(c, s, w);
      hide GlobalOk, Evolves, StepOk;
      Assemble(c, s, DoClaim(s, w), w, Local(s.slice.goal.epoch + 1, 0, Head));
    }
  }

  lemma ClaimKeeps(c: Config, s: Sys, w: WorkerId)
    requires GlobalOk(c, s) && At(s, w).pc == Idle && Claimable(s.slice.goal)
    ensures GlobalOk(c, DoClaim(s, w))
    ensures |s.hist.grants| == s.slice.goal.epoch
  {
    hide RowsAgree, CallsBound, ReturnsStored, ResultsDelivered;
    GrantAdded(s.hist.writes, s.hist.grants, w);
  }

  lemma GrantAdded(ws: seq<FencedWrite>, grants: seq<WorkerId>, w: WorkerId)
    requires WritesOrdered(ws, grants)
    ensures WritesOrdered(ws, grants + [w])
  {
  }

  lemma PlainPcOk(s: Slice, pc: Pc, holding: bool)
    requires pc.Head? || pc.Leave? || pc.Fence?
    ensures PcOk(s, pc, holding)
  {
  }

  lemma GoOk(c: Config, s: Sys, w: WorkerId, pc: Pc)
    requires GlobalOk(c, s) && LocalOk(s, w) && At(s, w).pc != Idle
    requires PcOk(s.slice, pc, HoldsLease(s, w))
    ensures StepOk(c, s, Go(s, w, pc), Some(w))
  {
    LocalMove(c, s, w, At(s, w).(pc := pc), s.hist.loads, s.hist.crashes, s.hist.verdicts);
  }

  lemma LoadOk(c: Config, s: Sys, w: WorkerId, known: bool)
    requires GlobalOk(c, s) && LocalOk(s, w)
    ensures StepOk(c, s, DoLoad(c, s, w, known), Some(w))
  {
    hide GlobalOk, StepOk;
    if At(s, w).pc != Head {
      NoMove(c, s, w);
    } else if At(s, w).iter >= c.maxSteps || !HoldsLease(s, w) {
      GoOk(c, s, w, Leave);
    } else {
      var pc := At(DoLoad(c, s, w, known), w).pc;
      LocalMove(c, s, w, At(s, w).(pc := pc), s.hist.loads + 1, s.hist.crashes, s.hist.verdicts);
    }
  }

  /** The reads and the answers of agent, verifier, probe and authoriser move the worker only. */
  lemma ReadsOk(c: Config, s: Sys, w: WorkerId, op: Op)
    requires GlobalOk(c, s) && LocalOk(s, w)
    requires op.LookUp? || op.ReadHistory? || op.ReadMail? || op.Decide? || op.AskProbe? || op.Authorise? || op.Fault?
    ensures StepOk(c, s, Work(c, s, w, op), Some(w))
  {
    hide GlobalOk, StepOk;
    var t := Work(c, s, w, op);
    if t == s {
      NoMove(c, s, w);
    } else {
      var pc := At(t, w).pc;
      assert t == Go(s, w, pc);
      if op.LookUp? { RowsWellFormed(c, s); }
      GoOk(c, s, w, pc);
    }
  }

  lemma RowsWellFormed(c: Config, s: Sys)
    requires GlobalOk(c, s)
    ensures forall k :: k in s.slice.effects ==> WellFormed(s.slice.effects[k].args)
  {
  }

  lemma VerifyOk(c: Config, s: Sys, w: WorkerId, ok: bool)
    requires GlobalOk(c, s) && LocalOk(s, w)
    ensures StepOk(c, s, DoVerify(s, w, ok), Some(w))
  {
    hide GlobalOk, StepOk;
    match At(s, w).pc
    case Judge(ctx) =>
      var pc := Fence(if ok then Done else State.Failed, false);
      var verdicts := if ok then s.hist.verdicts + [ctx] else s.hist.verdicts;
      LocalMove(c, s, w, At(s, w).(pc := pc), s.hist.loads, s.hist.crashes, verdicts);
    case _ => NoMove(c, s, w);
  }

  lemma CrashOk(c: Config, s: Sys, w: WorkerId)
    requires GlobalOk(c, s) && LocalOk(s, w)
    ensures StepOk(c, s, DoCrash(s, w), Some(w))
  {
    hide GlobalOk, StepOk;
    if At(s, w).pc == Idle {
      NoMove(c, s, w);
    } else {
      LocalMove(c, s, w, At(s, w).(pc := Idle), s.hist.loads, s.hist.crashes + 1, s.hist.verdicts);
    }
  }

  lemma NoMove(c: Config, s: Sys, w: WorkerId)
    requires GlobalOk(c, s) && LocalOk(s, w)
    ensures StepOk(c, s, s, Some(w))
  {
    EvolvesReflexive(s.slice);
  }

  /** A legal transition, by an operator or by the lease holder. */
  lemma TransitOk(c: Config, s: Sys, to: State)
    requires GlobalOk(c, s) && CanTransition(s.slice.goal.state, to)
    requires !s.hist.approved && s.slice.goal.state == Paused ==> to != Executing && to != Verifying
    ensures GlobalOk(c, Transit(s, to))
  {
    hide RowsAgree, CallsBound, ReturnsStored, ResultsDelivered, WritesOrdered;
  }

  lemma GoalEvolves(s: Slice, g: Goal)
    requires s.goal.epoch <= g.epoch && s.goal.cursor <= g.cursor
    requires Terminal(s.goal.state) ==> g.state == s.goal.state
    requires g.epoch == s.goal.epoch ==> g.owner == s.goal.owner || g.owner.None?
    ensures Evolves(s, WithGoal(s, g))
  {
  }

  // ---- writes to effect rows ----------------------------------------------------------------------

  /** What may happen to a bound row: its call stays, and a final row does not change. */
  predicate RowStep(effects: map<nat, Effect>, e: Effect) {
    && e.step in effects
    && SameCall(effects[e.step], e)
    && (Final(effects[e.step]) ==> e == effects[e.step])
  }

  lemma RowEvolves(s: Slice, e: Effect, g: Goal, messages: seq<Message>)
    requires RowStep(s.effects, e) && g == s.goal && s.messages <= messages
    ensures Evolves(s, s.(effects := s.effects[e.step := e], messages := messages))
  {
  }

  lemma RowKeepsRows(c: Config, g: nat, steps: map<nat, StepRow>, effects: map<nat, Effect>, e: Effect)
    requires RowsAgree(c, g, steps, effects) && RowStep(effects, e)
    ensures RowsAgree(c, g, steps, effects[e.step := e])
  {
  }

  lemma RowKeepsLogs(calls: seq<Invocation>, rs: seq<RunOk>, effects: map<nat, Effect>, e: Effect)
    requires CallsBound(calls, effects) && ReturnsStored(rs, effects) && RowStep(effects, e)
    ensures CallsBound(calls, effects[e.step := e]) && ReturnsStored(rs, effects[e.step := e])
  {
    assert forall i :: 0 <= i < |rs| ==> IsStored(rs[i], effects);
  }

  lemma RowKeepsDeliveries(
    d: map<nat, nat>, byOperator: set<nat>, posted: nat, effects: map<nat, Effect>, messages: seq<Message>, e: Effect)
    requires ResultsDelivered(d, byOperator, posted, effects, messages) && RowStep(effects, e)
    requires e.status != Committed || effects[e.step].status == Committed
    ensures ResultsDelivered(d, byOperator, posted, effects[e.step := e], messages)
  {
  }

  /** A row changes without becoming committed: flagged, attempted, retried, failed. */
  lemma RowChanges(c: Config, s: Sys, e: Effect)
    requires GlobalOk(c, s) && RowStep(s.slice.effects, e)
    requires e.status != Committed || s.slice.effects[e.step].status == Committed
    ensures GlobalOk(c, s.(slice := WithEffect(s.slice, e)))
    ensures Evolves(s.slice, WithEffect(s.slice, e))
  {
    hide RowsAgree, CallsBound, ReturnsStored, ResultsDelivered, Evolves, LeaseOk, WritesOrdered;
    RowEvolves(s.slice, e, s.slice.goal, s.slice.messages);
    RowKeepsRows(c, s.slice.goal.cursor, s.slice.steps, s.slice.effects, e);
    RowKeepsLogs(s.hist.calls, s.hist.successes, s.slice.effects, e);
    RowKeepsDeliveries(s.hist.delivered, s.hist.settledByOperator, s.hist.posted, s.slice.effects, s.slice.messages, e);
    assert WithEffect(s.slice, e) == s.slice.(effects := s.slice.effects[e.step := e], messages := s.slice.messages);
  }

  lemma FlagOk(c: Config, s: Sys, w: WorkerId, why: string)
    requires GlobalOk(c, s) && LocalOk(s, w)
    ensures StepOk(c, s, DoFlag(s, w, why), Some(w))
  {
    hide GlobalOk, StepOk, Evolves;
    if At(s, w).pc.Flag? {
      var k := At(s, w).pc.e.step;
      RowNamed(c, s, k);
      var e := Flagged(s.slice.effects[k], why);
      RowChanges(c, s, e);
      Moves(c, s.(slice := WithEffect(s.slice, e)), w, Fence(Paused, false));
      Assemble(c, s, DoFlag(s, w, why), w, At(s, w).(pc := Fence(Paused, false)));
    } else {
      NoMove(c, s, w);
    }
  }

  lemma RowNamed(c: Config, s: Sys, k: nat)
    requires GlobalOk(c, s) && k in s.slice.effects
    ensures s.slice.effects[k].step == k
  {
  }

  /** Moving one worker changes no row and no log. */
  lemma Moves(c: Config, s: Sys, w: WorkerId, pc: Pc)
    requires GlobalOk(c, s)
    ensures GlobalOk(c, Go(s, w, pc)) && Go(s, w, pc).slice == s.slice && Go(s, w, pc).hist == s.hist
  {
    hide RowsAgree, CallsBound, ReturnsStored, ResultsDelivered, WritesOrdered, LeaseOk, PauseOk, Untouched;
  }

  lemma MarkOk(c: Config, s: Sys, w: WorkerId)
    requires GlobalOk(c, s) && LocalOk(s, w)
    ensures StepOk(c, s, DoMark(s, w), Some(w))
  {
    hide GlobalOk, StepOk, Evolves;
    if At(s, w).pc.Mark? {
      var k := At(s, w).pc.e.step;
      RowNamed(c, s, k);
      var e := Attempted(s.slice.effects[k]);
      RowChanges(c, s, e);
      Moves(c, s.(slice := WithEffect(s.slice, e)), w, Call(At(s, w).pc.e));
      Assemble(c, s, DoMark(s, w), w, At(s, w).(pc := Call(At(s, w).pc.e)));
    } else {
      NoMove(c, s, w);
    }
  }

  lemma CallOk(c: Config, s: Sys, w: WorkerId, o: Outcome, wrote: bool)
    requires GlobalOk(c, s) && LocalOk(s, w)
    ensures StepOk(c, s, DoCall(s, w, o, wrote), Some(w))
  {
    hide RowsAgree, ReturnsStored, ResultsDelivered, Evolves, LeaseOk, WritesOrdered;
    EvolvesReflexive(s.slice);
    if At(s, w).pc.Call? {
      var e := At(s, w).pc.e;
      var call := Invocation(e.step, e.key, e.tool, e.args, s.slice.effects[e.step].status);
      CallLogged(s.hist.calls, s.slice.effects, call);
    }
  }

  lemma CallLogged(calls: seq<Invocation>, effects: map<nat, Effect>, call: Invocation)
    requires CallsBound(calls, effects) && IsCallOf(call, effects)
    ensures CallsBound(calls + [call], effects)
  {
  }

  /** Recording a result delivers exactly one message if it committed the row. */
  lemma RowDelivers(d: map<nat, nat>, byOperator: set<nat>, posted: nat, effects: map<nat, Effect>,
      messages: seq<Message>, e: Effect)
    requires ResultsDelivered(d, byOperator, posted, effects, messages)
    requires e.step in effects && effects[e.step].status == Intent && e.status == Committed
    ensures ResultsDelivered(d[e.step := |messages|], byOperator, posted, effects[e.step := e],
      messages + [ResultMessage(e)])
  {
    hide ResultMessage;
    assert e.step !in d;
    var d' := d[e.step := |messages|];
    assert d'.Keys == d.Keys + {e.step};
    DeliveryAdded(d, effects, messages, e);
  }

  lemma DeliveryAdded(d: map<nat, nat>, effects: map<nat, Effect>, messages: seq<Message>, e: Effect)
    requires Deliveries(d, effects, messages) && Distinct(d) && e.step !in d && e.status == Committed
    ensures Deliveries(d[e.step := |messages|], effects[e.step := e], messages + [ResultMessage(e)])
    ensures Distinct(d[e.step := |messages|])
  {
    hide ResultMessage;
    assert forall k :: k in d ==> IsDelivery(d[k], effects[k], messages);
  }

  lemma ResultRecorded(c: Config, s: Sys, k: nat, o: Outcome)
    requires GlobalOk(c, s) && k in s.slice.effects && s.slice.effects[k].step == k
    requires s.slice.effects[k].status == Intent && o.Ok?
    ensures var hist := s.hist.(delivered := s.hist.delivered[k := |s.slice.messages|]);
            GlobalOk(c, s.(slice := CommitResult(s.slice, k, o), hist := hist))
    ensures Evolves(s.slice, CommitResult(s.slice, k, o))
  {
    hide RowsAgree, CallsBound, ReturnsStored, ResultsDelivered, Evolves, LeaseOk, WritesOrdered;
    var e := Settled(s.slice.effects[k], o);
    var t := CommitResult(s.slice, k, o);
    assert t == s.slice.(effects := s.slice.effects[e.step := e], messages := s.slice.messages + [ResultMessage(e)]);
    RowEvolves(s.slice, e, s.slice.goal, t.messages);
    RowKeepsRows(c, s.slice.goal.cursor, s.slice.steps, s.slice.effects, e);
    RowKeepsLogs(s.hist.calls, s.hist.successes, s.slice.effects, e);
    RowDelivers(s.hist.delivered, s.hist.settledByOperator, s.hist.posted, s.slice.effects, s.slice.messages, e);
  }

  lemma Returned(rs: seq<RunOk>, effects: map<nat, Effect>, e: Effect)
    requires ReturnsStored(rs, effects) && e.step in effects && effects[e.step] == e && e.status == Committed
    ensures ReturnsStored(rs + [RunOk(e.step, e.result)], effects)
  {
    assert forall i :: 0 <= i < |rs| ==> IsStored(rs[i], effects);
  }

  lemma ProceedOk(c: Config, s: Sys, w: WorkerId, pc: Pc)
    requires GlobalOk(c, s)
    requires pc.Advance? ==>
      pc.e.step in s.slice.effects && s.slice.effects[pc.e.step] == pc.e && pc.e.status == Committed
    ensures GlobalOk(c, Proceed(s, w, pc)) && Proceed(s, w, pc).slice == s.slice
    ensures Proceed(s, w, pc).hist.grants == s.hist.grants
    ensures Proceed(s, w, pc).workers == Go(s, w, pc).workers
  {
    if pc.Advance? {
      Returned(s.hist.successes, s.slice.effects, pc.e);
    }
  }

  lemma SettleFinalOk(s: Slice, e: Effect, holding: bool)
    requires e.step in s.effects && s.effects[e.step] == e && Loaded(s, e.step, holding)
    ensures PcOk(s, SettleFinal(e), holding)
  {
  }

  lemma LearnLocal(c: Config, s: Sys, w: WorkerId)
    requires LocalOk(s, w) && At(s, w).pc.Learn?
    ensures At(s, w).pc.e.step in s.slice.effects && Loaded(s.slice, At(s, w).pc.e.step, HoldsLease(s, w))
  {
  }

  lemma RecordOk(c: Config, s: Sys, w: WorkerId)
    requires GlobalOk(c, s) && LocalOk(s, w)
    ensures StepOk(c, s, DoRecord(s, w), Some(w))
  {
    hide GlobalOk, StepOk, Evolves, ResultMessage;
    if !At(s, w).pc.Learn? {
      NoMove(c, s, w);
    } else {
      LearnLocal(c, s, w);
      hide PcOk;
      var k, o := At(s, w).pc.e.step, At(s, w).pc.outcome;
      RowNamed(c, s, k);
      var row := s.slice.effects[k];
      var row', slice' := Settled(row, o), CommitResult(s.slice, k, o);
      var first := row.status == Intent && o.Ok?;
      var hist := if first then s.hist.(delivered := s.hist.delivered[k := |s.slice.messages|]) else s.hist;
      if first {
        ResultRecorded(c, s, k, o);
      } else {
        RowChanges(c, s, row');
        assert slice' == WithEffect(s.slice, row');
      }
      ProceedOk(c, s.(slice := slice', hist := hist), w, SettleFinal(row'));
      SettleFinalOk(slice', row', HoldsLease(s, w));
      Assemble(c, s, DoRecord(s, w), w, At(s, w).(pc := SettleFinal(row')));
    }
  }

  // ---- fenced writes ------------------------------------------------------------------------------

  lemma WriteLogged(ws: seq<FencedWrite>, grants: seq<WorkerId>, g: Goal, x: FencedWrite)
    requires WritesOrdered(ws, grants) && LeaseOk(g, grants) && Holds(g, x.worker, x.epoch)
    ensures WritesOrdered(ws + [x], grants)
  {
  }

  /** A new row at the cursor, bound to the call its key was computed from. */
  lemma IntentInserted(c: Config, s: Sys, w: WorkerId, k: nat, tool: string, args: Json)
    requires GlobalOk(c, s) && HoldsLease(s, w) && k == s.slice.goal.cursor && k !in s.slice.effects && WellFormed(args)
    ensures GlobalOk(c, InsertIntent(c, s, w, k, tool, args))
    ensures Evolves(s.slice, InsertIntent(c, s, w, k, tool, args).slice)
  {
    hide WritesOrdered, RowsAgree, CallsBound, ReturnsStored, ResultsDelivered, KeyOf;
    var e := NewEffect(KeyOf(tool, args, c.goal, k), k, tool, args);
    WriteLogged(s.hist.writes, s.hist.grants, s.slice.goal, FencedWrite(At(s, w).epoch, w));
    RowAdded(c, s.slice.goal.cursor, s.slice.steps, s.slice.effects, e);
    RowAddedToLogs(s.hist, s.slice.effects, s.slice.messages, e);
  }

  lemma RowAdded(c: Config, cursor: nat, steps: map<nat, StepRow>, effects: map<nat, Effect>, e: Effect)
    requires RowsAgree(c, cursor, steps, effects) && e.step == cursor && e.step !in effects && Bound(c, e.step, e)
    ensures RowsAgree(c, cursor, steps, effects[e.step := e])
  {
    hide KeyOf;
  }

  lemma RowAddedToLogs(h: History, effects: map<nat, Effect>, messages: seq<Message>, e: Effect)
    requires CallsBound(h.calls, effects) && ReturnsStored(h.successes, effects)
    requires ResultsDelivered(h.delivered, h.settledByOperator, h.posted, effects, messages)
    requires e.step !in effects && e.status == Intent
    ensures CallsBound(h.calls, effects[e.step := e]) && ReturnsStored(h.successes, effects[e.step := e])
    ensures ResultsDelivered(h.delivered, h.settledByOperator, h.posted, effects[e.step := e], messages)
  {
    assert forall i :: 0 <= i < |h.successes| ==> IsStored(h.successes[i], effects);
    assert forall i :: 0 <= i < |h.calls| ==> IsCallOf(h.calls[i], effects);
  }

  lemma IntentOk(c: Config, s: Sys, w: WorkerId)
    requires GlobalOk(c, s) && LocalOk(s, w)
    ensures StepOk(c, s, DoCommitIntent(c, s, w), Some(w))
  {
    hide GlobalOk, StepOk, Evolves, KeyOf;
    var pc := At(s, w).pc;
    if !pc.Intend? && !pc.Request? {
      NoMove(c, s, w);
    } else if !HoldsLease(s, w) {
      GoOk(c, s, w, Leave);
    } else if pc.step !in s.slice.effects {
      IntentInserted(c, s, w, pc.step, pc.tool, pc.args);
      var s' := InsertIntent(c, s, w, pc.step, pc.tool, pc.args);
      var e := s'.slice.effects[pc.step];
      var pc' := if pc.Intend? then Authorize(e) else Flag(e);
      Moves(c, s', w, pc');
      Assemble(c, s, DoCommitIntent(c, s, w), w, At(s, w).(pc := pc'));
    } else if pc.Request? {
      GoOk(c, s, w, Fence(Paused, false));
    } else {
      SettleOk(c, s, w, s.slice.effects[pc.step]);
    }
  }

  lemma SettleOk(c: Config, s: Sys, w: WorkerId, e: Effect)
    requires GlobalOk(c, s) && LocalOk(s, w) && At(s, w).pc.Intend?
    requires HoldsLease(s, w) && At(s, w).pc.step in s.slice.effects && e == s.slice.effects[At(s, w).pc.step]
    ensures StepOk(c, s, DoCommitIntent(c, s, w), Some(w))
  {
    hide GlobalOk, StepOk, Evolves, KeyOf;
    RowNamed(c, s, At(s, w).pc.step);
    EvolvesReflexive(s.slice);
    if e.key != KeyOf(At(s, w).pc.tool, At(s, w).pc.args, c.goal, At(s, w).pc.step) {
      GoOk(c, s, w, Leave);
    } else {
      ProceedOk(c, s, w, Settle(c, e));
      Assemble(c, s, DoCommitIntent(c, s, w), w, At(s, w).(pc := Settle(c, e)));
    }
  }

  /** The cursor's step row copies the committed effect the worker holds. */
  lemma StepCommitted(c: Config, s: Slice, e: Effect, goal: Goal)
    requires RowsAgree(c, s.goal.cursor, s.steps, s.effects)
    requires e.step == s.goal.cursor && e.step in s.effects && s.effects[e.step] == e && e.status == Committed
    ensures RowsAgree(c, s.goal.cursor + 1, CommitStep(s, e).steps, s.effects)
    ensures Evolves(s, CommitStep(s, e))
  {
    hide KeyOf;
  }

  lemma AdvanceKeeps(c: Config, s: Sys, w: WorkerId, e: Effect)
    requires GlobalOk(c, s) && HoldsLease(s, w)
    requires e.step == s.slice.goal.cursor && e.step in s.slice.effects && s.slice.effects[e.step] == e
      && e.status == Committed
    ensures GlobalOk(c, LogWrite(s, w).(slice := CommitStep(s.slice, e)))
    ensures Evolves(s.slice, CommitStep(s.slice, e))
  {
    hide RowsAgree, CallsBound, ReturnsStored, ResultsDelivered, WritesOrdered, Evolves;
    WriteLogged(s.hist.writes, s.hist.grants, s.slice.goal, FencedWrite(At(s, w).epoch, w));
    StepCommitted(c, s.slice, e, s.slice.goal);
  }

  /** Continuing the driver loop is a move of one worker too. */
  lemma LoopKeeps(c: Config, s: Sys, w: WorkerId)
    requires GlobalOk(c, s)
    ensures GlobalOk(c, Next(s, w)) && Next(s, w).slice == s.slice && Next(s, w).hist == s.hist
  {
    hide RowsAgree, CallsBound, ReturnsStored, ResultsDelivered, WritesOrdered, LeaseOk, PauseOk, Untouched;
  }

  lemma AdvanceLocal(s: Sys, w: WorkerId)
    requires LocalOk(s, w) && At(s, w).pc.Advance?
    ensures var e := At(s, w).pc.e;
            e.step in s.slice.effects && s.slice.effects[e.step] == e && e.status == Committed
  {
  }

  lemma AdvanceOk(c: Config, s: Sys, w: WorkerId)
    requires GlobalOk(c, s) && LocalOk(s, w)
    ensures StepOk(c, s, DoAdvance(s, w), Some(w))
  {
    hide GlobalOk, StepOk, Evolves;
    match At(s, w).pc
    case Advance(e) =>
      AdvanceLocal(s, w);
      hide PcOk;
      PlainPcOk(s.slice, Leave, HoldsLease(s, w));
      if !HoldsLease(s, w) || s.slice.goal.cursor != e.step || e.step in s.slice.steps {
        GoOk(c, s, w, Leave);
      } else {
        AdvanceKeeps(c, s, w, e);
        PlainPcOk(CommitStep(s.slice, e), Head, HoldsLease(s, w));
        LoopKeeps(c, LogWrite(s, w).(slice := CommitStep(s.slice, e)), w);
        Assemble(c, s, DoAdvance(s, w), w, At(s, w).(pc := Head, iter := At(s, w).iter + 1));
      }
    case _ => NoMove(c, s, w);
  }

  lemma TransitionKeeps(c: Config, s: Sys, w: WorkerId, to: State)
    requires GlobalOk(c, s) && HoldsLease(s, w) && CanTransition(s.slice.goal.state, to)
    ensures GlobalOk(c, Transit(LogWrite(s, w), to))
    ensures Evolves(s.slice, WithGoal(s.slice, Moved(s.slice.goal, to)))
    ensures Transit(LogWrite(s, w), to).slice == WithGoal(s.slice, Moved(s.slice.goal, to))
    ensures Moved(s.slice.goal, to).cursor == s.slice.goal.cursor
    ensures Transit(LogWrite(s, w), to).hist.grants == s.hist.grants
    ensures Transit(LogWrite(s, w), to).workers == s.workers
  {
    hide RowsAgree, CallsBound, ReturnsStored, ResultsDelivered, WritesOrdered, Evolves;
    WriteLogged(s.hist.writes, s.hist.grants, s.slice.goal, FencedWrite(At(s, w).epoch, w));
    GoalEvolves(s.slice, Moved(s.slice.goal, to));
    TransitOk(c, LogWrite(s, w), to);
  }

  lemma TransitionOk(c: Config, s: Sys, w: WorkerId)
    requires GlobalOk(c, s) && LocalOk(s, w)
    ensures StepOk(c, s, DoTransition(s, w), Some(w))
  {
    hide GlobalOk, StepOk, Evolves, CanTransition, Moved, Transit, LogWrite, PcOk;
    match At(s, w).pc
    case Fence(to, again) =>
      PlainPcOk(s.slice, Leave, HoldsLease(s, w));
      if !HoldsLease(s, w) || !CanTransition(s.slice.goal.state, to) {
        GoOk(c, s, w, Leave);
      } else {
        TransitionKeeps(c, s, w, to);
        var s' := Transit(LogWrite(s, w), to);
        PlainPcOk(s'.slice, if again then Head else Leave, Holds(s'.slice.goal, w, At(s, w).epoch));
        if again {
          LoopKeeps(c, s', w);
          Assemble(c, s, DoTransition(s, w), w, At(s, w).(pc := Head, iter := At(s, w).iter + 1));
        } else {
          Moves(c, s', w, Leave);
          Assemble(c, s, DoTransition(s, w), w, At(s, w).(pc := Leave));
        }
      }
    case _ => NoMove(c, s, w);
  }

  lemma ReleaseOk(c: Config, s: Sys, w: WorkerId)
    requires GlobalOk(c, s) && LocalOk(s, w)
    ensures StepOk(c, s, DoRelease(s, w), Some(w))
  {
    hide GlobalOk, StepOk, Evolves;
    if At(s, w).pc != Leave {
      NoMove(c, s, w);
    } else {
      LeaseMove(c, s, DoRelease(s, w), Some(w));
    }
  }

  lemma HeartbeatOk(c: Config, s: Sys, w: WorkerId)
    requires GlobalOk(c, s) && LocalOk(s, w)
    ensures StepOk(c, s, DoHeartbeat(s, w), None)
  {
    hide GlobalOk, StepOk, Evolves;
    LeaseMove(c, s, DoHeartbeat(s, w), None);
  }

  // ---- operators and other senders --------------------------------------------------------------

  lemma SignalsOk(c: Config, s: Sys, to: State, t: Sys)
    requires GlobalOk(c, s)
    requires t == DoSignal(s, to) || t == DoResumeWrite(s, to)
    ensures StepOk(c, s, t, None)
  {
    hide RowsAgree, CallsBound, ReturnsStored, ResultsDelivered, WritesOrdered, LeaseOk, Evolves;
    if t == s {
      EvolvesReflexive(s.slice);
    } else {
      TransitOk(c, s, to);
      LeasesLive(s.slice.goal, s.hist.grants);
      GoalEvolves(s.slice, Moved(s.slice.goal, to));
    }
  }

  lemma LeasesLive(g: Goal, grants: seq<WorkerId>)
    requires LeaseOk(g, grants)
    ensures g.owner.Some? ==> Runnable(g.state)
  {
  }

  lemma ResolveOk(c: Config, s: Sys, k: nat, how: Resolution, r: Option<Json>)
    requires GlobalOk(c, s)
    ensures StepOk(c, s, DoResolve(s, k, how, r), None)
  {
    hide RowsAgree, CallsBound, ReturnsStored, ResultsDelivered, WritesOrdered, LeaseOk, Evolves;
    if DoResolve(s, k, how, r) == s {
      EvolvesReflexive(s.slice);
    } else {
      RowNamed(c, s, k);
      var e := Resolved(s.slice.effects[k], how, r);
      RowEvolves(s.slice, e, s.slice.goal, s.slice.messages);
      assert WithEffect(s.slice, e) == s.slice.(effects := s.slice.effects[e.step := e], messages := s.slice.messages);
      RowKeepsRows(c, s.slice.goal.cursor, s.slice.steps, s.slice.effects, e);
      RowKeepsLogs(s.hist.calls, s.hist.successes, s.slice.effects, e);
      RowResolves(s.hist.delivered, s.hist.settledByOperator, s.hist.posted, s.slice.effects, s.slice.messages, e);
    }
  }

  lemma RowResolves(
    d: map<nat, nat>, byOperator: set<nat>, posted: nat, effects: map<nat, Effect>, messages: seq<Message>, e: Effect)
    requires ResultsDelivered(d, byOperator, posted, effects, messages) && RowStep(effects, e)
    requires effects[e.step].status == NeedsReview
    ensures var settled := if e.status == Committed then byOperator + {e.step} else byOperator;
            ResultsDelivered(d, settled, posted, effects[e.step := e], messages)
  {
    assert e.step !in d && e.step !in byOperator;
  }

  lemma PostOk(c: Config, s: Sys, source: Source, body: Json)
    requires GlobalOk(c, s)
    ensures StepOk(c, s, DoPost(s, source, body), None)
  {
    hide RowsAgree, CallsBound, ReturnsStored, WritesOrdered, LeaseOk, Covered, Distinct;
    var m := Message(source, source == Operator, body);
    MessageAdded(s.hist.delivered, s.slice.effects, s.slice.messages, m);
  }

  lemma MessageAdded(d: map<nat, nat>, effects: map<nat, Effect>, messages: seq<Message>, m: Message)
    requires Deliveries(d, effects, messages)
    ensures Deliveries(d, effects, messages + [m])
  {
    hide ResultMessage;
    assert forall k :: k in d ==> IsDelivery(d[k], effects[k], messages);
  }

  lemma ResumeReadOk(c: Config, s: Sys)
    requires GlobalOk(c, s)
    ensures StepOk(c, s, DoResumeRead(s), None)
  {
    hide RowsAgree, CallsBound, ReturnsStored, ResultsDelivered, WritesOrdered, LeaseOk, Evolves;
    EvolvesReflexive(s.slice);
  }

  // ---- every action, every run ------------------------------------------------------------------

  lemma ActionKeepsInv(c: Config, s: Sys, a: Action)
    requires Inv(c, s)
    ensures Inv(c, Apply(c, s, a))
    ensures Evolves(s.slice, Apply(c, s, a).slice) && s.hist.grants <= Apply(c, s, a).hist.grants
  {
    hide GlobalOk, StepOk, Evolves, LocalOk;
    var t := Apply(c, s, a);
    match a
    case Do(w, op) =>
      assert LocalOk(s, w);
      WorkOk(c, s, w, op);
      StepKeeps(c, s, t, if op.Heartbeat? then None else Some(w));
    case Signal(to) => SignalsOk(c, s, to, t); StepKeeps(c, s, t, None);
    case ResumeRead => ResumeReadOk(c, s); StepKeeps(c, s, t, None);
    case ResumeWrite(to) => SignalsOk(c, s, to, t); StepKeeps(c, s, t, None);
    case Resolve(k, how, r) => ResolveOk(c, s, k, how, r); StepKeeps(c, s, t, None);
    case Post(source, body) => PostOk(c, s, source, body); StepKeeps(c, s, t, None);
    case Expire => LeaseMove(c, s, t, None); StepKeeps(c, s, t, None);
  }

  lemma WorkOk(c: Config, s: Sys, w: WorkerId, op: Op)
    requires GlobalOk(c, s) && LocalOk(s, w)
    ensures StepOk(c, s, Work(c, s, w, op), if op.Heartbeat? then None else Some(w))
  {
    hide GlobalOk, StepOk, LocalOk;
    match op
    case Claim => ClaimOk(c, s, w);
    case Heartbeat => HeartbeatOk(c, s, w);
    case Load(known) => LoadOk(c, s, w, known);
    case CommitIntent => IntentOk(c, s, w);
    case FlagReview(why) => FlagOk(c, s, w, why);
    case MarkAttempt => MarkOk(c, s, w);
    case CallTool(o, wrote) => CallOk(c, s, w, o, wrote);
    case RecordResult => RecordOk(c, s, w);
    case AdvanceCursor => AdvanceOk(c, s, w);
    case Transition => TransitionOk(c, s, w);
    case Release => ReleaseOk(c, s, w);
    case Verify(ok) => VerifyOk(c, s, w, ok);
    case Crash => CrashOk(c, s, w);
    case _ => ReadsOk(c, s, w, op);
  }

  lemma StepKeeps(c: Config, s: Sys, t: Sys, actor: Option<WorkerId>)
    requires Inv(c, s) && StepOk(c, s, t, actor)
    ensures Inv(c, t) && Evolves(s.slice, t.slice) && s.hist.grants <= t.hist.grants
  {
    StepKeepsInv(c, s, t, actor);
  }

  lemma InitInv(c: Config)
    ensures Inv(c, INIT)
  {
  }

  /** In every reachable state the invariant holds, and rows only ever evolve. */
  lemma {:induction false} RunKeepsInv(c: Config, s: Sys, acts: seq<Action>)
    requires Inv(c, s)
    ensures Inv(c, Run(c, s, acts)) && Evolves(s.slice, Run(c, s, acts).slice)
    decreases |acts|
  {
    hide Inv, Evolves;
    if acts == [] {
      EvolvesReflexive(s.slice);
    } else {
      var t := Apply(c, s, acts[0]);
      ActionKeepsInv(c, s, acts[0]);
      RunKeepsInv(c, t, acts[1..]);
      EvolvesTransitive(s.slice, t.slice, Run(c, s, acts).slice);
    }
  }
}
