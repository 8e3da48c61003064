/**
 A demo.writer goal whose fs.append calls go through the protocol: its plan, its effect rows and the log
 of its appends agree at every step, however often its workers crash. WriterFiles ties the log to files.

 Hypotheses, all on the environment: crash-stop claims, probes that answer truly and do not break, appends
 that succeed only with usable arguments and write nothing when they fail, and the agent is demo.writer.
*/
module EndToEnd {
  import opened CrashStop
  import opened Demo
  import opened Fsm
  import opened Goals
  import opened Invariants
  import opened Json
  import opened Key
  import opened Protocol
  import opened Wrappers

  // ---- hypotheses -------------------------------------------------------------------------------

  ghost predicate WriterStep(input: WriterInput, s: Sys, a: Action) {
    && CrashStopStep(s, a)
    && SoundStep(s, a)
    && (a.Do? ==>
          match a.op
          case Decide(d) => At(s, a.w).pc.Ask? ==> d == WriterNext(input, At(s, a.w).pc.ctx)
          case Verify(ok) => At(s, a.w).pc.Judge? ==> ok == WriterVerifies(input, At(s, a.w).pc.ctx)
          case AskProbe(answer) => At(s, a.w).pc.Probe? ==> answer != Broken
          case CallTool(o, wrote) =>
            At(s, a.w).pc.Call? ==> wrote == o.Ok? && (o.Ok? ==> Usable(At(s, a.w).pc.e.args))
          case _ => true)
  }

  ghost predicate WriterRun(c: Config, input: WriterInput, s: Sys, acts: seq<Action>)
    decreases |acts|
  {
    acts == [] || (WriterStep(input, s, acts[0]) && WriterRun(c, input, Apply(c, s, acts[0]), acts[1..]))
  }

  // ---- invariant --------------------------------------------------------------------------------

  predicate PlannedCall(input: WriterInput, ms: seq<Message>, k: nat, tool: string, args: Json) {
    tool == APPEND && k < |PlanOf(input, ms)| && args == LineArgs(input.file, PlanOf(input, ms)[k])
  }

  /** Every effect row appends the line planned for its step. */
  ghost predicate RowsPlanned(input: WriterInput, ms: seq<Message>, effects: map<nat, Effect>) {
    forall k :: k in effects ==> PlannedCall(input, ms, k, effects[k].tool, effects[k].args)
  }

  /** The goal's entries in the world are those of steps 0, 1, 2, … in order. */
  ghost predicate InOrder(world: seq<Applied>, effects: map<nat, Effect>) {
    forall i :: 0 <= i < |world| ==> IsEntryOf(world[i], i, effects)
  }

  predicate IsEntryOf(x: Applied, i: nat, effects: map<nat, Effect>) {
    i in effects && x == Applied(i, effects[i].key, effects[i].tool, effects[i].args)
  }

  /** How much of the plan is in the file, from the cursor's row. */
  predicate FileAtCursor(n: nat, cursor: nat, effects: map<nat, Effect>) {
    && cursor <= n <= cursor + 1
    && (cursor !in effects ==> n == cursor)
    && (cursor in effects ==>
          match effects[cursor].status
          case Committed => n == cursor + 1
          case Failed => n == cursor
          case Intent => effects[cursor].attempts == 0 ==> n == cursor
          case NeedsReview => false)
  }

  /** An accepted verdict read a plan of exactly the committed length. */
  ghost predicate Verified(input: WriterInput, s: Sys) {
    && s.slice.goal.cursor !in s.slice.effects
    && exists i ::
         0 <= i < |s.hist.verdicts| && IsVerdict(input, s.slice.goal.cursor, s.slice.messages, s.hist.verdicts[i])
  }

  predicate IsVerdict(input: WriterInput, cursor: nat, ms: seq<Message>, ctx: Context) {
    ctx.messages <= ms && |PlanOf(input, ctx.messages)| == cursor
  }

  ghost predicate JudgeOk(input: WriterInput, s: Sys, ctx: Context) {
    && |ctx.history| == s.slice.goal.cursor
    && s.slice.goal.cursor <= |PlanOf(input, ctx.messages)|
    && (s.slice.goal.cursor in s.slice.effects ==> s.slice.goal.cursor < |PlanOf(input, ctx.messages)|)
  }

  ghost predicate PcPlanned(input: WriterInput, s: Sys, w: WorkerId) {
    var n, k := |s.world|, s.slice.goal.cursor;
    match At(s, w).pc
    case Judge(ctx) => HoldsLease(s, w) ==> JudgeOk(input, s, ctx)
    case Intend(j, tool, args) => PlannedCall(input, s.slice.messages, j, tool, args)
    case Request(_, _, _) => false
    case Flag(_) => false
    case Probe(e) => e.step == k
    case Authorize(e) => e.step == k == n
    case Mark(e) => e.step == k == n
    case Call(e) => e.step == k == n
    case Learn(e, o) => e.step == k && n == if o.Ok? then k + 1 else k
    case Fence(to, _) => to == Done && HoldsLease(s, w) ==> Verified(input, s)
    case _ => true
  }

  ghost predicate GlobalPlanned(input: WriterInput, s: Sys) {
    && RowsPlanned(input, s.slice.messages, s.slice.effects)
    && InOrder(s.world, s.slice.effects)
    && FileAtCursor(|s.world|, s.slice.goal.cursor, s.slice.effects)
    && (s.slice.goal.state == Done ==> Verified(input, s))
  }

  ghost predicate Planned(c: Config, input: WriterInput, s: Sys) {
    && APPEND in c.probers
    && Exclusive(c, s)
    && GlobalPlanned(input, s)
    && forall w: WorkerId :: PcPlanned(input, s, w)
  }

  // ---- frame ------------------------------------------------------------------------------------

  ghost predicate PlanFrame(s: Sys, t: Sys, actor: Option<WorkerId>) {
    && s.slice.messages <= t.slice.messages
    && s.hist.verdicts <= t.hist.verdicts
    && forall v: WorkerId :: actor != Some(v) ==> OtherKept(s, t, v)
  }

  ghost predicate OtherKept(s: Sys, t: Sys, v: WorkerId) {
    && At(t, v) == At(s, v)
    && (At(s, v).pc != Idle && HoldsLease(t, v) ==>
          && HoldsLease(s, v)
          && t.slice.goal.cursor == s.slice.goal.cursor
          && t.slice.effects.Keys == s.slice.effects.Keys)
    && (Unfenced(At(s, v).pc) ==> t.slice.goal.cursor == s.slice.goal.cursor && |t.world| == |s.world|)
  }

  lemma OtherPlanned(input: WriterInput, s: Sys, t: Sys, v: WorkerId)
    requires PcPlanned(input, s, v) && OtherKept(s, t, v)
    requires s.slice.messages <= t.slice.messages && s.hist.verdicts <= t.hist.verdicts
    ensures PcPlanned(input, t, v)
  {
    PlanGrows(input, s.slice.messages, t.slice.messages);
    match At(s, v).pc
    case Fence(to, _) =>
      if to == Done && HoldsLease(t, v) {
        VerdictKept(input, s, t);
      }
    case _ =>
  }

  lemma VerdictKept(input: WriterInput, s: Sys, t: Sys)
    requires Verified(input, s)
    requires t.slice.goal.cursor == s.slice.goal.cursor && t.slice.effects.Keys == s.slice.effects.Keys
    requires s.slice.messages <= t.slice.messages && s.hist.verdicts <= t.hist.verdicts
    ensures Verified(input, t)
  {
    var i :| 0 <= i < |s.hist.verdicts| && IsVerdict(input, s.slice.goal.cursor, s.slice.messages, s.hist.verdicts[i]);
    assert t.hist.verdicts[i] == s.hist.verdicts[i];
    assert IsVerdict(input, t.slice.goal.cursor, t.slice.messages, t.hist.verdicts[i]);
  }

  ghost predicate PlanStep(input: WriterInput, s: Sys, t: Sys, actor: Option<WorkerId>) {
    GlobalPlanned(input, t) && PlanFrame(s, t, actor) && (actor.Some? ==> PcPlanned(input, t, actor.value))
  }

  lemma PlanStepKeeps(c: Config, input: WriterInput, s: Sys, t: Sys, actor: Option<WorkerId>)
    requires Planned(c, input, s) && Exclusive(c, t) && PlanStep(input, s, t, actor)
    ensures Planned(c, input, t)
  {
    hide Exclusive, GlobalPlanned, OtherKept, PcPlanned;
    forall v: WorkerId ensures PcPlanned(input, t, v) {
      if actor != Some(v) {
        assert PcPlanned(input, s, v) && OtherKept(s, t, v);
        OtherPlanned(input, s, t, v);
      }
    }
  }

  // ---- steps that leave rows and file alone -----------------------------------------------------

  ghost predicate Calm(s: Sys, t: Sys, actor: Option<WorkerId>) {
    && t.slice.effects == s.slice.effects
    && t.slice.goal.cursor == s.slice.goal.cursor
    && t.world == s.world
    && s.slice.messages <= t.slice.messages
    && s.hist.verdicts <= t.hist.verdicts
    && forall v: WorkerId :: actor != Some(v) ==>
      At(t, v) == At(s, v) && (HoldsLease(t, v) && At(s, v).pc != Idle ==> HoldsLease(s, v))
  }

  lemma CalmStep(input: WriterInput, s: Sys, t: Sys, actor: Option<WorkerId>)
    requires GlobalPlanned(input, s) && Calm(s, t, actor)
    requires t.slice.goal.state == Done && s.slice.goal.state != Done ==> Verified(input, s)
    requires actor.Some? ==> PcPlanned(input, t, actor.value)
    ensures PlanStep(input, s, t, actor)
  {
    hide PcPlanned, Verified, InOrder, FileAtCursor, PlanOf;
    RowsStayPlanned(input, s.slice.messages, t.slice.messages, s.slice.effects);
    if t.slice.goal.state == Done {
      VerdictKept(input, s, t);
    }
  }

  lemma RowsStayPlanned(input: WriterInput, before: seq<Message>, after: seq<Message>, effects: map<nat, Effect>)
    requires RowsPlanned(input, before, effects) && before <= after
    ensures RowsPlanned(input, after, effects)
  {
    PlanGrows(input, before, after);
    hide PlanOf;
  }

  /** Positions about which the plan says nothing. */
  predicate Free(pc: Pc) {
    pc.Idle? || pc.Head? || pc.Look? || pc.ReadSteps? || pc.ReadMessages? || pc.Ask? || pc.Advance? || pc.Leave?
    || (pc.Fence? && pc.to != Done)
  }

  /** Operations that leave a worker where it was or at a position about which the plan says nothing. */
  predicate EasyOp(op: Op) {
    op.Heartbeat? || op.Claim? || op.Load? || op.ReadHistory? || op.Transition? || op.Release? || op.Fault? || op.Crash?
  }

  lemma EasyIsCalm(c: Config, s: Sys, w: WorkerId, op: Op)
    requires EasyOp(op) && LeaseOk(s.slice.goal, s.hist.grants)
    ensures Calm(s, Work(c, s, w, op), Some(w))
  {
    hide KeyOf, ResultMessage;
    if op.Claim? {
      forall v: WorkerId | v != w
        ensures At(DoClaim(s, w), v) == At(s, v)
          && (HoldsLease(DoClaim(s, w), v) && At(s, v).pc != Idle ==> HoldsLease(s, v))
      {
      }
    } else {
      EasyKeepsOwner(c, s, w, op);
    }
  }

  lemma EasyKeepsOwner(c: Config, s: Sys, w: WorkerId, op: Op)
    requires EasyOp(op) && !op.Claim?
    ensures Calm(s, Work(c, s, w, op), Some(w))
  {
  }

  lemma EasyActor(c: Config, input: WriterInput, s: Sys, w: WorkerId, op: Op)
    requires EasyOp(op) && PcPlanned(input, s, w) && Calm(s, Work(c, s, w, op), Some(w))
    ensures PcPlanned(input, Work(c, s, w, op), w)
  {
    hide Calm, PlanOf, IsVerdict;
    var t := Work(c, s, w, op);
    if op.Heartbeat? {
      assert At(t, w) == At(s, w) && t.hist == s.hist && t.slice.goal.cursor == s.slice.goal.cursor;
      assert HoldsLease(t, w) == HoldsLease(s, w);
      assert Verified(input, t) == Verified(input, s);
    } else {
      assert t == s || Free(At(t, w).pc);
    }
  }

  lemma EasyStep(c: Config, input: WriterInput, s: Sys, w: WorkerId, op: Op)
    requires Planned(c, input, s) && EasyOp(op)
    ensures PlanStep(input, s, Work(c, s, w, op), Some(w))
  {
    hide GlobalPlanned, Verified, PcOk, RowsAgree, CallsBound, ResultsDelivered, InDoubtOk, CountsOk, LogsOk;
    assert PcPlanned(input, s, w);
    EasyIsCalm(c, s, w, op);
    EasyActor(c, input, s, w, op);
    EasyEnds(c, input, s, w, op);
    hide Work, Exclusive, PcPlanned;
    CalmStep(input, s, Work(c, s, w, op), Some(w));
  }

  lemma EasyEnds(c: Config, input: WriterInput, s: Sys, w: WorkerId, op: Op)
    requires PcPlanned(input, s, w) && EasyOp(op)
    ensures Work(c, s, w, op).slice.goal.state == Done && s.slice.goal.state != Done ==> Verified(input, s)
  {
    hide Verified;
  }

  /** Signals, resumes, messages and the clock. */
  lemma OutsideStep(c: Config, input: WriterInput, s: Sys, a: Action)
    requires Planned(c, input, s) && !a.Do? && !a.Resolve?
    ensures PlanStep(input, s, Apply(c, s, a), None)
  {
    hide GlobalPlanned, Verified, PcPlanned, LocalOk, RowsAgree;
    hide CallsBound, ResultsDelivered, InDoubtOk, CountsOk, LogsOk;
    var t := Apply(c, s, a);
    assert Calm(s, t, None);
    CalmStep(input, s, t, None);
  }

  /** No row of this goal ever waits for review, so there is nothing for the operator to resolve. */
  lemma NoneInReview(c: Config, s: Sys, k: nat)
    requires RowsAgree(c, s.slice.goal.cursor, s.slice.steps, s.slice.effects)
    requires FileAtCursor(|s.world|, s.slice.goal.cursor, s.slice.effects) && k in s.slice.effects
    ensures s.slice.effects[k].status != NeedsReview
  {
    assert k < s.slice.goal.cursor ==> k in s.slice.steps;
  }

  lemma ResolveStep(c: Config, input: WriterInput, s: Sys, a: Action)
    requires Planned(c, input, s) && a.Resolve?
    ensures PlanStep(input, s, Apply(c, s, a), None)
  {
    if a.step in s.slice.effects {
      NoneInReview(c, s, a.step);
    }
    assert Apply(c, s, a) == s;
    hide Exclusive, PcPlanned, GlobalPlanned, Apply, Verified;
    SameCalm(s, None);
    CalmStep(input, s, s, None);
  }

  // ---- reading and deciding -----------------------------------------------------------------------

  lemma LookUpStep(c: Config, input: WriterInput, s: Sys, w: WorkerId)
    requires Planned(c, input, s)
    ensures PlanStep(input, s, DoLookUp(s, w), Some(w))
  {
    hide Verified, Exclusive, InOrder, FileAtCursor, PlanOf;
    assert PcPlanned(input, s, w);
    CalmStep(input, s, DoLookUp(s, w), Some(w));
  }

  lemma {:induction false} Counted(steps: map<nat, StepRow>, n: nat)
    requires forall k: nat :: k in steps <==> k < n
    ensures |steps| == n
  {
    if n == 0 {
      assert steps == map[];
    } else {
      var rest := steps - {n - 1};
      Counted(rest, n - 1);
      assert steps.Keys == rest.Keys + {n - 1};
    }
  }

  /** What Verify is shown under the lease: every committed step, and a plan at least that long. */
  lemma JudgeReads(c: Config, input: WriterInput, s: Sys, history: map<nat, StepRow>)
    requires RowsAgree(c, s.slice.goal.cursor, s.slice.steps, s.slice.effects)
    requires RowsPlanned(input, s.slice.messages, s.slice.effects) && history == s.slice.steps
    ensures JudgeOk(input, s, Context(s.slice.goal.cursor, history, s.slice.messages))
  {
    var n := s.slice.goal.cursor;
    Counted(history, n);
    if n > 0 {
      assert n - 1 in s.slice.steps;
      assert PlannedCall(input, s.slice.messages, n - 1, s.slice.effects[n - 1].tool, s.slice.effects[n - 1].args);
    }
  }

  lemma ReadMailStep(c: Config, input: WriterInput, s: Sys, w: WorkerId)
    requires Planned(c, input, s)
    ensures PlanStep(input, s, DoReadMail(s, w), Some(w))
  {
    hide Verified, InOrder, FileAtCursor, PlanOf, InDoubtOk;
    hide CountsOk, LogsOk, CallsBound, ResultsDelivered, ReturnsStored;
    assert PcPlanned(input, s, w) && LocalOk(s, w);
    var t := DoReadMail(s, w);
    if At(s, w).pc.ReadMessages? && HoldsLease(s, w) {
      JudgeReads(c, input, s, At(s, w).pc.history);
    }
    hide RowsAgree, RowsPlanned;
    CalmStep(input, s, t, Some(w));
  }

  lemma DecideStep(c: Config, input: WriterInput, s: Sys, w: WorkerId, d: Decision)
    requires Planned(c, input, s) && WriterStep(input, s, Do(w, Decide(d)))
    ensures PlanStep(input, s, DoDecide(s, w, d), Some(w))
  {
    hide Verified, GlobalPlanned, RowsAgree, PlanOf, InDoubtOk, CountsOk, LogsOk, GlobalOk;
    assert PcPlanned(input, s, w) && LocalOk(s, w);
    if At(s, w).pc.Ask? {
      PlanGrows(input, At(s, w).pc.ctx.messages, s.slice.messages);
    }
    CalmStep(input, s, DoDecide(s, w, d), Some(w));
  }

  lemma VerifyStep(c: Config, input: WriterInput, s: Sys, w: WorkerId, ok: bool)
    requires Planned(c, input, s) && WriterStep(input, s, Do(w, Verify(ok)))
    ensures PlanStep(input, s, DoVerify(s, w, ok), Some(w))
  {
    hide GlobalPlanned, RowsAgree, PlanOf, InDoubtOk, CountsOk, LogsOk, GlobalOk;
    assert PcPlanned(input, s, w) && LocalOk(s, w);
    var t := DoVerify(s, w, ok);
    if At(s, w).pc.Judge? && ok && HoldsLease(s, w) {
      assert IsVerdict(input, s.slice.goal.cursor, s.slice.messages, t.hist.verdicts[|s.hist.verdicts|]);
    }
    hide Verified;
    CalmStep(input, s, t, Some(w));
  }

  // ---- the two-phase commit -----------------------------------------------------------------------

  lemma IntentStep(c: Config, input: WriterInput, s: Sys, w: WorkerId)
    requires Planned(c, input, s)
    ensures PlanStep(input, s, DoCommitIntent(c, s, w), Some(w))
  {
    hide Exclusive, GlobalPlanned, Verified;
    var pc := At(s, w).pc;
    assert PcPlanned(input, s, w);
    if pc.Intend? && pc.step !in s.slice.effects && HoldsLease(s, w) {
      InsertStep(c, input, s, w);
    } else {
      SettleStep(c, input, s, w);
    }
  }

  lemma SettleStep(c: Config, input: WriterInput, s: Sys, w: WorkerId)
    requires Planned(c, input, s)
    requires At(s, w).pc.Intend? ==> At(s, w).pc.step in s.slice.effects || !HoldsLease(s, w)
    ensures PlanStep(input, s, DoCommitIntent(c, s, w), Some(w))
  {
    hide Verified, Exclusive, GlobalPlanned;
    assert PcPlanned(input, s, w);
    var t := DoCommitIntent(c, s, w);
    SettleMoves(c, s, w);
    hide DoCommitIntent, Calm;
    if At(t, w).pc == Leave || t == s {
      FreeOrSame(input, s, t, w);
    } else {
      SettledPlanned(c, input, s, t, w);
    }
    hide PcPlanned;
    CalmStep(input, s, t, Some(w));
  }

  /** Taking up an existing row changes no row: the worker leaves, or goes where the row's status sends it. */
  lemma SettleMoves(c: Config, s: Sys, w: WorkerId)
    requires !At(s, w).pc.Request?
    requires At(s, w).pc.Intend? ==> At(s, w).pc.step in s.slice.effects || !HoldsLease(s, w)
    ensures var t := DoCommitIntent(c, s, w);
            && Calm(s, t, Some(w)) && t.slice == s.slice
            && (t == s || At(t, w).pc == Leave ||
                (At(s, w).pc.Intend? && HoldsLease(s, w)
                  && At(t, w).pc == Settle(c, s.slice.effects[At(s, w).pc.step])))
  {
    hide KeyOf;
  }

  lemma FreeOrSame(input: WriterInput, s: Sys, t: Sys, w: WorkerId)
    requires PcPlanned(input, s, w) && (At(t, w).pc == Leave || t == s)
    ensures PcPlanned(input, t, w)
  {
  }

  lemma SettledPlanned(c: Config, input: WriterInput, s: Sys, t: Sys, w: WorkerId)
    requires Planned(c, input, s) && t.slice == s.slice && t.world == s.world
    requires At(s, w).pc.Intend? && HoldsLease(s, w) && At(s, w).pc.step in s.slice.effects
    requires At(t, w).pc == Settle(c, s.slice.effects[At(s, w).pc.step])
    ensures PcPlanned(input, t, w)
  {
    hide Verified, PlanOf, KeyOf, CallsBound, ReturnsStored;
    hide ResultsDelivered, WritesOrdered, InOrder, InDoubtOk, CountsOk, LogsOk;
    assert LocalOk(s, w);
    var k := s.slice.goal.cursor;
    assert Bound(c, k, s.slice.effects[k])
      && PlannedCall(input, s.slice.messages, k, s.slice.effects[k].tool, s.slice.effects[k].args);
  }

  /** A first intent: only the row of the cursor's step appears and only `w` moves. */
  lemma InsertShape(c: Config, s: Sys, w: WorkerId)
    requires Exclusive(c, s) && At(s, w).pc.Intend? && At(s, w).pc.step !in s.slice.effects && HoldsLease(s, w)
    ensures var t, pc := DoCommitIntent(c, s, w), At(s, w).pc;
            var e := NewEffect(KeyOf(pc.tool, pc.args, c.goal, pc.step), pc.step, pc.tool, pc.args);
            && pc.step == s.slice.goal.cursor && Runnable(s.slice.goal.state)
            && t.slice == s.slice.(effects := s.slice.effects[pc.step := e])
            && t.world == s.world && t.hist.verdicts == s.hist.verdicts
            && t.workers == s.workers[w := At(s, w).(pc := Authorize(e))]
  {
    hide KeyOf, RowsAgree, CallsBound, ReturnsStored, ResultsDelivered, WritesOrdered, InDoubtOk, CountsOk, LogsOk;
    assert LocalOk(s, w);
  }

  /** A fenced write frames every other worker: none of them holds the lease or is in doubt. */
  lemma OwnerFrame(c: Config, s: Sys, t: Sys, w: WorkerId)
    requires Exclusive(c, s) && HoldsLease(s, w)
    requires s.slice.messages <= t.slice.messages && s.hist.verdicts <= t.hist.verdicts
    requires t.slice.goal.owner == s.slice.goal.owner && t.slice.goal.epoch == s.slice.goal.epoch
    requires forall v: WorkerId :: v != w ==> At(t, v) == At(s, v)
    ensures PlanFrame(s, t, Some(w))
  {
    hide Exclusive;
    forall v: WorkerId | v != w ensures OtherKept(s, t, v) {
      assert !HoldsLease(t, v);
      if Unfenced(At(s, v).pc) {
        HolderInDoubt(c, s, v, w);
      }
    }
  }

  lemma InsertedRow(input: WriterInput, s: Slice, world: seq<Applied>, e: Effect)
    requires RowsPlanned(input, s.messages, s.effects) && InOrder(world, s.effects)
    requires e.step !in s.effects && PlannedCall(input, s.messages, e.step, e.tool, e.args)
    ensures RowsPlanned(input, s.messages, s.effects[e.step := e]) && InOrder(world, s.effects[e.step := e])
  {
    hide PlanOf;
    forall i | 0 <= i < |world| ensures IsEntryOf(world[i], i, s.effects[e.step := e]) {
      assert IsEntryOf(world[i], i, s.effects);
    }
  }

  lemma InsertStep(c: Config, input: WriterInput, s: Sys, w: WorkerId)
    requires Planned(c, input, s)
    requires At(s, w).pc.Intend? && At(s, w).pc.step !in s.slice.effects && HoldsLease(s, w)
    ensures PlanStep(input, s, DoCommitIntent(c, s, w), Some(w))
  {
    hide Exclusive, Verified, RowsPlanned, InOrder, PlanFrame, KeyOf, PlannedCall;
    assert PcPlanned(input, s, w);
    var t := DoCommitIntent(c, s, w);
    InsertShape(c, s, w);
    hide DoCommitIntent;
    InsertedRow(input, s.slice, s.world, t.slice.effects[s.slice.goal.cursor]);
    OwnerFrame(c, s, t, w);
  }

  lemma ProbeStep(c: Config, input: WriterInput, s: Sys, w: WorkerId, answer: ProbeAnswer)
    requires Planned(c, input, s) && WriterStep(input, s, Do(w, AskProbe(answer)))
    ensures PlanStep(input, s, DoProbe(s, w, answer), Some(w))
  {
    hide Verified, PlanOf, Exclusive;
    assert PcPlanned(input, s, w);
    if At(s, w).pc.Probe? {
      InOrderHolding(s.world, s.slice.effects, s.slice.goal.cursor);
    }
    hide InOrder, Holding, RowsPlanned;
    CalmStep(input, s, DoProbe(s, w, answer), Some(w));
  }

  lemma InOrderHolding(world: seq<Applied>, effects: map<nat, Effect>, k: nat)
    requires InOrder(world, effects)
    ensures Holding(world, k) <==> k < |world|
  {
    if k < |world| {
      assert IsEntryOf(world[k], k, effects);
      assert world[k].step == k;
    }
    if Holding(world, k) {
      var i :| 0 <= i < |world| && world[i].step == k;
      assert IsEntryOf(world[i], i, effects);
    }
  }

  lemma AuthoriseStep(c: Config, input: WriterInput, s: Sys, w: WorkerId, allow: bool)
    requires Planned(c, input, s)
    ensures PlanStep(input, s, DoAuthorise(s, w, allow), Some(w))
  {
    hide Verified, GlobalPlanned, Exclusive;
    assert PcPlanned(input, s, w);
    CalmStep(input, s, DoAuthorise(s, w, allow), Some(w));
  }

  /** Writing the cursor's row, or the outside world, when only `w` is in doubt. */
  lemma DoubtFrame(c: Config, s: Sys, t: Sys, w: WorkerId)
    requires Exclusive(c, s) && Unfenced(At(s, w).pc)
    requires s.slice.messages <= t.slice.messages && s.hist.verdicts <= t.hist.verdicts
    requires t.slice.goal == s.slice.goal && t.slice.effects.Keys == s.slice.effects.Keys
    requires forall v: WorkerId :: v != w ==> At(t, v) == At(s, v)
    ensures PlanFrame(s, t, Some(w))
  {
    hide Exclusive;
    forall v: WorkerId | v != w ensures OtherKept(s, t, v) {
      if Unfenced(At(s, v).pc) {
        OneInDoubt(c, s, v, w);
      }
    }
  }

  /** The worker in doubt stands at the cursor's row, which is still in intent. */
  lemma DoubtRow(c: Config, input: WriterInput, s: Sys, w: WorkerId)
    requires Planned(c, input, s) && Unfenced(At(s, w).pc)
    ensures var e := At(s, w).pc.e;
            && e.step == s.slice.goal.cursor && e.step in s.slice.effects && SameCall(e, s.slice.effects[e.step])
            && s.slice.effects[e.step].step == e.step
            && s.slice.effects[e.step].status == Intent
            && (At(s, w).pc.Call? || At(s, w).pc.Learn? ==> s.slice.effects[e.step].attempts > 0)
            && (At(s, w).pc.Learn? ==> |s.world| == if At(s, w).pc.outcome.Ok? then e.step + 1 else e.step)
            && s.slice.goal.state != Done
  {
    hide Inv, GlobalPlanned, CountsOk, LogsOk, MayRun;
    assert PcPlanned(input, s, w) && InDoubtOk(c, s, w);
    CopyAgrees(c, s, w);
    RowNamedInv(c, s, At(s, w).pc.e.step);
    NotDone(c, input, s);
  }

  lemma NotDone(c: Config, input: WriterInput, s: Sys)
    requires Planned(c, input, s)
    ensures s.slice.goal.state == Done ==> s.slice.goal.cursor !in s.slice.effects
  {
  }

  /** The cursor's row is rewritten without changing its call. */
  lemma RowRewritten(input: WriterInput, s: Slice, t: Slice, world: seq<Applied>, k: nat)
    requires RowsPlanned(input, s.messages, s.effects) && InOrder(world, s.effects)
    requires k in s.effects && k in t.effects && t.effects == s.effects[k := t.effects[k]]
    requires SameCall(s.effects[k], t.effects[k]) && s.messages <= t.messages
    ensures RowsPlanned(input, t.messages, t.effects) && InOrder(world, t.effects)
  {
    RowsStayPlanned(input, s.messages, t.messages, s.effects);
    hide PlanOf;
    assert forall j :: j in t.effects ==> j in s.effects && SameCall(s.effects[j], t.effects[j]);
    assert forall i :: 0 <= i < |world| ==> IsEntryOf(world[i], i, s.effects) ==> IsEntryOf(world[i], i, t.effects);
  }

  lemma MarkStep(c: Config, input: WriterInput, s: Sys, w: WorkerId)
    requires Planned(c, input, s)
    ensures PlanStep(input, s, DoMark(s, w), Some(w))
  {
    hide Verified, Exclusive, PlanFrame, InOrder, RowsPlanned, Calm;
    assert PcPlanned(input, s, w);
    var t := DoMark(s, w);
    if At(s, w).pc.Mark? {
      DoubtRow(c, input, s, w);
      DoubtFrame(c, s, t, w);
      RowRewritten(input, s.slice, t.slice, s.world, s.slice.goal.cursor);
    } else {
      SameCalm(s, Some(w));
      CalmStep(input, s, t, Some(w));
    }
  }

  lemma CallStep(c: Config, input: WriterInput, s: Sys, w: WorkerId, o: Outcome, wrote: bool)
    requires Planned(c, input, s) && WriterStep(input, s, Do(w, CallTool(o, wrote)))
    ensures PlanStep(input, s, DoCall(s, w, o, wrote), Some(w))
  {
    hide Verified, Exclusive, RowsPlanned;
    assert PcPlanned(input, s, w);
    var t := DoCall(s, w, o, wrote);
    if At(s, w).pc.Call? {
      DoubtRow(c, input, s, w);
      DoubtFrame(c, s, t, w);
      hide OtherKept;
      forall i | 0 <= i < |t.world| ensures IsEntryOf(t.world[i], i, t.slice.effects) {
        if i < |s.world| {
          assert IsEntryOf(s.world[i], i, s.slice.effects);
        }
      }
    } else {
      CalmStep(input, s, t, Some(w));
    }
  }

  lemma RecordStep(c: Config, input: WriterInput, s: Sys, w: WorkerId)
    requires Planned(c, input, s)
    ensures PlanStep(input, s, DoRecord(s, w), Some(w))
  {
    hide Verified, Exclusive, ResultMessage, PlanFrame, InOrder, RowsPlanned, PcPlanned, Calm;
    assert PcPlanned(input, s, w);
    var t := DoRecord(s, w);
    if At(s, w).pc.Learn? {
      DoubtRow(c, input, s, w);
      RecordShape(s, w);
      hide DoRecord;
      DoubtFrame(c, s, t, w);
      RowRewritten(input, s.slice, t.slice, s.world, s.slice.goal.cursor);
      FreePlanned(input, t, w);
    } else {
      SameCalm(s, Some(w));
      CalmStep(input, s, t, Some(w));
    }
  }

  lemma FreePlanned(input: WriterInput, t: Sys, w: WorkerId)
    requires Free(At(t, w).pc)
    ensures PcPlanned(input, t, w)
  {
  }

  lemma SameCalm(s: Sys, actor: Option<WorkerId>)
    ensures Calm(s, s, actor)
  {
  }

  lemma RecordShape(s: Sys, w: WorkerId)
    requires At(s, w).pc.Learn? && At(s, w).pc.e.step in s.slice.effects
    ensures var t, k := DoRecord(s, w), At(s, w).pc.e.step;
            && Free(At(t, w).pc)
            && (forall v: WorkerId :: v != w ==> At(t, v) == At(s, v))
            && t.slice.goal == s.slice.goal && s.slice.messages <= t.slice.messages
            && t.slice.effects == s.slice.effects[k := Settled(s.slice.effects[k], At(s, w).pc.outcome)]
            && t.world == s.world && t.hist.verdicts == s.hist.verdicts
  {
    hide ResultMessage;
  }

  lemma FlagStep(c: Config, input: WriterInput, s: Sys, w: WorkerId, why: string)
    requires Planned(c, input, s)
    ensures PlanStep(input, s, DoFlag(s, w, why), Some(w))
  {
    hide Verified, Exclusive, GlobalPlanned;
    assert PcPlanned(input, s, w);
    CalmStep(input, s, DoFlag(s, w, why), Some(w));
  }

  lemma AdvanceStep(c: Config, input: WriterInput, s: Sys, w: WorkerId)
    requires Planned(c, input, s)
    ensures PlanStep(input, s, DoAdvance(s, w), Some(w))
  {
    hide Verified, Exclusive, PlanFrame, InOrder, RowsPlanned, PcPlanned;
    assert PcPlanned(input, s, w);
    var t, k := DoAdvance(s, w), s.slice.goal.cursor;
    if At(s, w).pc.Advance? && HoldsLease(s, w) && k == At(s, w).pc.e.step && k !in s.slice.steps {
      AdvanceShape(c, s, w);
      hide DoAdvance;
      OwnerFrame(c, s, t, w);
      FreePlanned(input, t, w);
    } else {
      RejectedAdvance(input, s, w);
      CalmStep(input, s, t, Some(w));
    }
  }

  lemma RejectedAdvance(input: WriterInput, s: Sys, w: WorkerId)
    requires PcPlanned(input, s, w)
    requires !(At(s, w).pc.Advance? && HoldsLease(s, w) && s.slice.goal.cursor == At(s, w).pc.e.step
      && s.slice.goal.cursor !in s.slice.steps)
    ensures Calm(s, DoAdvance(s, w), Some(w)) && PcPlanned(input, DoAdvance(s, w), w)
    ensures DoAdvance(s, w).slice == s.slice
  {
    hide Verified, PlanOf;
  }

  lemma AdvanceShape(c: Config, s: Sys, w: WorkerId)
    requires Exclusive(c, s) && At(s, w).pc.Advance? && HoldsLease(s, w)
    requires At(s, w).pc.e.step == s.slice.goal.cursor && s.slice.goal.cursor !in s.slice.steps
    ensures var t, k := DoAdvance(s, w), s.slice.goal.cursor;
            && k in s.slice.effects && s.slice.effects[k].status == Committed && k + 1 !in s.slice.effects
            && Runnable(s.slice.goal.state)
            && t.slice.goal == s.slice.goal.(cursor := k + 1) && t.slice.effects == s.slice.effects
            && t.slice.messages == s.slice.messages && t.world == s.world && t.hist.verdicts == s.hist.verdicts
            && (forall v: WorkerId :: v != w ==> At(t, v) == At(s, v))
            && At(t, w).pc == Head
  {
    hide KeyOf, CallsBound, ReturnsStored, ResultsDelivered, WritesOrdered, InDoubtOk, CountsOk, LogsOk;
    assert LocalOk(s, w);
  }

  // ---- every run ----------------------------------------------------------------------------------

  lemma ActionPlanStep(c: Config, input: WriterInput, s: Sys, a: Action)
    requires Planned(c, input, s) && WriterStep(input, s, a)
    ensures PlanStep(input, s, Apply(c, s, a), if a.Do? then Some(a.w) else None)
  {
    hide Planned, PlanStep, WriterStep;
    match a
    case Do(w, LookUp) => LookUpStep(c, input, s, w);
    case Do(w, ReadMail) => ReadMailStep(c, input, s, w);
    case Do(w, Decide(d)) => DecideStep(c, input, s, w, d);
    case Do(w, Verify(ok)) => VerifyStep(c, input, s, w, ok);
    case Do(w, CommitIntent) => IntentStep(c, input, s, w);
    case Do(w, FlagReview(why)) => FlagStep(c, input, s, w, why);
    case Do(w, AskProbe(answer)) => ProbeStep(c, input, s, w, answer);
    case Do(w, Authorise(allow)) => AuthoriseStep(c, input, s, w, allow);
    case Do(w, MarkAttempt) => MarkStep(c, input, s, w);
    case Do(w, CallTool(o, wrote)) => CallStep(c, input, s, w, o, wrote);
    case Do(w, RecordResult) => RecordStep(c, input, s, w);
    case Do(w, AdvanceCursor) => AdvanceStep(c, input, s, w);
    case Do(w, op) => EasyStep(c, input, s, w, op);
    case Resolve(_, _, _) => ResolveStep(c, input, s, a);
    case _ => OutsideStep(c, input, s, a);
  }

  lemma ActionKeepsPlanned(c: Config, input: WriterInput, s: Sys, a: Action)
    requires Planned(c, input, s) && WriterStep(input, s, a)
    ensures Planned(c, input, Apply(c, s, a))
  {
    hide PlanStep, Exclusive, GlobalPlanned, PcPlanned, CrashStopStep, SoundStep, Apply;
    ActionKeepsCounts(c, s, a);
    ActionPlanStep(c, input, s, a);
    PlanStepKeeps(c, input, s, Apply(c, s, a), if a.Do? then Some(a.w) else None);
  }

  lemma {:induction false} RunKeepsPlanned(c: Config, input: WriterInput, s: Sys, acts: seq<Action>)
    requires Planned(c, input, s) && WriterRun(c, input, s, acts)
    ensures Planned(c, input, Run(c, s, acts))
    decreases |acts|
  {
    hide Planned, WriterStep;
    if acts != [] {
      ActionKeepsPlanned(c, input, s, acts[0]);
      RunKeepsPlanned(c, input, Apply(c, s, acts[0]), acts[1..]);
    }
  }

  lemma InitPlanned(c: Config, input: WriterInput)
    requires APPEND in c.probers
    ensures Planned(c, input, INIT)
  {
    InitExclusive(c);
    hide Exclusive;
  }

  /** The i-th entry of the goal is its plan's i-th line, under the key of step i. */
  predicate IsPlanEntry(c: Config, input: WriterInput, plan: seq<string>, x: Applied, i: nat) {
    && i < |plan|
    && var args := LineArgs(input.file, plan[i]);
       x == Applied(i, KeyOf(APPEND, args, c.goal, i), APPEND, args)
  }

  /** The entries of a planned goal are its plan's lines from the first on, as many as the cursor says or one more. */
  lemma EntriesPlanned(c: Config, input: WriterInput, s: Sys)
    requires Planned(c, input, s)
    ensures s.slice.goal.cursor <= |s.world| <= s.slice.goal.cursor + 1
    ensures forall i :: 0 <= i < |s.world| ==> IsPlanEntry(c, input, PlanOf(input, s.slice.messages), s.world[i], i)
  {
    hide PlanOf, KeyOf, CallsBound, ReturnsStored, ResultsDelivered;
    hide WritesOrdered, PcPlanned, InDoubtOk, CountsOk, LogsOk, LocalOk;
    forall i | 0 <= i < |s.world| ensures IsPlanEntry(c, input, PlanOf(input, s.slice.messages), s.world[i], i) {
      assert IsEntryOf(s.world[i], i, s.slice.effects);
      assert Bound(c, i, s.slice.effects[i]);
    }
  }

  /** The verdict by which a goal got done. */
  lemma DoneVerdict(input: WriterInput, s: Sys) returns (ctx: Context)
    requires GlobalPlanned(input, s) && s.slice.goal.state == Done
    ensures ctx in s.hist.verdicts && ctx.messages <= s.slice.messages
    ensures |s.world| == |PlanOf(input, ctx.messages)|
  {
    hide PlanOf, RowsPlanned, InOrder;
    var i :| 0 <= i < |s.hist.verdicts| && IsVerdict(input, s.slice.goal.cursor, s.slice.messages, s.hist.verdicts[i]);
    ctx := s.hist.verdicts[i];
  }

  /** A goal that is done left exactly the plan that an accepted Verify had read: all its lines, nothing more. */
  lemma DonePlanned(c: Config, input: WriterInput, s: Sys) returns (ctx: Context)
    requires Planned(c, input, s) && s.slice.goal.state == Done
    ensures ctx in s.hist.verdicts && ctx.messages <= s.slice.messages
    ensures |s.world| == |PlanOf(input, ctx.messages)|
    ensures forall i :: 0 <= i < |s.world| ==> IsPlanEntry(c, input, PlanOf(input, ctx.messages), s.world[i], i)
  {
    EntriesPlanned(c, input, s);
    hide Exclusive, PcPlanned, PlanOf, GlobalPlanned, KeyOf;
    ctx := DoneVerdict(input, s);
    PlanGrows(input, ctx.messages, s.slice.messages);
  }
}
