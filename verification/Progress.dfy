/**
 How many turns of the driver loop a goal needs. The agent finishes after `n` steps, tools,
 authorisations and Verify succeed, nobody pauses or cancels, and a goal is claimed again only once
 its previous holder crashed or left RunOnce.
*/
module Progress {
  import opened CrashStop
  import opened Fsm
  import opened Goals
  import opened Guarantees
  import opened Invariants
  import opened Json
  import opened Key
  import opened Protocol
  import opened Safety
  import opened Wrappers

  // ---- hypotheses -------------------------------------------------------------------------------

  /** A crash is survivable when every recorded call has a probe. */
  ghost predicate Cooperative(c: Config, n: nat, s: Sys, a: Action) {
    match a
    case Do(w, op) =>
      (match op
       case Claim => forall v: WorkerId :: At(s, v).pc == Idle
       case Load(known) => known
       case Decide(d) =>
         At(s, w).pc.Ask? ==> if At(s, w).pc.ctx.step >= n then d == Finish else d.Invoke? && WellFormed(d.args)
       case Verify(ok) => ok
       case AskProbe(answer) => answer != Broken
       case Authorise(allow) => allow
       case CallTool(o, _) => o.Ok?
       case Fault => false
       case Crash => forall k :: k in s.slice.effects ==> s.slice.effects[k].tool in c.probers
       case _ => true)
    case Post(_, _) => true
    case Expire => true
    case _ => false
  }

  ghost predicate CooperativeRun(c: Config, n: nat, s: Sys, acts: seq<Action>)
    decreases |acts|
  {
    acts == [] || (Cooperative(c, n, s, acts[0]) && CooperativeRun(c, n, Apply(c, s, acts[0]), acts[1..]))
  }

  /** An approved goal that nobody has claimed. */
  function Start(c: Config): Sys { Apply(c, INIT, Signal(Approved)) }

  // ---- invariant --------------------------------------------------------------------------------

  /** Turns of the loop still needed. */
  function Left(n: nat, g: Goal): int {
    match g.state
    case Approved => n + 3
    case Executing => n - g.cursor + 2
    case Verifying => 1
    case _ => 0
  }

  /** Inside a turn: it was counted and has not yet moved the goal. */
  predicate Mid(pc: Pc) { !pc.Idle? && !pc.Head? && !pc.Leave? }

  predicate GoalGood(n: nat, g: Goal) {
    && g.cursor <= n
    && (g.state == Approved || g.state == Executing || g.state == Verifying || g.state == Done)
    && (g.state == Approved ==> g.cursor == 0)
    && (g.state == Verifying ==> g.cursor == n)
  }

  predicate RowsGood(n: nat, effects: map<nat, Effect>) {
    forall k :: k in effects ==> k < n && (effects[k].status == Intent || effects[k].status == Committed)
  }

  predicate PcGood(n: nat, g: Goal, effects: map<nat, Effect>, pc: Pc) {
    match pc
    case Idle => false
    case Head => true
    case Leave => true
    case Look(_) => g.state == Executing
    case ReadSteps(k, verify) => if verify then g.state == Verifying else g.state == Executing && k !in effects
    case ReadMessages(k, _, verify) => if verify then g.state == Verifying else g.state == Executing && k !in effects
    case Ask(ctx) => g.state == Executing && ctx.step !in effects
    case Judge(_) => g.state == Verifying
    case Intend(k, tool, args) =>
      g.state == Executing && k < n && (k in effects ==> effects[k].tool == tool && effects[k].args == args)
    case Request(_, _, _) => false
    case Flag(_) => false
    case Learn(_, o) => g.state == Executing && o.Ok?
    case Fence(to, again) =>
      || (to == Executing && again && g.state == Approved)
      || (to == Verifying && again && g.state == Executing && g.cursor == n)
      || (to == Done && !again && g.state == Verifying)
    case _ => g.state == Executing
  }

  predicate ActiveOk(c: Config, n: nat, s: Sys, w: WorkerId) {
    var l := At(s, w);
    && PcGood(n, s.slice.goal, s.slice.effects, l.pc)
    && (l.pc == Leave || HoldsLease(s, w))
    && l.iter <= c.maxSteps
    && (Mid(l.pc) ==> l.iter < c.maxSteps)
  }

  predicate InDoubt(e: Effect) { e.status == Intent && e.attempts > 0 }

  /** An attempted call without a probe is being made by the worker that attempted it. */
  predicate DoubtOk(c: Config, effects: map<nat, Effect>, pc: Pc) {
    forall k :: k in effects && InDoubt(effects[k]) && effects[k].tool !in c.probers ==>
      (pc.Call? || pc.Learn?) && pc.e.step == k
  }

  function PcOf(s: Sys, a: Option<WorkerId>): Pc { if a.Some? then At(s, a.value).pc else Idle }

  /** Turns counted against turns still needed. */
  predicate TurnsOk(n: nat, s: Sys, pc: Pc) {
    var spent := s.hist.loads + Left(n, s.slice.goal) - (if Mid(pc) then 1 else 0);
    spent <= n + 3 + s.hist.crashes && (s.hist.crashes == 0 ==> spent == n + 3)
  }

  /** Turns counted against claims, while nothing crashed. */
  predicate ClaimsOk(c: Config, s: Sys, a: Option<WorkerId>) {
    var before, all := (|s.hist.grants| - 1) * c.maxSteps, |s.hist.grants| * c.maxSteps;
    var done := s.slice.goal.state == Done;
    if a.None? then if done then before < s.hist.loads <= all else s.hist.loads == all
    else
      var l := At(s, a.value);
      if l.pc == Leave then if done then before < s.hist.loads <= all else s.hist.loads == all
      else !done && s.hist.loads == before + l.iter + (if Mid(l.pc) then 1 else 0)
  }

  /** At most one worker, `a`, is inside RunOnce. */
  ghost predicate Prog(c: Config, n: nat, s: Sys, a: Option<WorkerId>) {
    && (forall v: WorkerId :: a != Some(v) ==> At(s, v).pc == Idle)
    && GoalGood(n, s.slice.goal)
    && RowsGood(n, s.slice.effects)
    && DoubtOk(c, s.slice.effects, PcOf(s, a))
    && (a.Some? ==> ActiveOk(c, n, s, a.value))
    && TurnsOk(n, s, PcOf(s, a))
    && (s.hist.crashes == 0 ==> ClaimsOk(c, s, a))
  }

  // ---- each action ------------------------------------------------------------------------------

  /** What a worker that holds the lease can rely on. */
  predicate Relies(c: Config, s: Sys, w: WorkerId) {
    var g, pc, effects := s.slice.goal, At(s, w).pc, s.slice.effects;
    && Runnable(g.state)
    && (LoadedCursor(pc).Some? ==> LoadedCursor(pc).value == g.cursor)
    && g.cursor !in s.slice.steps
    && (pc.Probe? || pc.Authorize? || pc.Mark? || pc.Call? || pc.Learn? || pc.Advance? ==>
          pc.e.step in effects && SameCall(pc.e, effects[pc.e.step]))
    && (g.cursor in effects ==>
          var e := effects[g.cursor];
          e.step == g.cursor && WellFormed(e.args) && e.key == KeyOf(e.tool, e.args, c.goal, g.cursor))
    && g.cursor + 1 !in effects
  }

  lemma HolderRelies(c: Config, s: Sys, w: WorkerId)
    requires Inv(c, s) && At(s, w).pc != Idle && HoldsLease(s, w)
    ensures Relies(c, s, w)
  {
    hide KeyOf, CallsBound, ReturnsStored, ResultsDelivered, WritesOrdered;
    assert LocalOk(s, w);
    var k := s.slice.goal.cursor;
    assert k in s.slice.effects ==> Bound(c, k, s.slice.effects[k]);
  }

  lemma OutsideKeeps(c: Config, n: nat, s: Sys, a: Option<WorkerId>, act: Action)
    requires Prog(c, n, s, a) && (act.Post? || act.Expire?)
    ensures Prog(c, n, Apply(c, s, act), a)
  {
  }

  lemma ClaimKeepsProg(c: Config, n: nat, s: Sys, w: WorkerId)
    requires Prog(c, n, s, None)
    ensures var t := DoClaim(s, w); Prog(c, n, t, if At(t, w).pc == Idle then None else Some(w))
  {
    hide RowsGood;
  }

  /** The active worker moves within its turn; rows, goal and counts stay. */
  lemma TurnKeeps(c: Config, n: nat, s: Sys, t: Sys, w: WorkerId)
    requires Prog(c, n, s, Some(w))
    requires t.slice == s.slice && t.workers == s.workers[w := At(s, w).(pc := At(t, w).pc)]
    requires t.hist.loads == s.hist.loads && t.hist.crashes == s.hist.crashes && t.hist.grants == s.hist.grants
    requires Mid(At(s, w).pc) && Mid(At(t, w).pc)
    requires At(s, w).pc.Call? ==> At(t, w).pc.Learn? && At(t, w).pc.e.step == At(s, w).pc.e.step
    requires At(s, w).pc.Learn? ==> At(t, w).pc == At(s, w).pc
    requires PcGood(n, t.slice.goal, t.slice.effects, At(t, w).pc)
    ensures Prog(c, n, t, Some(w))
  {
    hide GoalGood, RowsGood, PcGood;
  }

  /** The active worker's operations on its own position. */
  lemma ReadKeeps(c: Config, n: nat, s: Sys, w: WorkerId, op: Op)
    requires Prog(c, n, s, Some(w)) && Cooperative(c, n, s, Do(w, op))
    requires HoldsLease(s, w) ==> Relies(c, s, w)
    requires op.LookUp? || op.ReadHistory? || op.ReadMail? || op.Decide? || op.Verify? || op.AskProbe? || op.Authorise?
    ensures Prog(c, n, Work(c, s, w, op), Some(w))
  {
    ReadMoves(c, n, s, w, op);
    hide Prog, Work, Relies, PcGood, Cooperative;
    if Work(c, s, w, op) != s {
      TurnKeeps(c, n, s, Work(c, s, w, op), w);
    }
  }

  /** `w` moved within its turn. */
  predicate WithinTurn(n: nat, s: Sys, t: Sys, w: WorkerId) {
    && t.slice == s.slice && t.workers == s.workers[w := At(s, w).(pc := At(t, w).pc)]
    && t.hist.loads == s.hist.loads && t.hist.crashes == s.hist.crashes && t.hist.grants == s.hist.grants
    && Mid(At(s, w).pc) && Mid(At(t, w).pc) && !At(s, w).pc.Call? && !At(s, w).pc.Learn?
    && PcGood(n, t.slice.goal, t.slice.effects, At(t, w).pc)
  }

  lemma ReadMoves(c: Config, n: nat, s: Sys, w: WorkerId, op: Op)
    requires ActiveOk(c, n, s, w) && RowsGood(n, s.slice.effects) && GoalGood(n, s.slice.goal)
    requires Cooperative(c, n, s, Do(w, op)) && (HoldsLease(s, w) ==> Relies(c, s, w))
    requires op.LookUp? || op.ReadHistory? || op.ReadMail? || op.Decide? || op.Verify? || op.AskProbe? || op.Authorise?
    ensures Work(c, s, w, op) == s || WithinTurn(n, s, Work(c, s, w, op), w)
  {
    if op.LookUp? {
      LookUpMoves(c, n, s, w);
    } else if op.Decide? {
      DecideMoves(c, n, s, w, op.d);
    } else {
      AnswerMoves(c, n, s, w, op);
    }
  }

  lemma LookUpMoves(c: Config, n: nat, s: Sys, w: WorkerId)
    requires ActiveOk(c, n, s, w) && RowsGood(n, s.slice.effects)
    ensures DoLookUp(s, w) == s || WithinTurn(n, s, DoLookUp(s, w), w)
  {
  }

  lemma AnswerMoves(c: Config, n: nat, s: Sys, w: WorkerId, op: Op)
    requires ActiveOk(c, n, s, w) && Cooperative(c, n, s, Do(w, op))
    requires op.ReadHistory? || op.ReadMail? || op.Verify? || op.AskProbe? || op.Authorise?
    ensures Work(c, s, w, op) == s || WithinTurn(n, s, Work(c, s, w, op), w)
  {
    hide KeyOf;
  }

  lemma DecideMoves(c: Config, n: nat, s: Sys, w: WorkerId, d: Decision)
    requires ActiveOk(c, n, s, w) && GoalGood(n, s.slice.goal)
    requires Cooperative(c, n, s, Do(w, Decide(d))) && (HoldsLease(s, w) ==> Relies(c, s, w))
    ensures DoDecide(s, w, d) == s || WithinTurn(n, s, DoDecide(s, w, d), w)
  {
    hide KeyOf;
  }

  lemma LoadKeeps(c: Config, n: nat, s: Sys, w: WorkerId)
    requires Prog(c, n, s, Some(w)) && (HoldsLease(s, w) ==> Relies(c, s, w))
    ensures Prog(c, n, DoLoad(c, s, w, true), Some(w))
  {
    hide KeyOf, RowsGood;
  }

  lemma BeatKeeps(c: Config, n: nat, s: Sys, w: WorkerId)
    requires Prog(c, n, s, Some(w))
    ensures Prog(c, n, DoHeartbeat(s, w), Some(w))
  {
  }

  lemma FlagKeeps(c: Config, n: nat, s: Sys, w: WorkerId, why: string)
    requires Prog(c, n, s, Some(w))
    ensures Prog(c, n, DoFlag(s, w, why), Some(w))
  {
  }

  lemma IntentKeeps(c: Config, n: nat, s: Sys, w: WorkerId)
    requires Prog(c, n, s, Some(w)) && (HoldsLease(s, w) ==> Relies(c, s, w))
    ensures Prog(c, n, DoCommitIntent(c, s, w), Some(w))
  {
    hide KeyOf, ClaimsOk, TurnsOk;
    if At(s, w).pc.Intend? {
      var t := DoCommitIntent(c, s, w);
      if At(s, w).pc.step in s.slice.effects {
        hide DoubtOk;
        TurnKeeps(c, n, s, t, w);
      } else {
        RecordedKeeps(c, n, s, t, w);
      }
    }
  }

  /** The active worker writes the cursor's row within its turn. */
  lemma RecordedKeeps(c: Config, n: nat, s: Sys, t: Sys, w: WorkerId)
    requires Prog(c, n, s, Some(w))
    requires t.slice.goal == s.slice.goal && t.workers == s.workers[w := At(s, w).(pc := At(t, w).pc)]
    requires t.hist.loads == s.hist.loads && t.hist.crashes == s.hist.crashes && t.hist.grants == s.hist.grants
    requires Mid(At(s, w).pc) && Mid(At(t, w).pc)
    requires RowsGood(n, t.slice.effects) && DoubtOk(c, t.slice.effects, At(t, w).pc)
    requires PcGood(n, t.slice.goal, t.slice.effects, At(t, w).pc)
    ensures Prog(c, n, t, Some(w))
  {
    hide GoalGood, RowsGood, PcGood, DoubtOk;
  }

  lemma MarkKeeps(c: Config, n: nat, s: Sys, w: WorkerId)
    requires Prog(c, n, s, Some(w)) && (HoldsLease(s, w) ==> Relies(c, s, w))
    ensures Prog(c, n, DoMark(s, w), Some(w))
  {
    hide KeyOf, ClaimsOk, TurnsOk;
    if At(s, w).pc.Mark? {
      RecordedKeeps(c, n, s, DoMark(s, w), w);
    }
  }

  lemma CallKeeps(c: Config, n: nat, s: Sys, w: WorkerId, o: Outcome, wrote: bool)
    requires Prog(c, n, s, Some(w)) && o.Ok?
    ensures Prog(c, n, DoCall(s, w, o, wrote), Some(w))
  {
    hide ClaimsOk, TurnsOk, RowsGood, DoubtOk;
    if At(s, w).pc.Call? && At(s, w).pc.e.step in s.slice.effects {
      TurnKeeps(c, n, s, DoCall(s, w, o, wrote), w);
    }
  }

  lemma RecordKeeps(c: Config, n: nat, s: Sys, w: WorkerId)
    requires Prog(c, n, s, Some(w)) && (HoldsLease(s, w) ==> Relies(c, s, w))
    ensures Prog(c, n, DoRecord(s, w), Some(w))
  {
    hide KeyOf, ResultMessage, ClaimsOk, TurnsOk;
    if At(s, w).pc.Learn? {
      RecordedKeeps(c, n, s, DoRecord(s, w), w);
    }
  }

  lemma AdvanceKeepsProg(c: Config, n: nat, s: Sys, w: WorkerId)
    requires Prog(c, n, s, Some(w)) && (HoldsLease(s, w) ==> Relies(c, s, w))
    ensures Prog(c, n, DoAdvance(s, w), Some(w))
  {
    hide KeyOf;
  }

  lemma TransitionKeepsProg(c: Config, n: nat, s: Sys, w: WorkerId)
    requires Prog(c, n, s, Some(w)) && (HoldsLease(s, w) ==> Relies(c, s, w))
    ensures Prog(c, n, DoTransition(s, w), Some(w))
  {
    hide KeyOf, RowsGood;
  }

  lemma LeaveKeeps(c: Config, n: nat, s: Sys, w: WorkerId, op: Op)
    requires Prog(c, n, s, Some(w)) && Cooperative(c, n, s, Do(w, op)) && (op.Release? || op.Crash?)
    ensures var t := Work(c, s, w, op); Prog(c, n, t, if At(t, w).pc == Idle then None else Some(w))
  {
  }

  lemma IdleStays(c: Config, s: Sys, w: WorkerId, op: Op)
    requires At(s, w).pc == Idle && !op.Claim?
    ensures Work(c, s, w, op) == s
  {
  }

  /** Who is inside RunOnce after an action. */
  function NowActive(t: Sys, a: Option<WorkerId>, act: Action): Option<WorkerId> {
    if !act.Do? then a
    else if At(t, act.w).pc != Idle then Some(act.w)
    else if a == Some(act.w) then None
    else a
  }

  lemma ActionKeepsProg(c: Config, n: nat, s: Sys, a: Option<WorkerId>, act: Action)
    requires Inv(c, s) && Prog(c, n, s, a) && Cooperative(c, n, s, act)
    ensures Prog(c, n, Apply(c, s, act), NowActive(Apply(c, s, act), a, act))
  {
    assert a.Some? ==> At(s, a.value).pc != Idle;
    hide GoalGood, RowsGood, DoubtOk, ActiveOk, TurnsOk, ClaimsOk, Relies;
    if !act.Do? {
      OutsideKeeps(c, n, s, a, act);
    } else if a == Some(act.w) {
      ActiveKeeps(c, n, s, act.w, act.op);
    } else if act.op.Claim? {
      assert a.None?;
      ClaimKeepsProg(c, n, s, act.w);
    } else {
      IdleStays(c, s, act.w, act.op);
    }
  }

  lemma ActiveKeeps(c: Config, n: nat, s: Sys, w: WorkerId, op: Op)
    requires Inv(c, s) && Prog(c, n, s, Some(w)) && Cooperative(c, n, s, Do(w, op))
    ensures var t := Work(c, s, w, op); Prog(c, n, t, if At(t, w).pc == Idle then None else Some(w))
  {
    assert At(s, w).pc != Idle;
    if HoldsLease(s, w) {
      HolderRelies(c, s, w);
    }
    hide Inv;
    ActiveStep(c, n, s, w, op);
  }

  lemma ActiveStep(c: Config, n: nat, s: Sys, w: WorkerId, op: Op)
    requires Prog(c, n, s, Some(w)) && At(s, w).pc != Idle && Cooperative(c, n, s, Do(w, op))
    requires HoldsLease(s, w) ==> Relies(c, s, w)
    ensures var t := Work(c, s, w, op); Prog(c, n, t, if At(t, w).pc == Idle then None else Some(w))
  {
    hide Prog, Relies, KeyOf, ResultMessage;
    match op
    case Claim =>
    case Heartbeat => BeatKeeps(c, n, s, w); StillActive(c, n, s, w, op);
    case Load(_) => LoadKeeps(c, n, s, w); StillActive(c, n, s, w, op);
    case CommitIntent => IntentKeeps(c, n, s, w); StillActive(c, n, s, w, op);
    case FlagReview(why) => FlagKeeps(c, n, s, w, why); StillActive(c, n, s, w, op);
    case MarkAttempt => MarkKeeps(c, n, s, w); StillActive(c, n, s, w, op);
    case CallTool(o, wrote) => CallKeeps(c, n, s, w, o, wrote); StillActive(c, n, s, w, op);
    case RecordResult => RecordKeeps(c, n, s, w); StillActive(c, n, s, w, op);
    case AdvanceCursor => AdvanceKeepsProg(c, n, s, w); StillActive(c, n, s, w, op);
    case Transition => TransitionKeepsProg(c, n, s, w); StillActive(c, n, s, w, op);
    case Release => LeaveKeeps(c, n, s, w, op);
    case Crash => LeaveKeeps(c, n, s, w, op);
    case Fault =>
    case _ => ReadKeeps(c, n, s, w, op); StillActive(c, n, s, w, op);
  }

  lemma StillActive(c: Config, n: nat, s: Sys, w: WorkerId, op: Op)
    requires Prog(c, n, Work(c, s, w, op), Some(w))
    ensures At(Work(c, s, w, op), w).pc != Idle
  {
    hide Work;
  }

  // ---- every run --------------------------------------------------------------------------------

  lemma StartProg(c: Config, n: nat)
    ensures Inv(c, Start(c)) && Prog(c, n, Start(c), None)
  {
    InitInv(c);
    ActionKeepsInv(c, INIT, Signal(Approved));
    hide Inv;
  }

  lemma {:induction false} RunKeepsProg(c: Config, n: nat, s: Sys, a: Option<WorkerId>, acts: seq<Action>)
    returns (b: Option<WorkerId>)
    requires Inv(c, s) && Prog(c, n, s, a) && CooperativeRun(c, n, s, acts)
    ensures Inv(c, Run(c, s, acts)) && Prog(c, n, Run(c, s, acts), b)
    decreases |acts|
  {
    hide Inv, Prog, Cooperative, Apply;
    b := a;
    if acts != [] {
      ActionKeepsInv(c, s, acts[0]);
      ActionKeepsProg(c, n, s, a, acts[0]);
      var t := Apply(c, s, acts[0]);
      b := RunKeepsProg(c, n, t, NowActive(t, a, acts[0]), acts[1..]);
    }
  }

  /** With any number of crashes the loop is entered at most n + 3 times plus once per crash. */
  lemma TurnsBounded(c: Config, n: nat, acts: seq<Action>)
    requires CooperativeRun(c, n, Start(c), acts)
    ensures var s := Run(c, Start(c), acts); s.hist.loads <= n + 3 + s.hist.crashes
  {
    StartProg(c, n);
    var b := RunKeepsProg(c, n, Start(c), None, acts);
    hide Inv, RowsGood, DoubtOk, ClaimsOk, ActiveOk, Run;
    var s := Run(c, Start(c), acts);
    assert b.Some? ==> ActiveLeft(c, n, s, b.value) by {
      if b.Some? { MidLeft(c, n, s, b.value); }
    }
  }

  predicate ActiveLeft(c: Config, n: nat, s: Sys, w: WorkerId) { Mid(At(s, w).pc) ==> Left(n, s.slice.goal) >= 1 }

  lemma MidLeft(c: Config, n: nat, s: Sys, w: WorkerId)
    requires Prog(c, n, s, Some(w))
    ensures ActiveLeft(c, n, s, w)
  {
  }

  /** The number of RunOnce calls the work of a goal fills. */
  predicate IsCeiling(claims: nat, work: nat, perClaim: nat) {
    (claims - 1) * perClaim < work <= claims * perClaim
  }

  /**
   Without a crash, whenever no worker is inside RunOnce: the goal is done exactly when its claims
   cover n + 3 turns, which is after ceil((n + 3) / maxSteps) of them, with n + 3 turns in all.
  */
  lemma ClaimsNeeded(c: Config, n: nat, acts: seq<Action>)
    requires c.maxSteps > 0 && CooperativeRun(c, n, Start(c), acts)
    requires var s := Run(c, Start(c), acts); s.hist.crashes == 0 && forall v: WorkerId :: At(s, v).pc == Idle
    ensures var s := Run(c, Start(c), acts);
            && (s.slice.goal.state == Done <==> n + 3 <= |s.hist.grants| * c.maxSteps)
            && (s.slice.goal.state == Done ==> IsCeiling(|s.hist.grants|, n + 3, c.maxSteps) && s.hist.loads == n + 3)
  {
    StartProg(c, n);
    var b := RunKeepsProg(c, n, Start(c), None, acts);
    hide Inv, RowsGood, DoubtOk, Run;
  }

  // ---- a crash-free worker gets there -------------------------------------------------------------

  /** What a lone worker does next, for an agent that asks for the calls of a plan and then finishes. */
  function NextOp(tools: seq<string>, args: seq<Json>, s: Sys, w: WorkerId): Op
    requires |tools| == |args|
  {
    match At(s, w).pc
    case Idle => Claim
    case Head => Load(true)
    case Look(_) => LookUp
    case ReadSteps(_, _) => ReadHistory
    case ReadMessages(_, _, _) => ReadMail
    case Ask(ctx) => Decide(if ctx.step < |args| then Invoke(tools[ctx.step], args[ctx.step]) else Finish)
    case Judge(_) => Verify(true)
    case Intend(_, _, _) => CommitIntent
    case Request(_, _, _) => CommitIntent
    case Flag(_) => FlagReview("")
    case Probe(e) => AskProbe(if Holding(s.world, e.step) then Happened(None) else Missing)
    case Authorize(_) => Authorise(true)
    case Mark(_) => MarkAttempt
    case Call(_) => CallTool(Ok(None), true)
    case Learn(_, _) => RecordResult
    case Advance(_) => AdvanceCursor
    case Fence(_, _) => Transition
    case Leave => Release
  }

  /** What it does next whatever a probe that answers and a tool that succeeds say. */
  predicate IsNext(tools: seq<string>, args: seq<Json>, s: Sys, w: WorkerId, op: Op)
    requires |tools| == |args|
  {
    match At(s, w).pc
    case Flag(_) => op.FlagReview?
    case Probe(_) => op.AskProbe? && op.answer != Broken
    case Call(_) => op.CallTool? && op.outcome.Ok?
    case _ => op == NextOp(tools, args, s, w)
  }

  /** Where in a turn a position is; a new claim costs less than a turn saves. */
  function Rank(c: Config, l: Local): nat {
    match l.pc
    case Head => if l.iter >= c.maxSteps then 18 else 15
    case Leave => 17
    case Idle => 16
    case Look(_) => 14
    case ReadSteps(_, _) => 13
    case ReadMessages(_, _, _) => 12
    case Ask(_) => 11
    case Judge(_) => 11
    case Intend(_, _, _) => 10
    case Request(_, _, _) => 10
    case Flag(_) => 9
    case Probe(_) => 9
    case Authorize(_) => 8
    case Mark(_) => 7
    case Call(_) => 6
    case Learn(_, _) => 5
    case Advance(_) => 4
    case Fence(_, _) => 4
  }

  function Distance(c: Config, n: nat, s: Sys, w: WorkerId): int {
    18 * Left(n, s.slice.goal) + Rank(c, At(s, w))
  }

  ghost predicate Finished(s: Sys, w: WorkerId) { s.slice.goal.state == Done && At(s, w).pc == Idle }

  /** Any worker may claim a free goal, and only `w` is about. */
  ghost predicate Alone(c: Config, n: nat, s: Sys, w: WorkerId) {
    && Inv(c, s)
    && Prog(c, n, s, if At(s, w).pc == Idle then None else Some(w))
    && (At(s, w).pc == Idle ==> s.slice.goal.owner.None?)
    && (At(s, w).pc == Leave ==> s.slice.goal.owner.None? || HoldsLease(s, w))
  }

  predicate PlanOk(tools: seq<string>, args: seq<Json>) {
    |tools| == |args| && forall i :: 0 <= i < |args| ==> WellFormed(args[i])
  }

  lemma LoneCooperates(c: Config, tools: seq<string>, args: seq<Json>, s: Sys, w: WorkerId, op: Op)
    requires |tools| == |args| && IsNext(tools, args, s, w, op)
    requires Alone(c, |args|, s, w) && PlanOk(tools, args)
    ensures Cooperative(c, |args|, s, Do(w, op))
  {
    hide Inv, GoalGood, RowsGood, DoubtOk, ActiveOk, TurnsOk, ClaimsOk;
  }

  lemma LoneStaysAlone(c: Config, tools: seq<string>, args: seq<Json>, s: Sys, w: WorkerId, op: Op)
    requires |tools| == |args| && IsNext(tools, args, s, w, op)
    requires Alone(c, |args|, s, w) && PlanOk(tools, args)
    ensures Alone(c, |args|, Work(c, s, w, op), w)
  {
    hide GoalGood, RowsGood, DoubtOk, TurnsOk, ClaimsOk, Inv, KeyOf, ResultMessage, Cooperative;
    LoneCooperates(c, tools, args, s, w, op);
    ActionKeepsInv(c, s, Do(w, op));
    ActionKeepsProg(c, |args|, s, if At(s, w).pc == Idle then None else Some(w), Do(w, op));
    LoneLease(c, tools, args, s, w, op);
  }

  /** Only a worker that leaves gives the lease up, and only the end of the goal takes it away. */
  lemma LoneLease(c: Config, tools: seq<string>, args: seq<Json>, s: Sys, w: WorkerId, op: Op)
    requires |tools| == |args| && IsNext(tools, args, s, w, op)
    requires Alone(c, |args|, s, w)
    ensures var t := Work(c, s, w, op);
            && (At(t, w).pc == Idle ==> t.slice.goal.owner.None?)
            && (At(t, w).pc == Leave ==> t.slice.goal.owner.None? || HoldsLease(t, w))
  {
    hide Inv, GoalGood, RowsGood, DoubtOk, TurnsOk, ClaimsOk, KeyOf, ResultMessage;
    var t := Work(c, s, w, op);
    if At(s, w).pc == Idle || At(s, w).pc == Leave {
      EndsLease(c, tools, args, s, w, op);
    } else if op.Transition? {
      assert HoldsLease(s, w);
    } else {
      KeepsLease(c, s, w, op);
    }
  }

  lemma EndsLease(c: Config, tools: seq<string>, args: seq<Json>, s: Sys, w: WorkerId, op: Op)
    requires |tools| == |args| && IsNext(tools, args, s, w, op)
    requires At(s, w).pc == Idle || At(s, w).pc == Leave
    requires At(s, w).pc == Idle ==> s.slice.goal.owner.None?
    requires At(s, w).pc == Leave ==> s.slice.goal.owner.None? || HoldsLease(s, w)
    ensures At(Work(c, s, w, op), w).pc == Idle ==>
      Work(c, s, w, op).slice.goal.owner.None?
    ensures At(Work(c, s, w, op), w).pc != Leave
  {
  }

  lemma KeepsLease(c: Config, s: Sys, w: WorkerId, op: Op)
    requires HoldsLease(s, w) && At(s, w).pc != Idle
    requires !op.Claim? && !op.Transition? && !op.Release? && !op.Crash?
    ensures HoldsLease(Work(c, s, w, op), w) && At(Work(c, s, w, op), w).pc != Idle
  {
    hide KeyOf, ResultMessage;
  }

  predicate Nearer(c: Config, tools: seq<string>, args: seq<Json>, s: Sys, w: WorkerId, op: Op)
    requires |tools| == |args|
  {
    Distance(c, |args|, Work(c, s, w, op), w) < Distance(c, |args|, s, w)
  }

  lemma IntendDescends(c: Config, tools: seq<string>, args: seq<Json>, s: Sys, w: WorkerId, op: Op)
    requires |tools| == |args| && IsNext(tools, args, s, w, op)
    requires RowsGood(|args|, s.slice.effects) && Relies(c, s, w) && HoldsLease(s, w) && At(s, w).pc.Intend?
    requires PcGood(|args|, s.slice.goal, s.slice.effects, At(s, w).pc) && DoubtOk(c, s.slice.effects, At(s, w).pc)
    ensures Nearer(c, tools, args, s, w, op)
  {
    hide KeyOf;
  }

  lemma LearnDescends(c: Config, tools: seq<string>, args: seq<Json>, s: Sys, w: WorkerId, op: Op)
    requires |tools| == |args| && IsNext(tools, args, s, w, op)
    requires RowsGood(|args|, s.slice.effects) && Relies(c, s, w) && At(s, w).pc.Learn? && At(s, w).pc.outcome.Ok?
    ensures Nearer(c, tools, args, s, w, op)
  {
    hide KeyOf, ResultMessage;
  }

  lemma FencedDescends(c: Config, tools: seq<string>, args: seq<Json>, s: Sys, w: WorkerId, op: Op)
    requires |tools| == |args| && IsNext(tools, args, s, w, op)
    requires Prog(c, |args|, s, Some(w)) && Relies(c, s, w) && HoldsLease(s, w)
    requires At(s, w).pc.Head? || At(s, w).pc.Advance? || At(s, w).pc.Fence?
    ensures Nearer(c, tools, args, s, w, op)
  {
    hide RowsGood, DoubtOk, TurnsOk, ClaimsOk, KeyOf;
  }

  lemma HeldDescends(c: Config, tools: seq<string>, args: seq<Json>, s: Sys, w: WorkerId, op: Op)
    requires |tools| == |args| && IsNext(tools, args, s, w, op)
    requires ActiveOk(c, |args|, s, w) && Relies(c, s, w) && HoldsLease(s, w) && PlanOk(tools, args)
    requires Mid(At(s, w).pc) && !At(s, w).pc.Intend? && !At(s, w).pc.Learn?
    requires !At(s, w).pc.Advance? && !At(s, w).pc.Fence?
    ensures Nearer(c, tools, args, s, w, op)
  {
    hide KeyOf;
  }

  lemma FreeDescends(c: Config, tools: seq<string>, args: seq<Json>, s: Sys, w: WorkerId, op: Op)
    requires |tools| == |args| && IsNext(tools, args, s, w, op)
    requires c.maxSteps > 0 && Alone(c, |args|, s, w) && !Finished(s, w)
    requires At(s, w).pc == Idle || At(s, w).pc == Leave
    ensures Nearer(c, tools, args, s, w, op)
  {
    hide Inv, RowsGood, DoubtOk, TurnsOk, ClaimsOk;
  }

  /** Until the goal is done every operation of the lone worker brings it nearer. */
  lemma LoneDescends(c: Config, tools: seq<string>, args: seq<Json>, s: Sys, w: WorkerId, op: Op)
    requires |tools| == |args| && IsNext(tools, args, s, w, op)
    requires c.maxSteps > 0 && Alone(c, |args|, s, w) && PlanOk(tools, args) && !Finished(s, w)
    ensures Nearer(c, tools, args, s, w, op)
  {
    hide Inv, GoalGood, RowsGood, DoubtOk, TurnsOk, ClaimsOk, Nearer;
    if At(s, w).pc == Idle || At(s, w).pc == Leave {
      FreeDescends(c, tools, args, s, w, op);
    } else {
      HolderRelies(c, s, w);
      if At(s, w).pc.Intend? {
        IntendDescends(c, tools, args, s, w, op);
      } else if At(s, w).pc.Learn? {
        LearnDescends(c, tools, args, s, w, op);
      } else if At(s, w).pc.Head? || At(s, w).pc.Advance? || At(s, w).pc.Fence? {
        FencedDescends(c, tools, args, s, w, op);
      } else {
        HeldDescends(c, tools, args, s, w, op);
      }
    }
  }

  /** Every action is the lone worker's next. */
  ghost predicate LoneRun(c: Config, tools: seq<string>, args: seq<Json>, s: Sys, w: WorkerId, acts: seq<Action>)
    requires |tools| == |args|
    decreases |acts|
  {
    acts == [] ||
    (acts[0].Do? && acts[0].w == w && IsNext(tools, args, s, w, acts[0].op)
     && LoneRun(c, tools, args, Apply(c, s, acts[0]), w, acts[1..]))
  }

  lemma {:induction false} LoneFinishes(c: Config, tools: seq<string>, args: seq<Json>, s: Sys, w: WorkerId)
    returns (acts: seq<Action>)
    requires |tools| == |args|
    requires c.maxSteps > 0 && Alone(c, |args|, s, w) && PlanOk(tools, args)
    ensures CooperativeRun(c, |args|, s, acts) && LoneRun(c, tools, args, s, w, acts) && Finished(Run(c, s, acts), w)
    ensures |acts| <= Distance(c, |args|, s, w)
    ensures Run(c, s, acts).hist.crashes == s.hist.crashes
    ensures Prog(c, |args|, Run(c, s, acts), None)
    decreases Distance(c, |args|, s, w)
  {
    DistanceNatural(c, |args|, s, w);
    if Finished(s, w) {
      acts := [];
    } else {
      var op := NextOp(tools, args, s, w);
      var t := Work(c, s, w, op);
      LoneCooperates(c, tools, args, s, w, op);
      LoneStaysAlone(c, tools, args, s, w, op);
      LoneDescends(c, tools, args, s, w, op);
      NoCrash(c, s, w, op);
      hide Prog, Inv, Alone, Cooperative, Work, Distance, NextOp;
      var rest := LoneFinishes(c, tools, args, t, w);
      acts := [Do(w, op)] + rest;
      assert acts[1..] == rest;
    }
  }

  lemma DistanceNatural(c: Config, n: nat, s: Sys, w: WorkerId)
    requires Alone(c, n, s, w)
    ensures Distance(c, n, s, w) >= 0
  {
    hide Inv, RowsGood, DoubtOk, TurnsOk, ClaimsOk, ActiveOk;
  }

  lemma NoCrash(c: Config, s: Sys, w: WorkerId, op: Op)
    requires op != Crash
    ensures Work(c, s, w, op).hist.crashes == s.hist.crashes
  {
    hide KeyOf, ResultMessage;
  }

  /**
   Progress: a worker left alone with an approved goal takes it to done, in at most
   18 * (n + 3) + 16 operations, n + 3 turns of the loop and exactly ceil((n + 3) / maxSteps) claims.
  */
  lemma ReachesDone(c: Config, tools: seq<string>, args: seq<Json>, w: WorkerId) returns (acts: seq<Action>)
    requires |tools| == |args|
    requires c.maxSteps > 0 && PlanOk(tools, args)
    ensures CooperativeRun(c, |args|, Start(c), acts) && LoneRun(c, tools, args, Start(c), w, acts)
    ensures |acts| <= 18 * (|args| + 3) + 16
    ensures var s := Run(c, Start(c), acts);
            && s.slice.goal.state == Done
            && s.hist.loads == |args| + 3
            && IsCeiling(|s.hist.grants|, |args| + 3, c.maxSteps)
  {
    LoneStart(c, |args|, w);
    hide Start, Alone, Prog, Distance, Run, CooperativeRun, LoneRun, PlanOk;
    acts := LoneFinishes(c, tools, args, Start(c), w);
    FinishedCounts(c, |args|, Run(c, Start(c), acts));
  }

  lemma LoneStart(c: Config, n: nat, w: WorkerId)
    ensures Alone(c, n, Start(c), w) && Start(c).hist.crashes == 0
    ensures Distance(c, n, Start(c), w) == 18 * (n + 3) + 16
  {
    StartProg(c, n);
    hide Inv, RowsGood, DoubtOk;
  }

  lemma FinishedCounts(c: Config, n: nat, s: Sys)
    requires Prog(c, n, s, None) && s.slice.goal.state == Done && s.hist.crashes == 0
    ensures s.hist.loads == n + 3 && IsCeiling(|s.hist.grants|, n + 3, c.maxSteps)
  {
    hide RowsGood, DoubtOk;
  }
}
