/**
 The executor and the driver loop as they are written: loops and early returns over the cluster's
 transactions. Between any two of its own actions everybody else may act, and the process may die.
*/
module Worker {
  import opened Cluster
  import opened Fsm
  import opened Goals
  import opened Json
  import opened Key
  import opened Protocol
  import opened Store
  import opened Wrappers

  /** What happens before one of the worker's actions, and how that action fares. */
  datatype Reply = Reply(
    others: seq<(string, Action)>,   // what workers, operators and the clock do first
    alive: bool,                     // false: the process dies
    fault: bool,                     // a database error or a cancelled context
    known: bool,                     // the goal's agent is registered
    decision: Decision,              // agent.Next
    verified: bool,                  // agent.Verify
    probe: ProbeAnswer,
    allowed: bool,                   // the authoriser
    outcome: Outcome,                // the tool
    wrote: bool)

  /** How a call of Run ended. */
  datatype RunResult =
    | Stored(e: Effect)
    | ToolFailed(e: Effect)
    | InReview(e: Effect)
    | Denied(e: Effect)
    | Broke                              // given up: a fault, a lost lease, or a step bound to another call
    | Died

  /** Where the protocol stands when Run returns this. */
  predicate Stands(pc: Pc, r: RunResult) {
    match r
    case Stored(e) => pc == Advance(e)
    case ToolFailed(_) => pc == Fence(State.Failed, false)
    case InReview(_) => pc == Fence(Paused, false)
    case Denied(_) => pc == Fence(Paused, false)
    case Broke => pc == Leave
    case Died => pc == Idle
  }

  /** The worker's own actions on a goal, its heartbeats aside, in order. */
  function Mine(trail: seq<Action>, w: WorkerId): seq<Op> {
    if trail == [] then []
    else
      var a := trail[|trail| - 1];
      Mine(trail[..|trail| - 1], w) + if a.Do? && a.w == w && !a.op.Heartbeat? then [a.op] else []
  }

  lemma MineSnoc(trail: seq<Action>, a: Action, w: WorkerId)
    ensures Mine(trail + [a], w) == Mine(trail, w) + if a.Do? && a.w == w && !a.op.Heartbeat? then [a.op] else []
  {
    assert (trail + [a])[..|trail|] == trail;
  }

  ghost predicate Grown(before: map<string, Entry>, after: map<string, Entry>) {
    before.Keys == after.Keys && forall g :: g in before ==> before[g].trail <= after[g].trail
  }

  /** Nobody else acts in the worker's name; its own heartbeat runs beside it. */
  predicate Foreign(a: Action, w: WorkerId) { a.Do? && a.w == w ==> a.op.Heartbeat? }

  /** The worker is inside RunOnce for no goal but `g`. */
  predicate IdleElsewhere(entries: map<string, Entry>, g: string, w: WorkerId) {
    forall h :: h in entries && h != g ==> At(entries[h].state, w).pc == Idle
  }

  /** What stays true while others act: trails grow, and the worker is inside RunOnce for `g` only. */
  ghost predicate Steady(since: map<string, Entry>, entries: map<string, Entry>, g: string, w: WorkerId) {
    IdleElsewhere(entries, g, w) && Grown(since, entries)
  }

  /** Only the worker's own actions on `g` move the worker. */
  lemma ActionSteady(since: map<string, Entry>, entries: map<string, Entry>, c: Config, a: Action, g: string,
      w: WorkerId)
    requires c.goal in entries && g in entries && Steady(since, entries, g, w)
    requires c.goal == g || Foreign(a, w)
    ensures var now := Acted(entries, c, a);
            && g in now && Steady(since, now, g, w)
            && (Foreign(a, w) ==> At(now[g].state, w) == At(entries[g].state, w))
            && (c.goal == g ==> now[g].state == Apply(c, entries[g].state, a))
  {
    hide Apply;
    if Foreign(a, w) {
      ForeignKeeps(c, entries[c.goal].state, a, w);
    }
  }

  /** A claim leaves the worker inside RunOnce for that goal only. */
  lemma ClaimSteady(entries: map<string, Entry>, c: Config, w: WorkerId)
    requires c.goal in entries && forall g :: g in entries ==> At(entries[g].state, w).pc == Idle
    ensures var now := Acted(entries, c, Do(w, Op.Claim));
            && Grown(entries, now) && Steady(now, now, c.goal, w)
            && now[c.goal].trail == entries[c.goal].trail + [Do(w, Op.Claim)]
  {
    hide Apply;
  }

  lemma GrownTransitive(a: map<string, Entry>, b: map<string, Entry>, c: map<string, Entry>)
    requires Grown(a, b) && Grown(b, c)
    ensures Grown(a, c)
  {
  }

  lemma ForeignKeeps(c: Config, s: Sys, a: Action, w: WorkerId)
    requires Foreign(a, w)
    ensures At(Apply(c, s, a), w) == At(s, w)
  {
    if a.Do? && a.w == w {
    } else {
      NotMine(c, s, a, w);
    }
  }

  /** What others do adds nothing to the worker's own actions and takes no effect row away. */
  lemma OthersAdd(entries: map<string, Entry>, c: Config, a: Action, g: string, w: WorkerId)
    requires c.goal in entries && g in entries && Foreign(a, w)
    ensures var now := Acted(entries, c, a);
            && g in now && Mine(now[g].trail, w) == Mine(entries[g].trail, w)
            && entries[g].state.slice.effects.Keys <= now[g].state.slice.effects.Keys
  {
    hide Apply, Mine;
    MineSnoc(entries[c.goal].trail, a, w);
    RowsStay(c, entries[c.goal].state, a);
  }

  lemma RowsStay(c: Config, s: Sys, a: Action)
    ensures s.slice.effects.Keys <= Apply(c, s, a).slice.effects.Keys
  {
    hide KeyOf, ResultMessage;
    if a.Do? {
      WorkKeepsRows(c, s, a.w, a.op);
    }
  }

  lemma WorkKeepsRows(c: Config, s: Sys, w: WorkerId, op: Op)
    ensures s.slice.effects.Keys <= Work(c, s, w, op).slice.effects.Keys
  {
    hide KeyOf, ResultMessage;
  }

  /** The worker's own action is the last of its own, and moves the goal as the protocol says. */
  lemma OwnAdds(entries: map<string, Entry>, c: Config, op: Op, w: WorkerId)
    requires c.goal in entries && !op.Heartbeat?
    ensures var now := Acted(entries, c, Do(w, op));
            && c.goal in now && now[c.goal].state == Apply(c, entries[c.goal].state, Do(w, op))
            && Mine(now[c.goal].trail, w) == Mine(entries[c.goal].trail, w) + [op]
            && now[c.goal].trail == entries[c.goal].trail + [Do(w, op)]
  {
    hide Apply, Mine;
    MineSnoc(entries[c.goal].trail, Do(w, op), w);
  }

  lemma CrashKeeps(c: Config, s: Sys, w: WorkerId)
    ensures At(Apply(c, s, Do(w, Op.Crash)), w).pc == Idle
  {
  }

  // ---- where each of the worker's own actions leaves it --------------------------------------------

  function After(c: Config, s: Sys, w: WorkerId, op: Op): Local { At(Apply(c, s, Do(w, op)), w) }

  lemma AfterFault(c: Config, s: Sys, w: WorkerId)
    requires At(s, w).pc != Idle
    ensures After(c, s, w, Op.Fault) == At(s, w).(pc := Leave)
  {
  }

  lemma AfterIntent(c: Config, s: Sys, w: WorkerId)
    requires At(s, w).pc.Intend?
    ensures var l, effects := At(s, w), s.slice.effects;
            var key := KeyOf(l.pc.tool, l.pc.args, c.goal, l.pc.step);
            After(c, s, w, Op.CommitIntent) == l.(pc :=
              if !HoldsLease(s, w) then Leave
              else if l.pc.step !in effects then Authorize(NewEffect(key, l.pc.step, l.pc.tool, l.pc.args))
              else if effects[l.pc.step].key != key then Leave
              else Settle(c, effects[l.pc.step]))
  {
    hide KeyOf;
  }

  lemma AfterRequest(c: Config, s: Sys, w: WorkerId)
    requires At(s, w).pc.Request?
    ensures var l, effects := At(s, w), s.slice.effects;
            After(c, s, w, Op.CommitIntent) == l.(pc :=
              if !HoldsLease(s, w) then Leave
              else if l.pc.step !in effects
              then Flag(NewEffect(KeyOf(l.pc.tool, l.pc.args, c.goal, l.pc.step), l.pc.step, l.pc.tool, l.pc.args))
              else Fence(Paused, false))
  {
    hide KeyOf;
  }

  lemma AfterFlag(c: Config, s: Sys, w: WorkerId, why: string)
    requires At(s, w).pc.Flag? && At(s, w).pc.e.step in s.slice.effects
    ensures After(c, s, w, Op.FlagReview(why)) == At(s, w).(pc := Fence(Paused, false))
  {
  }

  lemma AfterProbe(c: Config, s: Sys, w: WorkerId, answer: ProbeAnswer)
    requires At(s, w).pc.Probe?
    ensures var e := At(s, w).pc.e;
            After(c, s, w, Op.AskProbe(answer)) == At(s, w).(pc :=
              match answer case Broken => Flag(e) case Missing => Authorize(e) case Happened(r) => Learn(e, Ok(r)))
  {
  }

  lemma AfterAuthorise(c: Config, s: Sys, w: WorkerId, allow: bool)
    requires At(s, w).pc.Authorize?
    ensures After(c, s, w, Op.Authorise(allow)) ==
      At(s, w).(pc := if allow then Mark(At(s, w).pc.e) else Fence(Paused, false))
  {
  }

  lemma AfterMark(c: Config, s: Sys, w: WorkerId)
    requires At(s, w).pc.Mark? && At(s, w).pc.e.step in s.slice.effects
    ensures After(c, s, w, Op.MarkAttempt) == At(s, w).(pc := Call(At(s, w).pc.e))
  {
  }

  lemma AfterCall(c: Config, s: Sys, w: WorkerId, o: Outcome, wrote: bool)
    requires At(s, w).pc.Call? && At(s, w).pc.e.step in s.slice.effects
    ensures After(c, s, w, Op.CallTool(o, wrote)) == At(s, w).(pc := Learn(At(s, w).pc.e, o))
  {
  }

  lemma AfterRecord(c: Config, s: Sys, w: WorkerId)
    requires At(s, w).pc.Learn? && At(s, w).pc.e.step in s.slice.effects
    ensures var pc := At(s, w).pc;
            After(c, s, w, Op.RecordResult) ==
              At(s, w).(pc := SettleFinal(Settled(s.slice.effects[pc.e.step], pc.outcome)))
  {
    hide ResultMessage;
  }

  lemma AfterLoad(c: Config, s: Sys, w: WorkerId, known: bool)
    requires At(s, w).pc == Head && At(s, w).iter < c.maxSteps
    ensures var g := s.slice.goal;
            After(c, s, w, Op.Load(known)) == At(s, w).(pc :=
              if !HoldsLease(s, w) then Leave
              else if !known then Fence(FailFrom(g.state), false)
              else
                match g.state
                case Approved => Fence(Executing, true)
                case Executing => Look(g.cursor)
                case Verifying => ReadSteps(g.cursor, true)
                case _ => Leave)
  {
  }

  /** The loop's bound is used up. */
  lemma AfterLastTurn(c: Config, s: Sys, w: WorkerId)
    requires At(s, w).pc == Head && At(s, w).iter >= c.maxSteps
    ensures After(c, s, w, Op.Load(true)) == At(s, w).(pc := Leave)
  {
  }

  lemma AfterLookUp(c: Config, s: Sys, w: WorkerId)
    requires At(s, w).pc.Look?
    ensures var k := At(s, w).pc.step;
            After(c, s, w, Op.LookUp) == At(s, w).(pc :=
              if k in s.slice.effects then Intend(k, s.slice.effects[k].tool, s.slice.effects[k].args)
              else ReadSteps(k, false))
  {
  }

  lemma AfterReadHistory(c: Config, s: Sys, w: WorkerId)
    requires At(s, w).pc.ReadSteps?
    ensures var pc := At(s, w).pc;
            After(c, s, w, Op.ReadHistory) == At(s, w).(pc := ReadMessages(pc.step, s.slice.steps, pc.verify))
  {
  }

  lemma AfterReadMail(c: Config, s: Sys, w: WorkerId)
    requires At(s, w).pc.ReadMessages?
    ensures var pc := At(s, w).pc;
            var ctx := Context(pc.step, pc.history, s.slice.messages);
            After(c, s, w, Op.ReadMail) == At(s, w).(pc := if pc.verify then Judge(ctx) else Ask(ctx))
  {
  }

  /** What the agent may answer: arguments that decode. */
  predicate Decodes(d: Decision) { d.Approval? || d.Invoke? ==> WellFormed(d.args) }

  lemma AfterDecide(c: Config, s: Sys, w: WorkerId, d: Decision)
    requires At(s, w).pc.Ask? && Decodes(d)
    ensures var k := At(s, w).pc.ctx.step;
            After(c, s, w, Op.Decide(d)) == At(s, w).(pc :=
              match d
              case Refuse => Fence(State.Failed, false)
              case Finish => Fence(Verifying, true)
              case Approval(tool, args) => Request(k, tool, args)
              case Invoke(tool, args) => Intend(k, tool, args))
  {
  }

  lemma AfterVerify(c: Config, s: Sys, w: WorkerId, ok: bool)
    requires At(s, w).pc.Judge?
    ensures After(c, s, w, Op.Verify(ok)) == At(s, w).(pc := Fence(if ok then Done else State.Failed, false))
  {
  }

  lemma AfterAdvance(c: Config, s: Sys, w: WorkerId)
    requires At(s, w).pc.Advance?
    ensures var l, e := At(s, w), At(s, w).pc.e;
            After(c, s, w, Op.AdvanceCursor) ==
              if HoldsLease(s, w) && s.slice.goal.cursor == e.step && e.step !in s.slice.steps
              then Local(l.epoch, l.iter + 1, Head) else l.(pc := Leave)
  {
  }

  lemma AfterTransition(c: Config, s: Sys, w: WorkerId)
    requires At(s, w).pc.Fence?
    ensures var l := At(s, w);
            After(c, s, w, Op.Transition) ==
              if HoldsLease(s, w) && CanTransition(s.slice.goal.state, l.pc.to) && l.pc.again
              then Local(l.epoch, l.iter + 1, Head) else l.(pc := Leave)
  {
  }

  lemma AfterRelease(c: Config, s: Sys, w: WorkerId)
    requires At(s, w).pc == Leave
    ensures After(c, s, w, Op.Release).pc == Idle
  {
  }

  /** The row after its result was recorded. */
  lemma RecordedRow(c: Config, s: Sys, w: WorkerId)
    requires At(s, w).pc.Learn? && At(s, w).pc.e.step in s.slice.effects
    ensures var t, k := Apply(c, s, Do(w, Op.RecordResult)), At(s, w).pc.e.step;
            && k in t.slice.effects && t.slice.effects[k] == Settled(s.slice.effects[k], At(s, w).pc.outcome)
            && FirstWins(s.slice.effects[k], At(s, w).pc.outcome, t.slice.effects[k])
  {
    hide ResultMessage;
  }

  /** The row after it was flagged. */
  lemma FlaggedRow(c: Config, s: Sys, w: WorkerId, why: string)
    requires At(s, w).pc.Flag? && At(s, w).pc.e.step in s.slice.effects
    requires s.slice.effects[At(s, w).pc.e.step].step == At(s, w).pc.e.step
    ensures var t, k := Apply(c, s, Do(w, Op.FlagReview(why))), At(s, w).pc.e.step;
            k in t.slice.effects && Flags(s.slice.effects[k], why, t.slice.effects[k])
  {
  }

  /** The goal after a fenced transition or a committed step was tried. */
  lemma MovedGoal(c: Config, s: Sys, w: WorkerId)
    requires At(s, w).pc.Fence?
    ensures var t, to := Apply(c, s, Do(w, Op.Transition)), At(s, w).pc.to;
            t.slice.goal ==
              if HoldsLease(s, w) && CanTransition(s.slice.goal.state, to) then Moved(s.slice.goal, to)
              else s.slice.goal
    ensures At(Apply(c, s, Do(w, Op.Transition)), w).epoch == At(s, w).epoch
  {
  }

  lemma AdvancedGoal(c: Config, s: Sys, w: WorkerId)
    requires At(s, w).pc.Advance?
    ensures var t, k := Apply(c, s, Do(w, Op.AdvanceCursor)), At(s, w).pc.e.step;
            if HoldsLease(s, w) && s.slice.goal.cursor == k && k !in s.slice.steps
            then t.slice.goal.cursor == k + 1 && k in t.slice.steps
            else t.slice == s.slice
    ensures At(Apply(c, s, Do(w, Op.AdvanceCursor)), w).epoch == At(s, w).epoch
  {
  }

  /** A refused intent leaves the rows and the lease as they are. */
  lemma RefusedIntent(c: Config, s: Sys, w: WorkerId)
    requires (At(s, w).pc.Intend? || At(s, w).pc.Request?) && (!HoldsLease(s, w) || At(s, w).pc.step in s.slice.effects)
    ensures var t := Apply(c, s, Do(w, Op.CommitIntent)); t.slice == s.slice && At(t, w).epoch == At(s, w).epoch
  {
    hide KeyOf;
  }

  // ---- what the worker went by ----------------------------------------------------------------------

  /** One of the worker's own actions and the reply it went by; none once the script has run out. */
  datatype Deed = Deed(reply: Option<Reply>, op: Op)

  /**
   The action is what its reply calls for: death, a fault, or what the agent, the probe, the authoriser
   or the tool said. Without a reply the worker can only die, or find its turns used up.
  */
  predicate Obeys(d: Deed) {
    match d.reply
    case None => d.op == Op.Crash || d.op == Load(true)
    case Some(r) =>
      if !r.alive then d.op == Op.Crash
      else
        match d.op
        case Fault => r.fault || !Decodes(r.decision)
        case Crash => r.fault
        case Load(known) => known == r.known && !r.fault
        case Decide(decision) => decision == r.decision
        case Verify(ok) => ok == r.verified
        case AskProbe(answer) => answer == r.probe
        case Authorise(allow) => allow == r.allowed
        case CallTool(o, wrote) => o == r.outcome && wrote == r.wrote
        case _ => !r.fault
  }

  function Deeds(log: seq<Deed>): seq<Op> {
    if log == [] then [] else Deeds(log[..|log| - 1]) + [log[|log| - 1].op]
  }

  function Pending(r: Option<Reply>): seq<Reply> { if r.Some? then [r.value] else [] }

  /** The replies the actions went by, in order. */
  function Replies(log: seq<Deed>): seq<Reply> {
    if log == [] then [] else Replies(log[..|log| - 1]) + Pending(log[|log| - 1].reply)
  }

  /** Every reply of the script so far led to one action, which obeys it, and nothing else was done. */
  ghost predicate Obedient(
    log: seq<Deed>, pending: Option<Reply>, script: seq<Reply>, whole: seq<Reply>, base: seq<Op>, ops: seq<Op>)
  {
    && (forall i :: 0 <= i < |log| ==> Obeys(log[i]))
    && Replies(log) + Pending(pending) + script == whole
    && base + Deeds(log) == ops
  }

  lemma HearsNext(log: seq<Deed>, script: seq<Reply>, whole: seq<Reply>, base: seq<Op>, ops: seq<Op>)
    requires Obedient(log, None, script, whole, base, ops) && script != []
    ensures Obedient(log, Some(script[0]), script[1..], whole, base, ops)
  {
    assert [script[0]] + script[1..] == script;
    assert Replies(log) + Pending(None) == Replies(log);
    assert Replies(log) + [script[0]] + script[1..] == Replies(log) + ([script[0]] + script[1..]);
  }

  lemma ActsOn(log: seq<Deed>, d: Deed, script: seq<Reply>, whole: seq<Reply>, base: seq<Op>, ops: seq<Op>)
    requires Obedient(log, d.reply, script, whole, base, ops) && Obeys(d)
    ensures Obedient(log + [d], None, script, whole, base, ops + [d.op])
  {
    hide Obeys;
    assert (log + [d])[..|log|] == log;
    assert Replies(log + [d]) + Pending(None) == Replies(log) + Pending(d.reply);
    assert base + (Deeds(log) + [d.op]) == base + Deeds(log) + [d.op];
  }

  lemma StartsObedient(script: seq<Reply>, base: seq<Op>)
    ensures Obedient([], None, script, script, base, base)
  {
    assert [] + script == script && base + [] == base;
  }

  /** What was done since `base` is what the log says. */
  lemma DoneSince(log: seq<Deed>, script: seq<Reply>, whole: seq<Reply>, base: seq<Op>, more: seq<Op>)
    requires Obedient(log, None, script, whole, base, base + more)
    ensures Deeds(log) == more && Replies(log) + script == whole
  {
    assert (base + Deeds(log))[|base|..] == Deeds(log) && (base + more)[|base|..] == more;
    assert Replies(log) + Pending(None) == Replies(log);
  }

  // ---- what a method did ----------------------------------------------------------------------------

  predicate DeadReply(heard: Option<Reply>) { heard.None? || !heard.value.alive }

  predicate FaultReply(heard: Option<Reply>) { heard.Some? && heard.value.fault }

  /** Run was cut short: the process died, or the reply it went by was a fault. */
  predicate Halted(op: Op, r: RunResult, heard: Option<Reply>) {
    (r == Died && op == Op.Crash && DeadReply(heard)) || (r == Broke && op == Op.Fault && FaultReply(heard))
  }

  /** The answer that a stored row stands for. */
  function Verdict(row: Effect): RunResult {
    match row.status
    case Committed => Stored(row)
    case Failed => ToolFailed(row)
    case _ => InReview(row)
  }

  /** A row before and after the last action on its goal. */
  datatype Change = Change(was: Option<Effect>, now: Option<Effect>)

  const UNSEEN := Change(None, None)

  /**
   The outcome was recorded: a row still in intent now stores it, any other is as it was. Either way the
   answer is the row's.
  */
  predicate Concluded(ops: seq<Op>, r: RunResult, o: Outcome, row: Change, heard: Option<Reply>) {
    |ops| == 1 &&
    (|| Halted(ops[0], r, heard)
     || (ops[0] == RecordResult && row.was.Some? && row.now.Some? && FirstWins(row.was.value, o, row.now.value)
         && r == Verdict(row.now.value)))
  }

  /** A row in intent waits for review, and says why; any other is as it was. */
  predicate Flags(was: Effect, why: string, now: Effect) {
    now == if was.status == Intent then was.(status := NeedsReview, error := why) else was
  }

  predicate Reviewed(ops: seq<Op>, r: RunResult, e: Effect, row: Change, heard: Option<Reply>) {
    |ops| == 1 &&
    (|| Halted(ops[0], r, heard)
     || (ops[0].FlagReview? && r == InReview(e) && row.was.Some? && row.now.Some?
         && Flags(row.was.value, ops[0].why, row.now.value)))
  }

  /** The attempt was marked, the tool called and what it returned recorded, in this order. */
  predicate Invoked(ops: seq<Op>, r: RunResult, row: Change, heard: Option<Reply>) {
    || (|ops| == 1 && Halted(ops[0], r, heard))
    || (ops == [MarkAttempt, Op.Crash] && r == Died && DeadReply(heard))
    || (|ops| == 3 && ops[0] == MarkAttempt && ops[1].CallTool?
        && Concluded(ops[2..], r, ops[1].outcome, row, heard))
  }

  /** The call was authorised and made, or denied. */
  predicate Executed(ops: seq<Op>, r: RunResult, e: Effect, row: Change, heard: Option<Reply>) {
    || (ops == [Op.Crash] && r == Died && DeadReply(heard))
    || (ops == [Authorise(false)] && r == Denied(e))
    || (|ops| > 1 && ops[0] == Authorise(true) && Invoked(ops[1..], r, row, heard))
  }

  /** What the probe's answer called for was done. */
  predicate Told(answer: ProbeAnswer, ops: seq<Op>, r: RunResult, e: Effect, row: Change,
      heard: Option<Reply>)
  {
    match answer
    case Broken => Reviewed(ops, r, e, row, heard)
    case Happened(found) => Concluded(ops, r, Ok(found), row, heard)
    case Missing => Executed(ops, r, e, row, heard)
  }

  /** The probe was asked, and its answer decided. */
  predicate ProbedFirst(ops: seq<Op>, r: RunResult, e: Effect, row: Change, heard: Option<Reply>) {
    || (ops == [Op.Crash] && r == Died && DeadReply(heard))
    || (|ops| > 1 && ops[0].AskProbe? && Told(ops[0].answer, ops[1..], r, e, row, heard))
  }

  /** An intent was taken up: run if never attempted, else probed, or sent to review for want of a probe. */
  predicate Reconciled(probers: set<string>, ops: seq<Op>, r: RunResult, e: Effect, row: Change,
      heard: Option<Reply>)
  {
    if e.attempts == 0 then Executed(ops, r, e, row, heard)
    else if e.tool in probers then ProbedFirst(ops, r, e, row, heard)
    else Reviewed(ops, r, e, row, heard)
  }

  /** An existing row was answered from its status, and only an intent was taken up. */
  predicate Answered(probers: set<string>, ops: seq<Op>, r: RunResult, e: Effect, row: Change,
      heard: Option<Reply>)
  {
    if e.status == Intent then Reconciled(probers, ops, r, e, row, heard) else ops == [] && r == Verdict(e)
  }

  /** The intent could not be recorded: the lease is lost, or the step is bound to another call. */
  predicate NotTheirs(s: Sys, w: WorkerId, step: nat, key: string) {
    !HoldsLease(s, w) || (step in s.slice.effects && s.slice.effects[step].key != key)
  }

  /** A call of Run: what it did, how it ended, the row it found or made and the one it left. */
  datatype Report = Report(
    ops: seq<Op>, r: RunResult, found: Option<Effect>, created: bool, row: Change, heard: Option<Reply>)

  predicate RanCall(probers: set<string>, key: string, step: nat, tool: string, args: Json, x: Report) {
    || (|x.ops| == 1 && x.found.None? && Halted(x.ops[0], x.r, x.heard))
    || (x.ops == [CommitIntent] && x.found.None? && x.r == Broke)
    || (|x.ops| > 0 && x.ops[0] == CommitIntent && x.found.Some? && x.found.value.key == key &&
        if x.created
        then x.found.value == NewEffect(key, step, tool, args)
          && Executed(x.ops[1..], x.r, x.found.value, x.row, x.heard)
        else Answered(probers, x.ops[1..], x.r, x.found.value, x.row, x.heard))
  }

  lemma ConcludedOne(ops: seq<Op>, r: RunResult, o: Outcome, row: Change, heard: Option<Reply>)
    requires Concluded(ops, r, o, row, heard)
    ensures |ops| == 1
  {
  }

  lemma NotInvoked(ops: seq<Op>, r: RunResult, row: Change, heard: Option<Reply>)
    requires |ops| == 1 && Halted(ops[0], r, heard)
    ensures Invoked(ops, r, row, heard)
  {
  }

  lemma InvokedFrom(more: seq<Op>, r: RunResult, row: Change, heard: Option<Reply>)
    requires (more == [Op.Crash] && r == Died && DeadReply(heard))
          || (|more| == 2 && more[0].CallTool? && Concluded(more[1..], r, more[0].outcome, row, heard))
    ensures Invoked([MarkAttempt] + more, r, row, heard)
  {
    hide Concluded;
    if |more| == 2 {
      assert ([MarkAttempt] + more)[2..] == more[1..];
    }
  }

  lemma StandsDead(pc: Pc)
    requires pc == Idle
    ensures Stands(pc, Died)
  {
  }

  lemma DeadTurn(before: Local, after: Local)
    requires after.pc == Idle
    ensures SameTurn(before, after)
  {
  }

  lemma SameTurnOn(a: Local, b: Local, c: Local)
    requires a.epoch == b.epoch && a.iter == b.iter && SameTurn(b, c)
    ensures SameTurn(a, c)
  {
  }

  lemma NotProbed(e: Effect, row: Change, heard: Option<Reply>)
    requires DeadReply(heard)
    ensures ProbedFirst([Op.Crash], Died, e, row, heard)
  {
  }

  lemma ProbedFrom(
    answer: ProbeAnswer, more: seq<Op>, r: RunResult, e: Effect, row: Change, heard: Option<Reply>)
    requires Told(answer, more, r, e, row, heard)
    ensures ProbedFirst([AskProbe(answer)] + more, r, e, row, heard)
  {
    assert ([AskProbe(answer)] + more)[1..] == more;
  }

  lemma NotRun(probers: set<string>, key: string, step: nat, tool: string, args: Json, x: Report)
    requires |x.ops| == 1 && x.found.None? && Halted(x.ops[0], x.r, x.heard)
    ensures RanCall(probers, key, step, tool, args, x) && (x.r == Broke ==> x.ops != [CommitIntent])
  {
  }

  lemma InvokedSome(ops: seq<Op>, r: RunResult, row: Change, heard: Option<Reply>)
    requires Invoked(ops, r, row, heard)
    ensures |ops| > 0
  {
  }

  lemma ExecutedSome(ops: seq<Op>, r: RunResult, e: Effect, row: Change, heard: Option<Reply>)
    requires Executed(ops, r, e, row, heard)
    ensures |ops| > 0
  {
  }

  lemma ReconciledSome(probers: set<string>, ops: seq<Op>, r: RunResult, e: Effect, row: Change,
      heard: Option<Reply>)
    requires Reconciled(probers, ops, r, e, row, heard)
    ensures |ops| > 0
  {
  }

  lemma Unrecorded(probers: set<string>, key: string, step: nat, tool: string, args: Json, heard: Option<Reply>)
    ensures RanCall(probers, key, step, tool, args, Report([CommitIntent], Broke, None, false, UNSEEN, heard))
  {
  }

  /** How a turn of the driver loop ended: round again, leave RunOnce, or the process died. */
  datatype Turn = Again | Stop | Dead

  predicate SameTurn(before: Local, after: Local) {
    after.pc != Idle ==> after.epoch == before.epoch && after.iter == before.iter
  }

  predicate Ends(before: Local, after: Local, t: Turn) {
    match t
    case Again => after == Local(before.epoch, before.iter + 1, Head)
    case Stop => after.pc == Leave
    case Dead => after.pc == Idle
  }

  datatype Reading = Got(ctx: Context) | Unread(end: Turn)

  /** A turn was cut short: the process died, or the reply it went by was a fault. */
  predicate Cut(op: Op, t: Turn, heard: Option<Reply>) {
    (t == Dead && op == Op.Crash && DeadReply(heard)) || (t == Stop && op == Op.Fault && FaultReply(heard))
  }

  /** A transition under the lease was made, or the lease or the goal's state forbade it. */
  predicate MovedOn(ops: seq<Op>, t: Turn, to: State, again: bool, s: Sys, w: WorkerId, heard: Option<Reply>) {
    |ops| == 1 &&
    (|| Cut(ops[0], t, heard)
     || (ops[0] == Op.Transition && t == Again && again && s.slice.goal.state == to)
     || (ops[0] == Op.Transition && t == Stop && !again && s.slice.goal.state == to)
     || (ops[0] == Op.Transition && t == Stop && (!HoldsLease(s, w) || !CanTransition(s.slice.goal.state, to))))
  }

  /** The step was committed and the cursor moved past it, or the lease or the cursor forbade it. */
  predicate SteppedOn(ops: seq<Op>, t: Turn, k: nat, s: Sys, w: WorkerId, heard: Option<Reply>) {
    |ops| == 1 &&
    (|| Cut(ops[0], t, heard)
     || (ops[0] == AdvanceCursor && t == Again && s.slice.goal.cursor == k + 1 && k in s.slice.steps)
     || (ops[0] == AdvanceCursor && t == Stop &&
         (!HoldsLease(s, w) || s.slice.goal.cursor != k || k in s.slice.steps)))
  }

  /** What followed a call of Run: the transition its answer calls for, or nothing after one that was cut short. */
  predicate Followed(r: RunResult, ops: seq<Op>, t: Turn, s: Sys, w: WorkerId, heard: Option<Reply>) {
    match r
    case Stored(e) => SteppedOn(ops, t, e.step, s, w, heard)
    case ToolFailed(_) => MovedOn(ops, t, State.Failed, false, s, w, heard)
    case InReview(_) => MovedOn(ops, t, Paused, false, s, w, heard)
    case Denied(_) => MovedOn(ops, t, Paused, false, s, w, heard)
    case Broke => ops == [] && t == Stop
    case Died => ops == [] && t == Dead
  }

  /** Why a turn ended with this action of the worker's. */
  predicate EndsWith(op: Op, t: Turn, s: Sys, w: WorkerId, heard: Option<Reply>) {
    match t
    case Dead => op == Op.Crash && DeadReply(heard)
    case Again => op == Op.Transition || op == AdvanceCursor
    case Stop =>
      || (op == Op.Fault && heard.Some? && (heard.value.fault || !Decodes(heard.value.decision)))
      || op == Op.Transition || op == AdvanceCursor
      || (op == CommitIntent && (!HoldsLease(s, w) || s.slice.effects != map[]))
      || (op.Load? && (!HoldsLease(s, w) || !Runnable(s.slice.goal.state)))
  }

  // ---- the actions of a turn, in order --------------------------------------------------------------

  predicate CutOff(op: Op) { op == Op.Fault || op == Op.Crash }

  /** The executor's actions. */
  predicate ExecutorOp(op: Op) {
    || op == CommitIntent || op.FlagReview? || op.AskProbe? || op.Authorise? || op == MarkAttempt || op.CallTool?
    || op == RecordResult || CutOff(op)
  }

  predicate OneMove(ops: seq<Op>) { |ops| == 1 && (ops[0] == Op.Transition || CutOff(ops[0])) }

  /** A call of Run and what followed it: nothing asked of the agent. */
  predicate CallTrace(ops: seq<Op>) {
    forall i :: 0 <= i < |ops| ==> ExecutorOp(ops[i]) || ops[i] == Op.Transition || ops[i] == AdvanceCursor
  }

  /** A call was recorded for approval: intent, flag and transition, never a call of the tool. */
  predicate RequestTrace(ops: seq<Op>) {
    || (|ops| == 1 && (ops[0] == CommitIntent || CutOff(ops[0])))
    || (|ops| == 2 && ops[0] == CommitIntent && OneMove(ops[1..]))
    || (|ops| == 3 && ops[0] == CommitIntent && ops[1].FlagReview? && OneMove(ops[2..]))
  }

  /** The agent was asked, and its decision carried out. */
  predicate AskTrace(ops: seq<Op>) {
    || (|ops| == 1 && CutOff(ops[0]))
    || (|ops| > 1 && ops[0].Decide? &&
        match ops[0].d
        case Refuse => OneMove(ops[1..])
        case Finish => OneMove(ops[1..])
        case Approval(_, _) => RequestTrace(ops[1..])
        case Invoke(_, _) => CallTrace(ops[1..]))
  }

  predicate JudgeTrace(ops: seq<Op>) {
    || (|ops| == 1 && CutOff(ops[0]))
    || (|ops| == 2 && ops[0].Verify? && OneMove(ops[1..]))
  }

  /** Steps and messages were read, in this order, before the agent was asked to decide or to judge. */
  predicate ReadTrace(ops: seq<Op>, judged: bool) {
    || (|ops| == 1 && CutOff(ops[0]))
    || (|ops| == 2 && ops[0] == ReadHistory && CutOff(ops[1]))
    || (|ops| > 2 && ops[0] == ReadHistory && ops[1] == ReadMail
        && if judged then JudgeTrace(ops[2..]) else AskTrace(ops[2..]))
  }

  /** The cursor's row was looked up; the agent was asked only if there was none. */
  predicate StepTrace(ops: seq<Op>, recorded: bool) {
    || (|ops| == 1 && CutOff(ops[0]))
    || (|ops| > 1 && ops[0] == LookUp && (CallTrace(ops[1..]) || (!recorded && ReadTrace(ops[1..], false))))
  }

  /** One turn: the goal was loaded under the lease and what its state calls for was done. */
  predicate TurnTrace(ops: seq<Op>) {
    || (|ops| == 1 && (ops[0].Load? || CutOff(ops[0])))
    || (|ops| > 1 && ops[0].Load? && (OneMove(ops[1..]) || StepTrace(ops[1..], false) || ReadTrace(ops[1..], true)))
  }

  function Flat(turns: seq<seq<Op>>): seq<Op> {
    if turns == [] then [] else Flat(turns[..|turns| - 1]) + turns[|turns| - 1]
  }

  lemma FlatSnoc(turns: seq<seq<Op>>, turn: seq<Op>)
    ensures Flat(turns + [turn]) == Flat(turns) + turn
  {
    assert (turns + [turn])[..|turns|] == turns;
  }

  predicate AllTurns(turns: seq<seq<Op>>) { forall i :: 0 <= i < |turns| ==> TurnTrace(turns[i]) }

  lemma NoTurns(before: seq<Op>)
    ensures AllTurns([]) && before + Flat([]) == before
  {
  }

  lemma TurnsGrow(before: seq<Op>, turns: seq<seq<Op>>, ops: seq<Op>)
    requires AllTurns(turns) && TurnTrace(ops)
    ensures AllTurns(turns + [ops]) && before + Flat(turns) + ops == before + Flat(turns + [ops])
    ensures before + Flat(turns + [ops]) + [] == before + Flat(turns + [ops])
  {
    hide TurnTrace;
    FlatSnoc(turns, ops);
  }

  lemma ExecutedOps(ops: seq<Op>, r: RunResult, e: Effect, row: Change, heard: Option<Reply>)
    requires Executed(ops, r, e, row, heard)
    ensures forall i :: 0 <= i < |ops| ==> ExecutorOp(ops[i])
    ensures r.Broke? || r.Died? ==> |ops| > 0 && Halted(ops[|ops| - 1], r, heard)
  {
    if |ops| > 1 {
      var more := ops[1..];
      assert Invoked(more, r, row, heard);
      assert forall i :: 0 <= i < |more| ==> more[i] == ops[i + 1];
    }
  }

  lemma AnsweredOps(probers: set<string>, ops: seq<Op>, r: RunResult, e: Effect, row: Change,
      heard: Option<Reply>)
    requires Answered(probers, ops, r, e, row, heard)
    ensures forall i :: 0 <= i < |ops| ==> ExecutorOp(ops[i])
    ensures r.Broke? || r.Died? ==> |ops| > 0 && Halted(ops[|ops| - 1], r, heard)
  {
    hide Executed;
    if e.status == Intent {
      if e.attempts == 0 {
        ExecutedOps(ops, r, e, row, heard);
      } else if e.tool in probers && |ops| > 1 {
        TellsOps(ops[0].answer, ops[1..], r, e, row, heard);
        assert forall i :: 1 <= i < |ops| ==> ops[i] == ops[1..][i - 1];
      }
    }
  }

  lemma TellsOps(answer: ProbeAnswer, ops: seq<Op>, r: RunResult, e: Effect, row: Change, heard: Option<Reply>)
    requires Told(answer, ops, r, e, row, heard)
    ensures forall i :: 0 <= i < |ops| ==> ExecutorOp(ops[i])
    ensures |ops| > 0 && (r.Broke? || r.Died? ==> Halted(ops[|ops| - 1], r, heard))
  {
    hide Executed;
    if answer == Missing {
      ExecutedOps(ops, r, e, row, heard);
      ExecutedSome(ops, r, e, row, heard);
    }
  }

  /** Run's actions are the executor's, and it breaks off only after a fault or death, or at the intent. */
  lemma RanOps(probers: set<string>, key: string, step: nat, tool: string, args: Json, x: Report)
    requires RanCall(probers, key, step, tool, args, x)
    ensures |x.ops| > 0 && forall i :: 0 <= i < |x.ops| ==> ExecutorOp(x.ops[i])
    ensures x.r.Broke? || x.r.Died? ==>
      Halted(x.ops[|x.ops| - 1], x.r, x.heard) || (x.ops == [CommitIntent] && x.r == Broke)
  {
    hide Executed, Answered;
    if x.found.Some? {
      var more := x.ops[1..];
      if x.created {
        ExecutedOps(more, x.r, x.found.value, x.row, x.heard);
      } else {
        AnsweredOps(probers, more, x.r, x.found.value, x.row, x.heard);
      }
      assert forall i :: 1 <= i < |x.ops| ==> x.ops[i] == more[i - 1];
    }
  }

  /** A call of Run and what followed it make a trace that ends for a reason. */
  lemma StepOps(
    probers: set<string>, key: string, step: nat, tool: string, args: Json, x: Report, end: seq<Op>, t: Turn, s: Sys,
    w: WorkerId, heard: Option<Reply>)
    requires RanCall(probers, key, step, tool, args, x) && Followed(x.r, end, t, s, w, heard)
    requires x.r.Broke? || x.r.Died? ==> x.heard == heard
    requires x.ops == [CommitIntent] && x.r == Broke ==> NotTheirs(s, w, step, key)
    ensures var ops := x.ops + end; CallTrace(ops) && |ops| > 0 && EndsWith(ops[|ops| - 1], t, s, w, heard)
  {
    RanOps(probers, key, step, tool, args, x);
    hide RanCall, NotTheirs, ExecutorOp, EndsWith, Halted;
    if x.r.Broke? || x.r.Died? {
      assert x.ops + end == x.ops;
      BreakEnds(x, t, s, w, heard, step, key);
    } else {
      FollowEnds(x.r, end, t, s, w, heard);
      hide Followed;
      TraceGrows(x.ops, end[0]);
      assert end == [end[0]];
    }
  }

  lemma TraceGrows(ops: seq<Op>, op: Op)
    requires forall i :: 0 <= i < |ops| ==> ExecutorOp(ops[i])
    requires op == Op.Transition || op == AdvanceCursor || CutOff(op)
    ensures CallTrace(ops + [op]) && (ops + [op])[|ops|] == op
  {
  }

  lemma BreakEnds(x: Report, t: Turn, s: Sys, w: WorkerId, heard: Option<Reply>, step: nat, key: string)
    requires (x.r == Broke && t == Stop) || (x.r == Died && t == Dead)
    requires x.ops != [] && x.heard == heard
    requires Halted(x.ops[|x.ops| - 1], x.r, x.heard) || (x.ops == [CommitIntent] && x.r == Broke)
    requires x.ops == [CommitIntent] && x.r == Broke ==> NotTheirs(s, w, step, key)
    ensures EndsWith(x.ops[|x.ops| - 1], t, s, w, heard)
  {
  }

  lemma FollowEnds(r: RunResult, end: seq<Op>, t: Turn, s: Sys, w: WorkerId, heard: Option<Reply>)
    requires Followed(r, end, t, s, w, heard) && !r.Broke? && !r.Died?
    ensures |end| == 1 && (end[0] == Op.Transition || end[0] == AdvanceCursor || CutOff(end[0]))
    ensures EndsWith(end[0], t, s, w, heard)
  {
  }

  /** The last action of a trace. */
  function Last(ops: seq<Op>): Op
    requires ops != []
  {
    ops[|ops| - 1]
  }

  /** What a decision calls for was done. */
  predicate Carried(d: Decision, ops: seq<Op>) {
    match d
    case Refuse => OneMove(ops)
    case Finish => OneMove(ops)
    case Approval(_, _) => RequestTrace(ops)
    case Invoke(_, _) => CallTrace(ops)
  }

  lemma NonEmpty(d: Decision, ops: seq<Op>)
    requires Carried(d, ops)
    ensures d.Invoke? || ops != []
  {
  }

  lemma CarriedAsks(d: Decision, ops: seq<Op>)
    requires Carried(d, ops) && ops != []
    ensures AskTrace([Decide(d)] + ops)
  {
    assert ([Decide(d)] + ops)[1..] == ops;
  }

  /** The flag was set and the goal paused. */
  predicate FlaggedFirst(ops: seq<Op>) {
    OneMove(ops) || (|ops| == 2 && ops[0].FlagReview? && OneMove(ops[1..]))
  }

  lemma RequestFrom(more: seq<Op>)
    requires FlaggedFirst(more)
    ensures RequestTrace([CommitIntent] + more)
  {
    var ops := [CommitIntent] + more;
    assert ops[1..] == more;
    if |more| == 2 {
      assert ops[2..] == more[1..];
    }
  }

  lemma FlaggedThen(why: string, more: seq<Op>)
    requires OneMove(more)
    ensures FlaggedFirst([FlagReview(why)] + more) && |more| == 1
  {
    assert ([FlagReview(why)] + more)[1..] == more;
  }

  lemma ReviewCut(ops: seq<Op>, r: RunResult, e: Effect, row: Change, s: Sys, w: WorkerId, heard: Option<Reply>)
    requires Reviewed(ops, r, e, row, heard) && (r.Broke? || r.Died?)
    ensures FlaggedFirst(ops) && |ops| == 1 && EndsWith(Last(ops), if r.Broke? then Stop else Dead, s, w, heard)
  {
  }

  lemma ReviewMade(ops: seq<Op>, r: RunResult, e: Effect, row: Change, heard: Option<Reply>)
    requires Reviewed(ops, r, e, row, heard) && r.InReview?
    ensures |ops| == 1 && ops[0].FlagReview? && ops == [FlagReview(ops[0].why)]
  {
  }

  lemma DiesJudging(before: Local, after: Local, s: Sys, w: WorkerId, heard: Option<Reply>)
    requires after.pc == Idle && DeadReply(heard)
    ensures Ends(before, after, Dead) && JudgeTrace([Op.Crash]) && EndsWith(Last([Op.Crash]), Dead, s, w, heard)
  {
  }

  lemma VerdictFrom(ok: bool, more: seq<Op>)
    requires OneMove(more)
    ensures JudgeTrace([Verify(ok)] + more) && |more| == 1
  {
    assert ([Verify(ok)] + more)[1..] == more;
  }

  /** How far the reading of the agent's view came. */
  predicate ReadSoFar(r: Reading, ops: seq<Op>, heard: Option<Reply>) {
    match r
    case Got(_) => ops == [ReadHistory, ReadMail]
    case Unread(end) => (|ops| == 1 || (|ops| == 2 && ops[0] == ReadHistory)) && Cut(Last(ops), end, heard)
  }

  lemma NothingRead(t: Turn, ops: seq<Op>, heard: Option<Reply>)
    requires |ops| == 1 && Cut(ops[0], t, heard)
    ensures ReadSoFar(Unread(t), ops, heard) && t != Again
  {
  }

  lemma HistoryRead(r: Reading, more: seq<Op>, heard: Option<Reply>)
    requires match r case Got(_) => more == [ReadMail] case Unread(end) => |more| == 1 && Cut(more[0], end, heard)
    ensures ReadSoFar(r, [ReadHistory] + more, heard)
  {
  }

  lemma ReadCut(r: Reading, ops: seq<Op>, judged: bool, s: Sys, w: WorkerId, heard: Option<Reply>)
    requires ReadSoFar(r, ops, heard) && r.Unread?
    ensures ops != [] && ReadTrace(ops, judged) && EndsWith(Last(ops), r.end, s, w, heard)
  {
  }

  lemma ReadThen(more: seq<Op>, judged: bool)
    requires more != [] && if judged then JudgeTrace(more) else AskTrace(more)
    ensures ReadTrace([ReadHistory, ReadMail] + more, judged)
  {
    assert ([ReadHistory, ReadMail] + more)[2..] == more;
  }

  lemma StepCut(ops: seq<Op>, recorded: bool)
    requires |ops| == 1 && CutOff(ops[0])
    ensures StepTrace(ops, recorded)
  {
  }

  /** The turn did what the goal's state calls for. */
  predicate Pursued(ops: seq<Op>, row: Goal, known: bool) {
    if !known || row.state == Approved then OneMove(ops)
    else if row.state == Executing then StepTrace(ops, false)
    else ReadTrace(ops, true)
  }

  lemma PursuedTurn(more: seq<Op>, row: Goal, known: bool)
    requires more != [] && Pursued(more, row, known)
    ensures TurnTrace([Load(known)] + more)
  {
    TurnThen(known, more);
  }

  lemma OneMoveSome(ops: seq<Op>)
    requires OneMove(ops)
    ensures ops != []
  {
  }

  /** Loading changes neither the goal nor its lease. */
  lemma LoadKeeps(c: Config, s: Sys, w: WorkerId, known: bool)
    ensures var t := Apply(c, s, Do(w, Op.Load(known))); t.slice == s.slice && At(t, w).epoch == At(s, w).epoch
  {
  }

  /** How RunOnce is left: by death inside a turn, or with the lease released or abandoned. */
  predicate LeaveTrace(end: seq<Op>) {
    || end == []
    || end == [Op.Crash] || end == [Op.Release]
    || end == [Load(true), Op.Crash] || end == [Load(true), Op.Release]
  }

  lemma LeavesBy(end: seq<Op>, op: Op)
    requires (end == [] || end == [Load(true)]) && (op == Op.Crash || op == Op.Release)
    ensures (end == [] ==> LeaveTrace(end)) && LeaveTrace(end + [op])
  {
  }

  lemma TurnThen(known: bool, more: seq<Op>)
    requires more != [] && (OneMove(more) || StepTrace(more, false) || ReadTrace(more, true))
    ensures TurnTrace([Load(known)] + more)
  {
    assert ([Load(known)] + more)[1..] == more;
  }

  lemma TurnCut(ops: seq<Op>)
    requires |ops| == 1 && CutOff(ops[0])
    ensures TurnTrace(ops)
  {
  }

  lemma Forgets(ops: seq<Op>, recorded: bool)
    requires StepTrace(ops, recorded)
    ensures StepTrace(ops, false)
  {
  }

  lemma LookedThen(more: seq<Op>, recorded: bool)
    requires more != [] && (CallTrace(more) || (!recorded && ReadTrace(more, false)))
    ensures StepTrace([LookUp] + more, recorded)
  {
    assert ([LookUp] + more)[1..] == more;
  }

  /** A turn goes on from where Run ended. */
  lemma GoesOn(a: Local, b: Local, r: RunResult, after: Local, t: Turn)
    requires SameTurn(a, b) && Stands(b.pc, r) && Ends(b, after, t) && (r.Died? ==> t == Dead)
    ensures Ends(a, after, t)
  {
  }

  lemma EndsSame(a: Local, b: Local, after: Local, t: Turn)
    requires a.epoch == b.epoch && a.iter == b.iter && Ends(b, after, t)
    ensures Ends(a, after, t)
  {
  }

  lemma LastOf(a: seq<Op>, b: seq<Op>)
    requires b != []
    ensures Last(a + b) == Last(b)
  {
  }

  lemma CutEnds(ops: seq<Op>, t: Turn, s: Sys, w: WorkerId, heard: Option<Reply>)
    requires |ops| == 1 && Cut(ops[0], t, heard)
    ensures CutOff(ops[0]) && EndsWith(Last(ops), t, s, w, heard)
  {
  }

  lemma MoveEnds(ops: seq<Op>, t: Turn, to: State, again: bool, s: Sys, w: WorkerId, heard: Option<Reply>)
    requires MovedOn(ops, t, to, again, s, w, heard)
    ensures OneMove(ops) && EndsWith(Last(ops), t, s, w, heard)
  {
  }

  class Worker {
    const id: WorkerId
    const cluster: Cluster
    var script: seq<Reply>
    ghost var since: map<string, Entry>    // the goals when RunOnce began
    ghost var heard: Option<Reply>         // the reply the last action went by; none once the script ran out
    ghost var log: seq<Deed>               // what the worker did since it claimed the goal
    ghost var base: seq<Op>                // what it had done to the goal by then
    ghost var whole: seq<Reply>            // the script as it was then

    constructor (id: WorkerId, cluster: Cluster, script: seq<Reply>)
      ensures this.id == id && this.cluster == cluster && this.script == script
    {
      this.id, this.cluster, this.script, since, heard := id, cluster, script, map[], None;
      log, base, whole := [], [], [];
    }

    function Loc(g: string): Local
      reads this, cluster
      requires g in cluster.entries
    {
      At(cluster.State(g), id)
    }

    function Pc(g: string): Pc
      reads this, cluster
      requires g in cluster.entries
    {
      Loc(g).pc
    }

    /** What the worker itself did to the goal so far. */
    ghost function Ops(g: string): seq<Op>
      reads this, cluster
      requires g in cluster.entries
    {
      Mine(cluster.entries[g].trail, id)
    }

    /** The row of a step, if there is one. */
    function Row(g: string, k: nat): Option<Effect>
      reads this, cluster
      requires g in cluster.entries
    {
      if k in cluster.State(g).slice.effects then Some(cluster.State(g).slice.effects[k]) else None
    }

    function Rows(g: string): set<nat>
      reads this, cluster
      requires g in cluster.entries
    {
      cluster.State(g).slice.effects.Keys
    }

    /** The row of a step before the last action on the goal. */
    ghost function Before(g: string, k: nat): Option<Effect>
      reads this, cluster
      requires g in cluster.entries
    {
      var trail := cluster.entries[g].trail;
      if trail == [] then None
      else
        var s := Protocol.Run(cluster.ConfigOf(g), INIT, trail[..|trail| - 1]);
        if k in s.slice.effects then Some(s.slice.effects[k]) else None
    }

    /** What the last action on the goal did to a step's row. */
    ghost function Left(g: string, k: nat): Change
      reads this, cluster
      requires g in cluster.entries
    {
      Change(Before(g, k), Row(g, k))
    }

    /** The tables follow the protocol and this worker is inside RunOnce for no other goal. */
    ghost predicate Inside(g: string)
      reads this, cluster, cluster.store
    {
      cluster.Valid() && g in cluster.entries && Steady(since, cluster.entries, g, id)
    }

    /** Every reply heard was acted on. */
    ghost predicate Ready(g: string)
      reads this, cluster, cluster.store
    {
      Inside(g) && Obedient(log, None, script, whole, base, Ops(g))
    }

    /** The last reply heard, if any, is still to be acted on. */
    ghost predicate Due(g: string)
      reads this, cluster, cluster.store
    {
      Inside(g) && Obedient(log, heard, script, whole, base, Ops(g))
    }

    /** Notes the action about to be taken. */
    ghost method Log(op: Op, ops: seq<Op>)
      requires Obedient(log, heard, script, whole, base, ops) && Obeys(Deed(heard, op))
      modifies this`log
      ensures Obedient(log, None, script, whole, base, ops + [op])
    {
      hide Obeys, Obedient;
      ActsOn(log, Deed(heard, op), script, whole, base, ops);
      log := log + [Deed(heard, op)];
    }

    method Die(g: string)
      requires Due(g) && Pc(g) != Idle
      requires Obeys(Deed(heard, Op.Crash))
      modifies this`log, cluster, cluster.store
      ensures Ready(g) && Pc(g) == Idle && Ops(g) == old(Ops(g)) + [Op.Crash] && old(Rows(g)) <= Rows(g)
    {
      hide Apply, Acted, Foreign, Steady, Cluster.Valid, Obedient, Mine, Obeys;
      RowsStay(cluster.ConfigOf(g), cluster.State(g), Do(id, Op.Crash));
      CrashKeeps(cluster.ConfigOf(g), cluster.State(g), id);
      ActionSteady(since, cluster.entries, cluster.ConfigOf(g), Do(id, Op.Crash), g, id);
      OwnAdds(cluster.entries, cluster.ConfigOf(g), Op.Crash, id);
      Log(Op.Crash, Ops(g));
      cluster.Perform(g, Do(id, Op.Crash));
    }

    method Others(g: string, others: seq<(string, Action)>)
      requires Inside(g)
      modifies cluster, cluster.store
      ensures Inside(g) && Loc(g) == old(Loc(g)) && Ops(g) == old(Ops(g)) && old(Rows(g)) <= Rows(g)
    {
      hide Apply, Acted, Foreign, Steady, Cluster.Valid, Obedient, Mine;
      for i := 0 to |others|
        invariant Inside(g) && Loc(g) == old(Loc(g)) && Ops(g) == old(Ops(g)) && old(Rows(g)) <= Rows(g)
      {
        var (h, a) := others[i];
        if h in cluster.entries && Foreign(a, id) {
          ActionSteady(since, cluster.entries, cluster.ConfigOf(h), a, g, id);
          OthersAdd(cluster.entries, cluster.ConfigOf(h), a, g, id);
          cluster.Perform(h, a);
        }
      }
    }

    /** The rest of the world acts; then the worker acts, or dies. */
    method Tick(g: string) returns (r: Option<Reply>)
      requires Ready(g) && Pc(g) != Idle
      modifies this`script, this`heard, this`log, cluster, cluster.store
      ensures Inside(g) && old(Rows(g)) <= Rows(g) && if r.Some? then Due(g) else Ready(g)
      ensures r.Some? ==> heard == r && r.value.alive && Loc(g) == old(Loc(g)) && Ops(g) == old(Ops(g))
      ensures r.Some? ==> old(script) != [] && r.value == old(script)[0] && script == old(script)[1..]
      ensures r.None? ==> DeadReply(heard) && Pc(g) == Idle && Ops(g) == old(Ops(g)) + [Op.Crash]
      ensures r.None? ==> old(script) == [] || !old(script)[0].alive
    {
      hide Steady, Cluster.Valid, Obedient, Mine;
      heard := None;
      if script == [] {
        Die(g);
        return None;
      }
      var reply := script[0];
      HearsNext(log, script, whole, base, Ops(g));
      script, heard := script[1..], Some(reply);
      Others(g, reply.others);
      if !reply.alive {
        Die(g);
        return None;
      }
      return Some(reply);
    }

    /** The row a copy names exists. */
    lemma Named(g: string)
      requires Inside(g)
      ensures var pc := Pc(g);
        pc.Flag? || pc.Mark? || pc.Learn? || pc.Call? || pc.Probe? || pc.Authorize? ==>
          pc.e.step in Rows(g) && cluster.State(g).slice.effects[pc.e.step].step == pc.e.step
    {
      hide Protocol.Run, Invariants.Inv;
      TrackedInv(cluster.ConfigOf(g), cluster.entries[g], cluster.store.Slice(g));
      CopiesNamed(cluster.ConfigOf(g), cluster.State(g), id);
    }

    /** The goal's state is what its history makes of it. */
    lemma Follows(g: string)
      requires Inside(g)
      ensures cluster.State(g) == Protocol.Run(cluster.ConfigOf(g), INIT, cluster.entries[g].trail)
    {
      hide Protocol.Run;
      assert Tracked(cluster.ConfigOf(g), cluster.entries[g], cluster.store.Slice(g));
    }

    /** One of the worker's own actions. */
    method Act(g: string, op: Op)
      requires Due(g) && Obeys(Deed(heard, op)) && !op.Heartbeat?
      modifies this`log, cluster, cluster.store
      ensures Ready(g) && Ops(g) == old(Ops(g)) + [op]
      ensures cluster.State(g) == Apply(cluster.ConfigOf(g), old(cluster.State(g)), Do(id, op))
      ensures Loc(g) == After(cluster.ConfigOf(g), old(cluster.State(g)), id, op) && old(Rows(g)) <= Rows(g)
      ensures forall k: nat :: Before(g, k) == old(Row(g, k))
    {
      hide Apply, Acted, Foreign, Steady, Cluster.Valid, Obedient, Mine, Protocol.Run, Obeys;
      Follows(g);
      ActionSteady(since, cluster.entries, cluster.ConfigOf(g), Do(id, op), g, id);
      OwnAdds(cluster.entries, cluster.ConfigOf(g), op, id);
      RowsStay(cluster.ConfigOf(g), cluster.State(g), Do(id, op));
      Log(op, Ops(g));
      cluster.Perform(g, Do(id, op));
      assert cluster.entries[g].trail == old(cluster.entries[g].trail) + [Do(id, op)];
      assert cluster.entries[g].trail[..|cluster.entries[g].trail| - 1] == old(cluster.entries[g].trail);
    }

    /** Run gives up: the reply it went by was a fault. */
    method Fail(g: string) returns (r: RunResult)
      requires Due(g) && Pc(g) != Idle
      requires Obeys(Deed(heard, Op.Fault))
      modifies this`log, cluster, cluster.store
      ensures Ready(g) && Ops(g) == old(Ops(g)) + [Op.Fault] && old(Rows(g)) <= Rows(g)
      ensures r == Broke && Loc(g) == old(Loc(g)).(pc := Leave)
    {
      hide After, Apply, Steady, Cluster.Valid, Obedient, Mine, Obeys;
      AfterFault(cluster.ConfigOf(g), cluster.State(g), id);
      Act(g, Op.Fault);
      return Broke;
    }

    /** The next database call of Run comes back, or Run is cut short. */
    method Proceed(g: string) returns (r: Option<RunResult>, ghost ops: seq<Op>)
      requires Ready(g) && Pc(g) != Idle
      modifies this`script, this`heard, this`log, cluster, cluster.store
      ensures Inside(g) && old(Rows(g)) <= Rows(g) && Ops(g) == old(Ops(g)) + ops
      ensures if r.None? then Due(g) && heard.Some? && heard.value.alive && !heard.value.fault else Ready(g)
      ensures r.None? ==> ops == [] && Loc(g) == old(Loc(g))
      ensures r.Some? ==> |ops| == 1 && Halted(ops[0], r.value, heard)
      ensures r.Some? ==> Stands(Pc(g), r.value) && SameTurn(old(Loc(g)), Loc(g))
    {
      hide After, Apply, Steady, Cluster.Valid, Obedient, Mine;
      var t := Tick(g);
      if t.None? {
        return Some(Died), [Op.Crash];
      }
      if t.value.fault {
        var broke := Fail(g);
        return Some(broke), [Op.Fault];
      }
      return None, [];
    }

    // ---- the executor -------------------------------------------------------------------------------

    /** Records a result; the answer is the row's final status, whoever settled it. */
    method Conclude(g: string, e: Effect, o: Outcome) returns (r: RunResult, ghost ops: seq<Op>)
      requires Ready(g) && Pc(g) == Learn(e, o)
      modifies this`script, this`heard, this`log, cluster, cluster.store
      ensures Ready(g) && Stands(Pc(g), r) && SameTurn(old(Loc(g)), Loc(g)) && old(Rows(g)) <= Rows(g)
      ensures Ops(g) == old(Ops(g)) + ops && Concluded(ops, r, o, Left(g, e.step), heard)
    {
      hide After, Apply, Steady, Cluster.Valid, Obedient, Mine;
      var cut;
      cut, ops := Proceed(g);
      if cut.Some? {
        return cut.value, ops;
      }
      var ne := Record(g, e, o);
      ops := [RecordResult];
      match ne.status {
        case Committed => return Stored(ne), ops;
        case Failed => return ToolFailed(ne), ops;
        case _ => return InReview(ne), ops;
      }
    }

    method Record(g: string, e: Effect, o: Outcome) returns (ne: Effect)
      requires Due(g) && Pc(g) == Learn(e, o)
      requires Obeys(Deed(heard, Op.RecordResult))
      modifies this`log, cluster, cluster.store
      ensures Ready(g) && Loc(g) == old(Loc(g)).(pc := SettleFinal(ne)) && old(Rows(g)) <= Rows(g)
      ensures Ops(g) == old(Ops(g)) + [RecordResult] && Row(g, e.step) == Some(ne)
      ensures old(Row(g, e.step)).Some? && Before(g, e.step) == old(Row(g, e.step))
        && FirstWins(old(Row(g, e.step)).value, o, ne)
    {
      hide Acted, Apply, Foreign, Settled, FirstWins, Steady, Cluster.Valid, Obedient, Mine, Protocol.Run, Obeys;
      Named(g);
      Follows(g);
      AfterRecord(cluster.ConfigOf(g), cluster.State(g), id);
      RecordedRow(cluster.ConfigOf(g), cluster.State(g), id);
      RowsStay(cluster.ConfigOf(g), cluster.State(g), Do(id, Op.RecordResult));
      ActionSteady(since, cluster.entries, cluster.ConfigOf(g), Do(id, Op.RecordResult), g, id);
      OwnAdds(cluster.entries, cluster.ConfigOf(g), Op.RecordResult, id);
      Log(Op.RecordResult, Ops(g));
      ne := cluster.RecordResult(g, id, e, o);
      assert cluster.entries[g].trail == old(cluster.entries[g].trail) + [Do(id, Op.RecordResult)];
      assert cluster.entries[g].trail[..|cluster.entries[g].trail| - 1] == old(cluster.entries[g].trail);
    }

    /** Marks the row for review; the step ends with the goal paused. */
    method SendToReview(g: string, e: Effect, why: string) returns (r: RunResult, ghost ops: seq<Op>)
      requires Ready(g) && Pc(g) == Flag(e)
      modifies this`script, this`heard, this`log, cluster, cluster.store
      ensures Ready(g) && Stands(Pc(g), r) && SameTurn(old(Loc(g)), Loc(g)) && old(Rows(g)) <= Rows(g)
      ensures Ops(g) == old(Ops(g)) + ops && Reviewed(ops, r, e, Left(g, e.step), heard)
      ensures r == InReview(e) || r == Broke || r == Died
    {
      hide After, Apply, Steady, Cluster.Valid, Obedient, Mine;
      var cut;
      cut, ops := Proceed(g);
      if cut.Some? {
        return cut.value, ops;
      }
      Named(g);
      AfterFlag(cluster.ConfigOf(g), cluster.State(g), id, why);
      FlaggedRow(cluster.ConfigOf(g), cluster.State(g), id, why);
      Act(g, Op.FlagReview(why));
      return InReview(e), [Op.FlagReview(why)];
    }

    /** Authorises, counts the attempt, calls the tool and records what it returned, in this order. */
    method Execute(g: string, e: Effect) returns (r: RunResult, ghost ops: seq<Op>)
      requires Ready(g) && Pc(g) == Authorize(e)
      modifies this`script, this`heard, this`log, cluster, cluster.store
      ensures Ready(g) && Stands(Pc(g), r) && SameTurn(old(Loc(g)), Loc(g)) && old(Rows(g)) <= Rows(g)
      ensures Ops(g) == old(Ops(g)) + ops && Executed(ops, r, e, Left(g, e.step), heard)
    {
      hide After, Apply, Steady, Cluster.Valid, Obedient, Mine, Invoked, Left, Before, Obeys;
      var allowed := Authorise(g, e);
      if allowed.None? {
        return Died, [Op.Crash];
      }
      if !allowed.value {
        return Denied(e), [Op.Authorise(false)];
      }
      ghost var more;
      r, more := Invoke(g, e);
      InvokedSome(more, r, Left(g, e.step), heard);
      ops := [Op.Authorise(true)] + more;
      assert ops[1..] == more;
    }

    /** Asks the authoriser. */
    method Authorise(g: string, e: Effect) returns (allowed: Option<bool>)
      requires Ready(g) && Pc(g) == Authorize(e)
      modifies this`script, this`heard, this`log, cluster, cluster.store
      ensures Ready(g) && old(Rows(g)) <= Rows(g)
      ensures allowed.None? ==> Pc(g) == Idle && Ops(g) == old(Ops(g)) + [Op.Crash] && DeadReply(heard)
      ensures allowed.Some? ==>
        && Loc(g) == old(Loc(g)).(pc := if allowed.value then Mark(e) else Fence(Paused, false))
        && Ops(g) == old(Ops(g)) + [Op.Authorise(allowed.value)]
    {
      hide After, Apply, Steady, Cluster.Valid, Obedient, Mine;
      var t := Tick(g);
      if t.None? {
        return None;
      }
      AfterAuthorise(cluster.ConfigOf(g), cluster.State(g), id, t.value.allowed);
      Act(g, Op.Authorise(t.value.allowed));
      return Some(t.value.allowed);
    }

    method Invoke(g: string, e: Effect) returns (r: RunResult, ghost ops: seq<Op>)
      requires Ready(g) && Pc(g) == Mark(e)
      modifies this`script, this`heard, this`log, cluster, cluster.store
      ensures Ready(g) && Stands(Pc(g), r) && SameTurn(old(Loc(g)), Loc(g)) && old(Rows(g)) <= Rows(g)
      ensures Ops(g) == old(Ops(g)) + ops && Invoked(ops, r, Left(g, e.step), heard)
    {
      hide After, Apply, Steady, Cluster.Valid, Obedient, Mine, Invoked, Halted, Left, Before;
      var cut;
      cut, ops := Proceed(g);
      if cut.Some? {
        NotInvoked(ops, cut.value, Left(g, e.step), heard);
        return cut.value, ops;
      }
      r, ops := MarkAndCall(g, e);
    }

    method MarkAndCall(g: string, e: Effect) returns (r: RunResult, ghost ops: seq<Op>)
      requires Due(g) && Pc(g) == Mark(e)
      requires Obeys(Deed(heard, Op.MarkAttempt))
      modifies this`script, this`heard, this`log, cluster, cluster.store
      ensures Ready(g) && Stands(Pc(g), r) && SameTurn(old(Loc(g)), Loc(g)) && old(Rows(g)) <= Rows(g)
      ensures Ops(g) == old(Ops(g)) + ops && Invoked(ops, r, Left(g, e.step), heard)
    {
      hide After, Apply, Steady, Cluster.Valid, Obedient, Mine, Invoked, Concluded, Obeys, Left, Before;
      hide Rows, Ops;
      MarkRow(g, e);
      ghost var more;
      r, more := CallAndConclude(g, e);
      InvokedFrom(more, r, Left(g, e.step), heard);
      ops := [Op.MarkAttempt] + more;
    }

    /** Counts the attempt. */
    method MarkRow(g: string, e: Effect)
      requires Due(g) && Pc(g) == Mark(e)
      requires Obeys(Deed(heard, Op.MarkAttempt))
      modifies this`log, cluster, cluster.store
      ensures Ready(g) && Ops(g) == old(Ops(g)) + [Op.MarkAttempt] && old(Rows(g)) <= Rows(g)
      ensures Loc(g) == old(Loc(g)).(pc := Call(e))
    {
      hide After, Apply, Steady, Cluster.Valid, Obedient, Mine, Obeys;
      Named(g);
      AfterMark(cluster.ConfigOf(g), cluster.State(g), id);
      Act(g, Op.MarkAttempt);
    }

    method CallAndConclude(g: string, e: Effect) returns (r: RunResult, ghost ops: seq<Op>)
      requires Ready(g) && Pc(g) == Call(e)
      modifies this`script, this`heard, this`log, cluster, cluster.store
      ensures Ready(g) && Stands(Pc(g), r) && SameTurn(old(Loc(g)), Loc(g)) && old(Rows(g)) <= Rows(g)
      ensures Ops(g) == old(Ops(g)) + ops
      ensures (ops == [Op.Crash] && r == Died && DeadReply(heard))
           || (|ops| == 2 && ops[0].CallTool? && Concluded(ops[1..], r, ops[0].outcome, Left(g, e.step), heard))
    {
      hide Steady, Cluster.Valid, Obedient, Mine, Concluded, Stands, SameTurn, Left, Before;
      hide Rows, Ops;
      var t := Tick(g);
      if t.None? {
        StandsDead(Pc(g));
        DeadTurn(old(Loc(g)), Loc(g));
        return Died, [Op.Crash];
      }
      MakeCall(g, e, t.value.outcome, t.value.wrote);
      ghost var before := Loc(g);
      ghost var more;
      r, more := Conclude(g, e, t.value.outcome);
      SameTurnOn(old(Loc(g)), before, Loc(g));
      ConcludedOne(more, r, t.value.outcome, Left(g, e.step), heard);
      ops := [Op.CallTool(t.value.outcome, t.value.wrote)] + more;
      assert ops[1..] == more;
    }

    method MakeCall(g: string, e: Effect, o: Outcome, wrote: bool)
      requires Due(g) && Pc(g) == Call(e)
      requires Obeys(Deed(heard, Op.CallTool(o, wrote)))
      modifies this`log, cluster, cluster.store
      ensures Ready(g) && Ops(g) == old(Ops(g)) + [Op.CallTool(o, wrote)] && old(Rows(g)) <= Rows(g)
      ensures Loc(g) == old(Loc(g)).(pc := Learn(e, o))
    {
      hide After, Apply, Steady, Cluster.Valid, Obedient, Mine, Obeys;
      Named(g);
      AfterCall(cluster.ConfigOf(g), cluster.State(g), id, o, wrote);
      Act(g, Op.CallTool(o, wrote));
    }

    /** Resolves a row left in intent by a crash. */
    method Reconcile(g: string, e: Effect) returns (r: RunResult, ghost ops: seq<Op>)
      requires Ready(g) && e.status == Intent && Pc(g) == Settle(cluster.ConfigOf(g), e)
      modifies this`script, this`heard, this`log, cluster, cluster.store
      ensures Ready(g) && Stands(Pc(g), r) && SameTurn(old(Loc(g)), Loc(g)) && old(Rows(g)) <= Rows(g)
      ensures Ops(g) == old(Ops(g)) + ops && Reconciled(cluster.probers, ops, r, e, Left(g, e.step), heard)
    {
      assert Pc(g) == if e.attempts == 0 then Authorize(e) else if e.tool in cluster.probers then Probe(e) else Flag(e);
      hide After, Steady, Cluster.Valid, Obedient, Stands, SameTurn, Settle, Mine, Executed, Reviewed, ProbedFirst;
      hide Left, Before;
      if e.attempts == 0 {
        r, ops := Execute(g, e);
        return;
      }
      if e.tool !in cluster.probers {
        r, ops := SendToReview(g, e, "in-doubt after crash; tool has no reconciliation probe");
        return;
      }
      r, ops := ProbeRow(g, e);
    }

    /** Asks the tool's probe whether the earlier attempt took effect. */
    method ProbeRow(g: string, e: Effect) returns (r: RunResult, ghost ops: seq<Op>)
      requires Ready(g) && Pc(g) == Probe(e)
      modifies this`script, this`heard, this`log, cluster, cluster.store
      ensures Ready(g) && Stands(Pc(g), r) && SameTurn(old(Loc(g)), Loc(g)) && old(Rows(g)) <= Rows(g)
      ensures Ops(g) == old(Ops(g)) + ops && ProbedFirst(ops, r, e, Left(g, e.step), heard)
    {
      hide After, Apply, Steady, Cluster.Valid, Obedient, Settle, Mine, ProbedFirst, Told, Stands, DeadReply;
      hide Rows, Ops;
      var answer := AskRow(g, e);
      if answer.None? {
        NotProbed(e, Left(g, e.step), heard);
        StandsDead(Pc(g));
        return Died, [Op.Crash];
      }
      ghost var more;
      r, more := Follow(g, e, answer.value);
      ProbedFrom(answer.value, more, r, e, Left(g, e.step), heard);
      ops := [Op.AskProbe(answer.value)] + more;
    }

    method AskRow(g: string, e: Effect) returns (answer: Option<ProbeAnswer>)
      requires Ready(g) && Pc(g) == Probe(e)
      modifies this`script, this`heard, this`log, cluster, cluster.store
      ensures Ready(g) && old(Rows(g)) <= Rows(g)
      ensures answer.None? ==> Pc(g) == Idle && Ops(g) == old(Ops(g)) + [Op.Crash] && DeadReply(heard)
      ensures answer.Some? ==>
        && Loc(g) == old(Loc(g)).(pc := match answer.value
                                        case Broken => Flag(e)
                                        case Missing => Authorize(e)
                                        case Happened(x) => Learn(e, Ok(x)))
        && Ops(g) == old(Ops(g)) + [Op.AskProbe(answer.value)]
    {
      hide After, Apply, Steady, Cluster.Valid, Obedient, Mine;
      var t := Tick(g);
      if t.None? {
        return None;
      }
      AfterProbe(cluster.ConfigOf(g), cluster.State(g), id, t.value.probe);
      Act(g, Op.AskProbe(t.value.probe));
      return Some(t.value.probe);
    }

    /** What the probe's answer calls for. */
    method Follow(g: string, e: Effect, answer: ProbeAnswer) returns (r: RunResult, ghost ops: seq<Op>)
      requires Ready(g)
      requires Pc(g) ==
        match answer case Broken => Flag(e) case Missing => Authorize(e) case Happened(x) => Learn(e, Ok(x))
      modifies this`script, this`heard, this`log, cluster, cluster.store
      ensures Ready(g) && Stands(Pc(g), r) && SameTurn(old(Loc(g)), Loc(g)) && old(Rows(g)) <= Rows(g)
      ensures Ops(g) == old(Ops(g)) + ops && Told(answer, ops, r, e, Left(g, e.step), heard)
    {
      hide Steady, Cluster.Valid, Obedient, Mine, Executed, Reviewed, Concluded, Stands, SameTurn;
      match answer {
        case Broken => r, ops := SendToReview(g, e, "probe error");
        case Happened(result) => r, ops := Conclude(g, e, Ok(result));
        case Missing => r, ops := Execute(g, e);
      }
    }

    /** A row that already existed. */
    method SettleRow(g: string, e: Effect) returns (r: RunResult, ghost ops: seq<Op>)
      requires Ready(g) && Pc(g) == Settle(cluster.ConfigOf(g), e)
      modifies this`script, this`heard, this`log, cluster, cluster.store
      ensures Ready(g) && Stands(Pc(g), r) && SameTurn(old(Loc(g)), Loc(g)) && old(Rows(g)) <= Rows(g)
      ensures Ops(g) == old(Ops(g)) + ops && Answered(cluster.probers, ops, r, e, Left(g, e.step), heard)
    {
      hide Steady, Cluster.Valid, Obedient, Mine, Reconciled, Left, Before;
      match e.status {
        case Committed => return Stored(e), [];
        case Failed => return ToolFailed(e), [];
        case NeedsReview => return InReview(e), [];
        case Intent => r, ops := Reconcile(g, e);
      }
    }

    /** One step's tool call: intent, then the call, then its result; or the recovery of an earlier try. */
    method Run(g: string, step: nat, tool: string, args: Json) returns (r: RunResult, ghost x: Report)
      requires Ready(g) && Pc(g) == Intend(step, tool, args)
      modifies this`script, this`heard, this`log, cluster, cluster.store
      ensures Ready(g) && Stands(Pc(g), r) && SameTurn(old(Loc(g)), Loc(g)) && old(Rows(g)) <= Rows(g)
      ensures Ops(g) == old(Ops(g)) + x.ops && RanCall(cluster.probers, KeyOf(tool, args, g, step), step, tool, args, x)
      ensures x.r == r && x.heard == heard && (x.found.Some? ==> x.row == Left(g, x.found.value.step))
      ensures x.ops == [Op.CommitIntent] && r == Broke ==>
        NotTheirs(cluster.State(g), id, step, KeyOf(tool, args, g, step))
    {
      hide After, Apply, Steady, Cluster.Valid, Obedient, KeyOf, Mine, RanCall, NotTheirs, Halted, Left, Before;
      ghost var ops;
      var cut;
      cut, ops := Proceed(g);
      if cut.Some? {
        x := Report(ops, cut.value, None, false, UNSEEN, heard);
        NotRun(cluster.probers, KeyOf(tool, args, g, step), step, tool, args, x);
        return cut.value, x;
      }
      r, x := RunIntent(g, step, tool, args);
    }

    method RunIntent(g: string, step: nat, tool: string, args: Json) returns (r: RunResult, ghost x: Report)
      requires Due(g) && Pc(g) == Intend(step, tool, args)
      requires Obeys(Deed(heard, Op.CommitIntent))
      modifies this`script, this`heard, this`log, cluster, cluster.store
      ensures Ready(g) && Stands(Pc(g), r) && SameTurn(old(Loc(g)), Loc(g)) && old(Rows(g)) <= Rows(g)
      ensures Ops(g) == old(Ops(g)) + x.ops && RanCall(cluster.probers, KeyOf(tool, args, g, step), step, tool, args, x)
      ensures x.r == r && x.heard == heard && (x.found.Some? ==> x.row == Left(g, x.found.value.step))
      ensures x.ops == [Op.CommitIntent] && r == Broke ==>
        NotTheirs(cluster.State(g), id, step, KeyOf(tool, args, g, step))
      ensures x.ops != [] && x.ops[0] == Op.CommitIntent
    {
      hide After, Apply, Steady, Cluster.Valid, Obedient, KeyOf, Mine, Executed, Answered, NotTheirs, RanCall, Obeys;
      hide Rows, Ops;
      hide Left, Before;
      var key := KeyOf(tool, args, g, step);
      var answer := CommitIntent(g, key, step, tool, args);
      x := Report([Op.CommitIntent], Broke, None, false, UNSEEN, heard);
      Unrecorded(cluster.probers, key, step, tool, args, heard);
      if answer.Failure? {
        return Broke, x;
      }
      var (e, created) := answer.value;
      if !created {
        if e.key != key {
          return Broke, x;
        }
        r, x := TakeUp(g, key, step, tool, args, e);
        return;
      }
      r, x := Start(g, key, step, tool, args, e);
    }

    /** The row was there: Run's answer follows from its status. */
    method TakeUp(g: string, key: string, step: nat, tool: string, args: Json, e: Effect)
      returns (r: RunResult, ghost x: Report)
      requires Ready(g) && Pc(g) == Settle(cluster.ConfigOf(g), e) && e.key == key
      modifies this`script, this`heard, this`log, cluster, cluster.store
      ensures Ready(g) && Stands(Pc(g), r) && SameTurn(old(Loc(g)), Loc(g)) && old(Rows(g)) <= Rows(g)
      ensures [Op.CommitIntent] <= x.ops && Ops(g) == old(Ops(g)) + x.ops[1..]
        && RanCall(cluster.probers, key, step, tool, args, x)
      ensures x.r == r && x.heard == heard && x.found == Some(e) && x.row == Left(g, e.step)
      ensures x.ops != [Op.CommitIntent] || r != Broke
    {
      hide Steady, Cluster.Valid, Obedient, Mine, Reconciled, Settle, Left, Before;
      ghost var more;
      r, more := SettleRow(g, e);
      if e.status == Intent {
        ReconciledSome(cluster.probers, more, r, e, Left(g, e.step), heard);
      }
      x := Report([Op.CommitIntent] + more, r, Some(e), false, Left(g, e.step), heard);
      assert x.ops[1..] == more;
    }

    /** The row is new: the call is made. */
    method Start(g: string, key: string, step: nat, tool: string, args: Json, e: Effect)
      returns (r: RunResult, ghost x: Report)
      requires Ready(g) && Pc(g) == Authorize(e) && e == NewEffect(key, step, tool, args)
      modifies this`script, this`heard, this`log, cluster, cluster.store
      ensures Ready(g) && Stands(Pc(g), r) && SameTurn(old(Loc(g)), Loc(g)) && old(Rows(g)) <= Rows(g)
      ensures [Op.CommitIntent] <= x.ops && Ops(g) == old(Ops(g)) + x.ops[1..]
        && RanCall(cluster.probers, key, step, tool, args, x)
      ensures x.r == r && x.heard == heard && x.found == Some(e) && x.row == Left(g, e.step)
      ensures x.ops != [Op.CommitIntent] || r != Broke
    {
      hide Steady, Cluster.Valid, Obedient, Mine, Executed, Left, Before;
      ghost var more;
      r, more := Execute(g, e);
      ExecutedSome(more, r, e, Left(g, e.step), heard);
      x := Report([Op.CommitIntent] + more, r, Some(e), true, Left(g, e.step), heard);
      assert x.ops[1..] == more;
    }

    method CommitIntent(g: string, key: string, step: nat, tool: string, args: Json)
      returns (r: Result<(Effect, bool), StoreError>)
      requires Due(g) && Pc(g) == Intend(step, tool, args) && key == KeyOf(tool, args, g, step)
      requires Obeys(Deed(heard, Op.CommitIntent))
      modifies this`log, cluster, cluster.store
      ensures Ready(g) && Ops(g) == old(Ops(g)) + [Op.CommitIntent] && old(Rows(g)) <= Rows(g)
      ensures Loc(g) == old(Loc(g)).(pc :=
        if r.Failure? then Leave
        else if r.value.1 then Authorize(r.value.0)
        else if r.value.0.key != key then Leave
        else Settle(cluster.ConfigOf(g), r.value.0))
      ensures r.Success? && r.value.1 ==> r.value.0 == NewEffect(key, step, tool, args)
      ensures r.Failure? || (!r.value.1 && r.value.0.key != key) ==> NotTheirs(cluster.State(g), id, step, key)
    {
      hide Apply, Acted, Foreign, Steady, Cluster.Valid, Obedient, KeyOf, Mine, Obeys;
      AfterIntent(cluster.ConfigOf(g), cluster.State(g), id);
      if !HoldsLease(cluster.State(g), id) || step in Rows(g) {
        RefusedIntent(cluster.ConfigOf(g), cluster.State(g), id);
      }
      RowsStay(cluster.ConfigOf(g), cluster.State(g), Do(id, Op.CommitIntent));
      ActionSteady(since, cluster.entries, cluster.ConfigOf(g), Do(id, Op.CommitIntent), g, id);
      OwnAdds(cluster.entries, cluster.ConfigOf(g), Op.CommitIntent, id);
      Log(Op.CommitIntent, Ops(g));
      r := cluster.CommitIntent(g, id, key, step, tool, args);
    }

    // ---- the driver ---------------------------------------------------------------------------------

    /** RunOnce is left. */
    method GiveUp(g: string) returns (t: Turn)
      requires Due(g) && Pc(g) != Idle
      requires Obeys(Deed(heard, Op.Fault))
      modifies this`log, cluster, cluster.store
      ensures Ready(g) && Ends(old(Loc(g)), Loc(g), t) && t == Stop
      ensures Ops(g) == old(Ops(g)) + [Op.Fault] && old(Rows(g)) <= Rows(g)
    {
      hide Steady, Cluster.Valid, Obedient, Mine, Obeys;
      var _ := Fail(g);
      return Stop;
    }

    /** The driver's next call comes back, or the turn is cut short. */
    method Attend(g: string) returns (reply: Option<Reply>, t: Turn, ghost ops: seq<Op>)
      requires Ready(g) && Pc(g) != Idle
      modifies this`script, this`heard, this`log, cluster, cluster.store
      ensures Inside(g) && old(Rows(g)) <= Rows(g) && Ops(g) == old(Ops(g)) + ops
      ensures if reply.Some? then Due(g) else Ready(g)
      ensures reply.Some? ==>
        ops == [] && Loc(g) == old(Loc(g)) && heard == reply && reply.value.alive && !reply.value.fault
      ensures reply.None? ==> |ops| == 1 && Cut(ops[0], t, heard) && Ends(old(Loc(g)), Loc(g), t)
    {
      hide Steady, Cluster.Valid, Obedient, Mine;
      reply := Tick(g);
      if reply.None? {
        return None, Dead, [Op.Crash];
      }
      if reply.value.fault {
        t := GiveUp(g);
        return None, t, [Op.Fault];
      }
      return reply, Again, [];
    }

    /** A fenced transition, after which the loop goes round again or RunOnce ends. */
    method Move(g: string, to: State, again: bool) returns (t: Turn, ghost ops: seq<Op>)
      requires Ready(g) && Pc(g) == Fence(to, again)
      modifies this`script, this`heard, this`log, cluster, cluster.store
      ensures Ready(g) && Ends(old(Loc(g)), Loc(g), t)
      ensures Ops(g) == old(Ops(g)) + ops && MovedOn(ops, t, to, again, cluster.State(g), id, heard)
    {
      hide Steady, Cluster.Valid, Obedient, Mine;
      var reply;
      reply, t, ops := Attend(g);
      if reply.None? {
        return;
      }
      t := TransitionFenced(g, to, again);
      ops := [Op.Transition];
    }

    method TransitionFenced(g: string, to: State, again: bool) returns (t: Turn)
      requires Due(g) && Pc(g) == Fence(to, again)
      requires Obeys(Deed(heard, Op.Transition))
      modifies this`log, cluster, cluster.store
      ensures Ready(g) && Ends(old(Loc(g)), Loc(g), t) && Ops(g) == old(Ops(g)) + [Op.Transition]
      ensures MovedOn([Op.Transition], t, to, again, cluster.State(g), id, heard)
    {
      hide Apply, Acted, Foreign, Steady, Cluster.Valid, Obedient, CanTransition, Mine, Obeys;
      AfterTransition(cluster.ConfigOf(g), cluster.State(g), id);
      MovedGoal(cluster.ConfigOf(g), cluster.State(g), id);
      ActionSteady(since, cluster.entries, cluster.ConfigOf(g), Do(id, Op.Transition), g, id);
      OwnAdds(cluster.entries, cluster.ConfigOf(g), Op.Transition, id);
      Log(Op.Transition, Ops(g));
      var ok := cluster.TransitionFenced(g, id, to);
      return if ok && again then Again else Stop;
    }

    /** Commits the step of a stored result and goes round again. */
    method Finish(g: string, e: Effect) returns (t: Turn, ghost ops: seq<Op>)
      requires Ready(g) && Pc(g) == Advance(e)
      modifies this`script, this`heard, this`log, cluster, cluster.store
      ensures Ready(g) && Ends(old(Loc(g)), Loc(g), t)
      ensures Ops(g) == old(Ops(g)) + ops && SteppedOn(ops, t, e.step, cluster.State(g), id, heard)
    {
      hide Steady, Cluster.Valid, Obedient, Mine;
      var reply;
      reply, t, ops := Attend(g);
      if reply.None? {
        return;
      }
      t := CommitStep(g, e);
      ops := [AdvanceCursor];
    }

    method CommitStep(g: string, e: Effect) returns (t: Turn)
      requires Due(g) && Pc(g) == Advance(e)
      requires Obeys(Deed(heard, Op.AdvanceCursor))
      modifies this`log, cluster, cluster.store
      ensures Ready(g) && Ends(old(Loc(g)), Loc(g), t) && Ops(g) == old(Ops(g)) + [AdvanceCursor]
      ensures SteppedOn([AdvanceCursor], t, e.step, cluster.State(g), id, heard)
    {
      hide Apply, Acted, Foreign, Steady, Cluster.Valid, Obedient, Mine, Obeys;
      AfterAdvance(cluster.ConfigOf(g), cluster.State(g), id);
      AdvancedGoal(cluster.ConfigOf(g), cluster.State(g), id);
      ActionSteady(since, cluster.entries, cluster.ConfigOf(g), Do(id, Op.AdvanceCursor), g, id);
      OwnAdds(cluster.entries, cluster.ConfigOf(g), AdvanceCursor, id);
      Log(AdvanceCursor, Ops(g));
      var ok := cluster.CommitStep(g, id, e);
      return if ok then Again else Stop;
    }

    /** Runs one call and moves the goal according to how it ended. */
    method RunStep(g: string, step: nat, tool: string, args: Json)
      returns (t: Turn, ghost x: Report, ghost end: seq<Op>)
      requires Ready(g) && Pc(g) == Intend(step, tool, args)
      modifies this`script, this`heard, this`log, cluster, cluster.store
      ensures Ready(g) && Ends(old(Loc(g)), Loc(g), t)
      ensures Ops(g) == old(Ops(g)) + (x.ops + end)
      ensures RanCall(cluster.probers, KeyOf(tool, args, g, step), step, tool, args, x)
      ensures Followed(x.r, end, t, cluster.State(g), id, heard)
      ensures CallTrace(x.ops + end) && x.ops != []
        && EndsWith((x.ops + end)[|x.ops + end| - 1], t, cluster.State(g), id, heard)
    {
      hide Steady, Cluster.Valid, Obedient, Settle, KeyOf, Mine, RanCall, NotTheirs, EndsWith, CallTrace, Followed;
      var r;
      r, x := Run(g, step, tool, args);
      ghost var before := Loc(g);
      t, end := FollowRun(g, r);
      hide Ends, Stands, SameTurn;
      GoesOn(old(Loc(g)), before, r, Loc(g), t);
      RanOps(cluster.probers, KeyOf(tool, args, g, step), step, tool, args, x);
      StepOps(cluster.probers, KeyOf(tool, args, g, step), step, tool, args, x, end, t, cluster.State(g), id, heard);
    }

    /** The transition that Run's answer calls for. */
    method FollowRun(g: string, r: RunResult) returns (t: Turn, ghost end: seq<Op>)
      requires Ready(g) && Stands(Pc(g), r)
      modifies this`script, this`heard, this`log, cluster, cluster.store
      ensures Ready(g) && Ends(old(Loc(g)), Loc(g), t)
      ensures Ops(g) == old(Ops(g)) + end && Followed(r, end, t, cluster.State(g), id, heard)
      ensures r.Broke? || r.Died? ==> heard == old(heard) && cluster.State(g) == old(cluster.State(g))
      ensures r.Died? ==> t == Dead
    {
      hide Steady, Cluster.Valid, Obedient, Mine, MovedOn, SteppedOn;
      end := [];
      match r {
        case Stored(e) => t, end := Finish(g, e);
        case ToolFailed(_) => t, end := Move(g, State.Failed, false);
        case InReview(_) => t, end := Move(g, Paused, false);
        case Denied(_) => t, end := Move(g, Paused, false);
        case Broke => t := Stop;
        case Died => t := Dead;
      }
    }

    /** Records a call that needs approval, without making it, and pauses the goal. */
    method RequestApproval(g: string, step: nat, tool: string, args: Json) returns (t: Turn, ghost ops: seq<Op>)
      requires Ready(g) && Pc(g) == Request(step, tool, args)
      modifies this`script, this`heard, this`log, cluster, cluster.store
      ensures Ready(g) && Ends(old(Loc(g)), Loc(g), t) && Ops(g) == old(Ops(g)) + ops
      ensures RequestTrace(ops) && EndsWith(Last(ops), t, cluster.State(g), id, heard)
    {
      hide Steady, Cluster.Valid, Obedient, KeyOf, Mine, Cut, MovedOn, EndsWith, Ends;
      var reply;
      reply, t, ops := Attend(g);
      if reply.None? {
        CutEnds(ops, t, cluster.State(g), id, heard);
        return;
      }
      t, ops := MakeRequest(g, step, tool, args);
    }

    method MakeRequest(g: string, step: nat, tool: string, args: Json) returns (t: Turn, ghost ops: seq<Op>)
      requires Due(g) && Pc(g) == Request(step, tool, args)
      requires Obeys(Deed(heard, Op.CommitIntent))
      modifies this`script, this`heard, this`log, cluster, cluster.store
      ensures Ready(g) && Ends(old(Loc(g)), Loc(g), t) && Ops(g) == old(Ops(g)) + ops
      ensures RequestTrace(ops) && EndsWith(Last(ops), t, cluster.State(g), id, heard)
    {
      hide Steady, Cluster.Valid, Obedient, KeyOf, Mine, FlaggedFirst, MovedOn, Obeys;
      var answer := CommitRequest(g, step, tool, args);
      if answer.Failure? {
        return Stop, [Op.CommitIntent];
      }
      var (e, created) := answer.value;
      ghost var before := Loc(g);
      ghost var more: seq<Op>;
      t, more := PauseRequest(g, e, created);
      hide Ends, EndsWith, RequestTrace;
      EndsSame(old(Loc(g)), before, Loc(g), t);
      RequestFrom(more);
      LastOf([Op.CommitIntent], more);
      ops := [Op.CommitIntent] + more;
    }

    method PauseRequest(g: string, e: Effect, created: bool) returns (t: Turn, ghost ops: seq<Op>)
      requires Ready(g) && Pc(g) == if created then Flag(e) else Fence(Paused, false)
      modifies this`script, this`heard, this`log, cluster, cluster.store
      ensures Ready(g) && Ends(old(Loc(g)), Loc(g), t) && Ops(g) == old(Ops(g)) + ops
      ensures FlaggedFirst(ops) && ops != [] && EndsWith(Last(ops), t, cluster.State(g), id, heard)
    {
      hide Steady, Cluster.Valid, Obedient, Mine, MovedOn, EndsWith, Ends;
      if created {
        t, ops := FlagAndPause(g, e);
      } else {
        t, ops := Move(g, Paused, false);
        MoveEnds(ops, t, Paused, false, cluster.State(g), id, heard);
      }
    }

    /** The recorded call is put under review, and the goal paused. */
    method FlagAndPause(g: string, e: Effect) returns (t: Turn, ghost ops: seq<Op>)
      requires Ready(g) && Pc(g) == Flag(e)
      modifies this`script, this`heard, this`log, cluster, cluster.store
      ensures Ready(g) && Ends(old(Loc(g)), Loc(g), t) && Ops(g) == old(Ops(g)) + ops
      ensures FlaggedFirst(ops) && ops != [] && EndsWith(Last(ops), t, cluster.State(g), id, heard)
    {
      hide Steady, Cluster.Valid, Obedient, Mine, MovedOn, FlaggedFirst, EndsWith, Reviewed;
      hide Left, Before, Rows, Ops;
      var r;
      r, ops := SendToReview(g, e, "action derived from untrusted-sourced content");
      if r.Broke? || r.Died? {
        ReviewCut(ops, r, e, Left(g, e.step), cluster.State(g), id, heard);
        return if r.Broke? then Stop else Dead, ops;
      }
      ReviewMade(ops, r, e, Left(g, e.step), heard);
      ghost var before := Loc(g);
      ghost var more;
      t, more := Move(g, Paused, false);
      hide Ends;
      EndsSame(old(Loc(g)), before, Loc(g), t);
      MoveEnds(more, t, Paused, false, cluster.State(g), id, heard);
      FlaggedThen(ops[0].why, more);
      LastOf(ops, more);
      ops := ops + more;
    }

    method CommitRequest(g: string, step: nat, tool: string, args: Json) returns (r: Result<(Effect, bool), StoreError>)
      requires Due(g) && Pc(g) == Request(step, tool, args)
      requires Obeys(Deed(heard, Op.CommitIntent))
      modifies this`log, cluster, cluster.store
      ensures Ready(g) && Ops(g) == old(Ops(g)) + [Op.CommitIntent]
      ensures r.Failure? ==> !HoldsLease(cluster.State(g), id)
      ensures Loc(g) == old(Loc(g)).(pc :=
        if r.Failure? then Leave else if r.value.1 then Flag(r.value.0) else Fence(Paused, false))
    {
      hide Apply, Acted, Foreign, Steady, Cluster.Valid, Obedient, KeyOf, Mine, Obeys;
      AfterRequest(cluster.ConfigOf(g), cluster.State(g), id);
      if !HoldsLease(cluster.State(g), id) {
        RefusedIntent(cluster.ConfigOf(g), cluster.State(g), id);
      }
      ActionSteady(since, cluster.entries, cluster.ConfigOf(g), Do(id, Op.CommitIntent), g, id);
      OwnAdds(cluster.entries, cluster.ConfigOf(g), Op.CommitIntent, id);
      Log(Op.CommitIntent, Ops(g));
      r := cluster.CommitIntent(g, id, KeyOf(tool, args, g, step), step, tool, args);
    }

    /** Builds the agent's view: the committed steps, then the messages. */
    method ReadContext(g: string, step: nat, verify: bool) returns (r: Reading, ghost ops: seq<Op>)
      requires Ready(g) && Pc(g) == ReadSteps(step, verify)
      modifies this`script, this`heard, this`log, cluster, cluster.store
      ensures Ready(g) && Ops(g) == old(Ops(g)) + ops
      ensures r.Got? ==> Loc(g) == old(Loc(g)).(pc := if verify then Judge(r.ctx) else Ask(r.ctx)) && r.ctx.step == step
      ensures r.Unread? ==> !r.end.Again? && Ends(old(Loc(g)), Loc(g), r.end)
      ensures ReadSoFar(r, ops, heard)
    {
      hide After, Apply, Steady, Cluster.Valid, Obedient, Mine, Cut, ReadSoFar, Ends;
      var reply, t;
      reply, t, ops := Attend(g);
      if reply.None? {
        NothingRead(t, ops, heard);
        return Unread(t), ops;
      }
      AfterReadHistory(cluster.ConfigOf(g), cluster.State(g), id);
      var history := cluster.Steps(g);
      Act(g, Op.ReadHistory);
      ghost var before := Loc(g);
      r, ops := ReadMail(g, step, history, verify);
      if r.Unread? {
        EndsSame(old(Loc(g)), before, Loc(g), r.end);
      }
      HistoryRead(r, ops, heard);
      ops := [Op.ReadHistory] + ops;
    }

    method ReadMail(g: string, step: nat, history: map<nat, StepRow>, verify: bool)
      returns (r: Reading, ghost ops: seq<Op>)
      requires Ready(g) && Pc(g) == ReadMessages(step, history, verify)
      modifies this`script, this`heard, this`log, cluster, cluster.store
      ensures Ready(g) && Ops(g) == old(Ops(g)) + ops
      ensures r.Got? ==> Loc(g) == old(Loc(g)).(pc := if verify then Judge(r.ctx) else Ask(r.ctx)) && r.ctx.step == step
      ensures r.Got? ==> ops == [Op.ReadMail]
      ensures r.Unread? ==> !r.end.Again? && Ends(old(Loc(g)), Loc(g), r.end) && |ops| == 1 && Cut(ops[0], r.end, heard)
    {
      hide After, Apply, Steady, Cluster.Valid, Obedient, Mine;
      var reply, t;
      reply, t, ops := Attend(g);
      if reply.None? {
        return Unread(t), ops;
      }
      AfterReadMail(cluster.ConfigOf(g), cluster.State(g), id);
      var messages := cluster.Messages(g);
      Act(g, Op.ReadMail);
      return Got(Context(step, history, messages)), [Op.ReadMail];
    }

    /** Verifying: the agent has the last word. */
    method JudgeGoal(g: string, step: nat) returns (t: Turn, ghost ops: seq<Op>)
      requires Ready(g) && Pc(g) == ReadSteps(step, true)
      modifies this`script, this`heard, this`log, cluster, cluster.store
      ensures Ready(g) && Ends(old(Loc(g)), Loc(g), t) && Ops(g) == old(Ops(g)) + ops
      ensures ops != [] && ReadTrace(ops, true) && EndsWith(Last(ops), t, cluster.State(g), id, heard)
    {
      hide Steady, Cluster.Valid, Obedient, Mine, JudgeTrace, ReadTrace, EndsWith;
      var r;
      r, ops := ReadContext(g, step, true);
      if r.Unread? {
        ReadCut(r, ops, true, cluster.State(g), id, heard);
        return r.end, ops;
      }
      ghost var before := Loc(g);
      ghost var more;
      t, more := AskVerdict(g, r.ctx);
      hide Ends;
      EndsSame(old(Loc(g)), before, Loc(g), t);
      ReadThen(more, true);
      LastOf(ops, more);
      ops := ops + more;
    }

    method AskVerdict(g: string, ctx: Context) returns (t: Turn, ghost ops: seq<Op>)
      requires Ready(g) && Pc(g) == Judge(ctx)
      modifies this`script, this`heard, this`log, cluster, cluster.store
      ensures Ready(g) && Ends(old(Loc(g)), Loc(g), t) && Ops(g) == old(Ops(g)) + ops
      ensures ops != [] && JudgeTrace(ops) && EndsWith(Last(ops), t, cluster.State(g), id, heard)
    {
      hide Steady, Cluster.Valid, Obedient, Mine, MovedOn, Ends, EndsWith, JudgeTrace, OneMove, Obeys;
      var verdict := TakeVerdict(g, ctx);
      if verdict.None? {
        DiesJudging(old(Loc(g)), Loc(g), cluster.State(g), id, heard);
        return Dead, [Op.Crash];
      }
      var ok := verdict.value;
      ghost var before := Loc(g);
      ghost var more;
      t, more := Move(g, if ok then Done else State.Failed, false);
      EndsSame(old(Loc(g)), before, Loc(g), t);
      MoveEnds(more, t, if ok then Done else State.Failed, false, cluster.State(g), id, heard);
      VerdictFrom(ok, more);
      LastOf([Op.Verify(ok)], more);
      ops := [Op.Verify(ok)] + more;
    }

    method TakeVerdict(g: string, ctx: Context) returns (ok: Option<bool>)
      requires Ready(g) && Pc(g) == Judge(ctx)
      modifies this`script, this`heard, this`log, cluster, cluster.store
      ensures Ready(g)
      ensures ok.None? ==> Pc(g) == Idle && Ops(g) == old(Ops(g)) + [Op.Crash] && DeadReply(heard)
      ensures ok.Some? ==>
        && Loc(g) == old(Loc(g)).(pc := Fence(if ok.value then Done else State.Failed, false))
        && Ops(g) == old(Ops(g)) + [Op.Verify(ok.value)]
    {
      hide After, Apply, Steady, Cluster.Valid, Obedient, Mine;
      var reply := Tick(g);
      if reply.None? {
        return None;
      }
      AfterVerify(cluster.ConfigOf(g), cluster.State(g), id, reply.value.verified);
      Act(g, Op.Verify(reply.value.verified));
      return Some(reply.value.verified);
    }

    /** Executing: a recorded call is taken up again, otherwise the agent is asked for the next one. */
    method Step(g: string, step: nat) returns (t: Turn, ghost ops: seq<Op>)
      requires Ready(g) && Pc(g) == Look(step)
      modifies this`script, this`heard, this`log, cluster, cluster.store
      ensures Ready(g) && Ends(old(Loc(g)), Loc(g), t) && Ops(g) == old(Ops(g)) + ops
      ensures ops != [] && StepTrace(ops, step in old(Rows(g))) && EndsWith(Last(ops), t, cluster.State(g), id, heard)
    {
      hide After, Apply, Steady, Cluster.Valid, Obedient, Mine, Cut, EndsWith, CallTrace, ReadTrace, Ends, StepTrace;
      var reply;
      reply, t, ops := Attend(g);
      if reply.None? {
        CutEnds(ops, t, cluster.State(g), id, heard);
        StepCut(ops, step in old(Rows(g)));
        return;
      }
      AfterLookUp(cluster.ConfigOf(g), cluster.State(g), id);
      var existing := cluster.EffectByStep(g, step);
      Act(g, Op.LookUp);
      ghost var before := Loc(g);
      ghost var more;
      t, more := NextOrAgain(g, step, existing);
      EndsSame(old(Loc(g)), before, Loc(g), t);
      LookedThen(more, step in old(Rows(g)));
      LastOf([Op.LookUp], more);
      ops := [Op.LookUp] + more;
    }

    method NextOrAgain(g: string, step: nat, existing: Option<Effect>) returns (t: Turn, ghost ops: seq<Op>)
      requires Ready(g)
      requires Pc(g) ==
        if existing.Some? then Intend(step, existing.value.tool, existing.value.args) else ReadSteps(step, false)
      modifies this`script, this`heard, this`log, cluster, cluster.store
      ensures Ready(g) && Ends(old(Loc(g)), Loc(g), t) && Ops(g) == old(Ops(g)) + ops
      ensures ops != [] && (if existing.Some? then CallTrace(ops) else ReadTrace(ops, false))
      ensures EndsWith(Last(ops), t, cluster.State(g), id, heard)
    {
      hide Steady, Cluster.Valid, Obedient, Mine, EndsWith, CallTrace, ReadTrace, Ends, KeyOf;
      if existing.Some? {
        ghost var x, end;
        t, x, end := RunStep(g, step, existing.value.tool, existing.value.args);
        ops := x.ops + end;
      } else {
        t, ops := NextCall(g, step);
      }
    }

    /** The agent is shown what was done and said, and asked for the next call. */
    method NextCall(g: string, step: nat) returns (t: Turn, ghost ops: seq<Op>)
      requires Ready(g) && Pc(g) == ReadSteps(step, false)
      modifies this`script, this`heard, this`log, cluster, cluster.store
      ensures Ready(g) && Ends(old(Loc(g)), Loc(g), t) && Ops(g) == old(Ops(g)) + ops
      ensures ops != [] && ReadTrace(ops, false) && EndsWith(Last(ops), t, cluster.State(g), id, heard)
    {
      hide Steady, Cluster.Valid, Obedient, Mine, AskTrace, ReadTrace, EndsWith;
      var r;
      r, ops := ReadContext(g, step, false);
      if r.Unread? {
        ReadCut(r, ops, false, cluster.State(g), id, heard);
        return r.end, ops;
      }
      ghost var before := Loc(g);
      ghost var more;
      t, more := AskAgent(g, r.ctx);
      hide Ends;
      EndsSame(old(Loc(g)), before, Loc(g), t);
      ReadThen(more, false);
      LastOf(ops, more);
      ops := ops + more;
    }

    method AskAgent(g: string, ctx: Context) returns (t: Turn, ghost ops: seq<Op>)
      requires Ready(g) && Pc(g) == Ask(ctx)
      modifies this`script, this`heard, this`log, cluster, cluster.store
      ensures Ready(g) && Ends(old(Loc(g)), Loc(g), t) && Ops(g) == old(Ops(g)) + ops
      ensures ops != [] && AskTrace(ops) && EndsWith(Last(ops), t, cluster.State(g), id, heard)
    {
      hide After, Apply, Steady, Cluster.Valid, Obedient, WellFormed, Mine, Carried;
      var reply := Tick(g);
      if reply.None? {
        return Dead, [Op.Crash];
      }
      var d := reply.value.decision;
      if !Decodes(d) {
        t := GiveUp(g);
        return t, [Op.Fault];
      }
      t, ops := Obey(g, ctx, d);
    }

    method Obey(g: string, ctx: Context, d: Decision) returns (t: Turn, ghost ops: seq<Op>)
      requires Due(g) && Pc(g) == Ask(ctx) && Decodes(d)
      requires Obeys(Deed(heard, Op.Decide(d)))
      modifies this`script, this`heard, this`log, cluster, cluster.store
      ensures Ready(g) && Ends(old(Loc(g)), Loc(g), t) && Ops(g) == old(Ops(g)) + ops
      ensures ops != [] && AskTrace(ops) && EndsWith(Last(ops), t, cluster.State(g), id, heard)
    {
      hide Steady, Cluster.Valid, Obedient, Mine, Carried, Decodes, Ends, EndsWith, AskTrace, Obeys;
      TakeDecision(g, ctx, d);
      ghost var before := Loc(g);
      ghost var more;
      t, more := CarryOut(g, ctx.step, d);
      EndsSame(old(Loc(g)), before, Loc(g), t);
      CarriedAsks(d, more);
      LastOf([Op.Decide(d)], more);
      ops := [Op.Decide(d)] + more;
    }

    method TakeDecision(g: string, ctx: Context, d: Decision)
      requires Due(g) && Pc(g) == Ask(ctx) && Decodes(d)
      requires Obeys(Deed(heard, Op.Decide(d)))
      modifies this`log, cluster, cluster.store
      ensures Ready(g) && Ops(g) == old(Ops(g)) + [Op.Decide(d)]
      ensures Loc(g) == old(Loc(g)).(pc :=
        match d
        case Refuse => Fence(State.Failed, false)
        case Finish => Fence(Verifying, true)
        case Approval(tool, args) => Request(ctx.step, tool, args)
        case Invoke(tool, args) => Intend(ctx.step, tool, args))
    {
      hide After, Apply, Steady, Cluster.Valid, Obedient, WellFormed, Mine, Obeys;
      AfterDecide(cluster.ConfigOf(g), cluster.State(g), id, d);
      Act(g, Op.Decide(d));
    }

    /** What the agent decided is done. */
    method CarryOut(g: string, step: nat, d: Decision) returns (t: Turn, ghost ops: seq<Op>)
      requires Ready(g)
      requires Pc(g) == match d
                        case Refuse => Fence(State.Failed, false)
                        case Finish => Fence(Verifying, true)
                        case Approval(tool, args) => Request(step, tool, args)
                        case Invoke(tool, args) => Intend(step, tool, args)
      modifies this`script, this`heard, this`log, cluster, cluster.store
      ensures Ready(g) && Ends(old(Loc(g)), Loc(g), t) && Ops(g) == old(Ops(g)) + ops
      ensures ops != [] && Carried(d, ops) && EndsWith(Last(ops), t, cluster.State(g), id, heard)
    {
      hide Steady, Cluster.Valid, Obedient, Mine, MovedOn, OneMove, RequestTrace, CallTrace, EndsWith, KeyOf;
      hide Rows, Ops;
      match d {
        case Refuse =>
          t, ops := Move(g, State.Failed, false);
          MoveEnds(ops, t, State.Failed, false, cluster.State(g), id, heard);
        case Finish =>
          t, ops := Move(g, Verifying, true);
          MoveEnds(ops, t, Verifying, true, cluster.State(g), id, heard);
        case Approval(tool, args) =>
          t, ops := RequestApproval(g, step, tool, args);
        case Invoke(tool, args) =>
          ghost var x, end;
          t, x, end := RunStep(g, step, tool, args);
          ops := x.ops + end;
      }
      NonEmpty(d, ops);
    }

    /** One turn of the loop: reload the goal under the lease and do what its state calls for. */
    method DriveOnce(g: string) returns (t: Turn, ghost ops: seq<Op>)
      requires Ready(g) && Pc(g) == Head && Loc(g).iter < cluster.maxSteps
      modifies this`script, this`heard, this`log, cluster, cluster.store
      ensures Ready(g) && Ends(old(Loc(g)), Loc(g), t) && Ops(g) == old(Ops(g)) + ops
      ensures ops != [] && TurnTrace(ops) && EndsWith(Last(ops), t, cluster.State(g), id, heard)
    {
      hide After, Apply, Steady, Cluster.Valid, Obedient, Mine, Cut, EndsWith, TurnTrace, Ends;
      var reply;
      reply, t, ops := Attend(g);
      if reply.None? {
        CutEnds(ops, t, cluster.State(g), id, heard);
        TurnCut(ops);
        return;
      }
      t, ops := Turned(g, reply.value.known);
    }

    method Turned(g: string, known: bool) returns (t: Turn, ghost ops: seq<Op>)
      requires Due(g) && Pc(g) == Head && Loc(g).iter < cluster.maxSteps
      requires Obeys(Deed(heard, Op.Load(known)))
      modifies this`script, this`heard, this`log, cluster, cluster.store
      ensures Ready(g) && Ends(old(Loc(g)), Loc(g), t) && Ops(g) == old(Ops(g)) + ops
      ensures ops != [] && TurnTrace(ops) && EndsWith(Last(ops), t, cluster.State(g), id, heard)
    {
      hide After, Apply, Steady, Cluster.Valid, Obedient, Mine, StepTrace, ReadTrace, OneMove, Pursued, Obeys;
      LoadKeeps(cluster.ConfigOf(g), cluster.State(g), id, known);
      AfterLoad(cluster.ConfigOf(g), cluster.State(g), id, known);
      var row := cluster.LoadFenced(g, id);
      Act(g, Op.Load(known));
      if row.None? || (known && !Runnable(row.value.state)) {
        return Stop, [Op.Load(known)];
      }
      ghost var before := Loc(g);
      ghost var more;
      t, more := Pursue(g, row.value, known);
      hide Ends, EndsWith, TurnTrace;
      EndsSame(old(Loc(g)), before, Loc(g), t);
      PursuedTurn(more, row.value, known);
      LastOf([Op.Load(known)], more);
      ops := [Op.Load(known)] + more;
    }

    /** What the goal's state calls for. */
    method Pursue(g: string, row: Goal, known: bool) returns (t: Turn, ghost ops: seq<Op>)
      requires Ready(g) && (known ==> Runnable(row.state))
      requires Pc(g) == if !known then Fence(FailFrom(row.state), false)
                        else if row.state == Approved then Fence(Executing, true)
                        else if row.state == Executing then Look(row.cursor)
                        else ReadSteps(row.cursor, true)
      modifies this`script, this`heard, this`log, cluster, cluster.store
      ensures Ready(g) && Ends(old(Loc(g)), Loc(g), t) && Ops(g) == old(Ops(g)) + ops
      ensures ops != [] && Pursued(ops, row, known) && EndsWith(Last(ops), t, cluster.State(g), id, heard)
    {
      hide Steady, Cluster.Valid, Obedient, Mine, EndsWith, Ends, StepTrace, ReadTrace, OneMove, MovedOn;
      if !known {
        t, ops := Move(g, FailFrom(row.state), false);
        MoveEnds(ops, t, FailFrom(row.state), false, cluster.State(g), id, heard);
        OneMoveSome(ops);
        return;
      }
      if row.state == Approved {
        t, ops := Move(g, Executing, true);
        MoveEnds(ops, t, Executing, true, cluster.State(g), id, heard);
        OneMoveSome(ops);
      } else if row.state == Executing {
        ghost var recorded := row.cursor in Rows(g);
        t, ops := Step(g, row.cursor);
        Forgets(ops, recorded);
      } else {
        t, ops := JudgeGoal(g, row.cursor);
      }
    }

    /** At most maxSteps turns, every one but the last ending in another; then the worker leaves, or is dead. */
    method Drive(g: string) returns (died: bool, ghost turns: seq<seq<Op>>, ghost leave: seq<Op>)
      requires Ready(g) && Pc(g) == Head && Loc(g).iter == 0
      modifies this`script, this`heard, this`log, cluster, cluster.store
      ensures Ready(g) && Pc(g) == if died then Idle else Leave
      ensures |turns| <= cluster.maxSteps && AllTurns(turns)
      ensures leave == [] || (leave == [Op.Load(true)] && |turns| == cluster.maxSteps && !died)
      ensures leave == [] ==>
        && turns != [] && turns[|turns| - 1] != []
        && EndsWith(Last(turns[|turns| - 1]), if died then Dead else Stop, cluster.State(g), id, heard)
      ensures Ops(g) == old(Ops(g)) + Flat(turns) + leave
    {
      hide After, Apply, Steady, Cluster.Valid, Obedient, Mine, TurnTrace, EndsWith, AllTurns, Flat, Last;
      turns, leave := [], [];
      ghost var before := Ops(g);
      NoTurns(before);
      for i := 0 to cluster.maxSteps
        invariant Ready(g) && Pc(g) == Head && Loc(g).iter == i && |turns| == i
        invariant AllTurns(turns) && Ops(g) == before + Flat(turns)
      {
        var t;
        ghost var ops;
        t, ops := DriveOnce(g);
        TurnsGrow(before, turns, ops);
        turns := turns + [ops];
        if !t.Again? {
          return t.Dead?, turns, [];
        }
      }
      RunOut(g);
      return false, turns, [Op.Load(true)];
    }

    /** The loop's bound is used up. */
    method RunOut(g: string)
      requires Ready(g) && Pc(g) == Head && Loc(g).iter >= cluster.maxSteps
      modifies this`heard, this`log, cluster, cluster.store
      ensures Ready(g) && Pc(g) == Leave && Ops(g) == old(Ops(g)) + [Op.Load(true)]
    {
      hide After, Apply, Steady, Cluster.Valid, Obedient, Mine;
      AfterLastTurn(cluster.ConfigOf(g), cluster.State(g), id);
      heard := None;
      Act(g, Op.Load(true));
    }

    /**
     Claims at most one goal and drives it until it stops being runnable by this worker. Whatever the
     script does, the tables stay those of a run of the protocol that extends the one before, and the
     worker is left idle.
    */
    method RunOnce(order: seq<string>, locked: set<string>)
      returns (did: bool, ghost g: string, ghost turns: seq<seq<Op>>, ghost end: seq<Op>)
      requires cluster.Valid() && forall h :: h in cluster.entries ==> Pc(h) == Idle
      modifies this, cluster, cluster.store
      ensures cluster.Valid() && Grown(old(cluster.entries), cluster.entries)
      ensures forall h :: h in cluster.entries ==> Pc(h) == Idle
      ensures !did ==> cluster.entries == old(cluster.entries)
      ensures did ==>
        && (forall i :: 0 <= i < |log| ==> Obeys(log[i]))
        && Flat(turns) + end == Deeds(log) && Replies(log) + script == old(script)
      ensures did ==>
        && g in order && g !in locked && g in old(cluster.entries) && g in cluster.entries
        && old(cluster.entries)[g].trail + [Do(id, Op.Claim)] <= cluster.entries[g].trail
        && Ops(g) == Mine(old(cluster.entries)[g].trail, id) + [Op.Claim] + Flat(turns) + end
        && |turns| <= cluster.maxSteps && AllTurns(turns) && LeaveTrace(end)
    {
      hide After, Cluster.Valid, Acted, Apply, Mine, TurnTrace, LeaveTrace, Flat, Deeds, Replies, Obeys;
      var lease := cluster.Claim(id, order, locked);
      if lease.None? {
        return false, "", [], [];
      }
      var claimed := lease.value.goal;
      g := claimed;
      ClaimSteady(old(cluster.entries), cluster.ConfigOf(claimed), id);
      OwnAdds(old(cluster.entries), cluster.ConfigOf(claimed), Op.Claim, id);
      ghost var claimedAt := cluster.entries;
      turns, end := RunGoal(claimed);
      GrownTransitive(old(cluster.entries), claimedAt, cluster.entries);
      did := true;
    }

    /** From the claim on, every reply heard is acted on, and nothing else is done. */
    method RunGoal(g: string) returns (ghost turns: seq<seq<Op>>, ghost end: seq<Op>)
      requires cluster.Valid() && g in cluster.entries && Steady(cluster.entries, cluster.entries, g, id)
      requires Pc(g) == Head && Loc(g).iter == 0
      modifies this, cluster, cluster.store
      ensures cluster.Valid() && g in cluster.entries && Steady(old(cluster.entries), cluster.entries, g, id)
      ensures Pc(g) == Idle && Ops(g) == old(Ops(g)) + Flat(turns) + end
      ensures |turns| <= cluster.maxSteps && AllTurns(turns) && LeaveTrace(end)
      ensures forall i :: 0 <= i < |log| ==> Obeys(log[i])
      ensures Flat(turns) + end == Deeds(log) && Replies(log) + script == old(script)
    {
      hide Steady, Cluster.Valid, Mine, TurnTrace, LeaveTrace, Flat, Deeds, Replies, Obeys;
      since, log, base, whole := cluster.entries, [], Ops(g), script;
      StartsObedient(script, base);
      turns, end := RunClaimed(g);
      assert base + Flat(turns) + end == base + (Flat(turns) + end);
      DoneSince(log, script, whole, base, Flat(turns) + end);
    }

    /** The claimed goal is driven, and its lease given up unless the process died. */
    method RunClaimed(g: string) returns (ghost turns: seq<seq<Op>>, ghost end: seq<Op>)
      requires Ready(g) && Pc(g) == Head && Loc(g).iter == 0
      modifies this`script, this`heard, this`log, cluster, cluster.store
      ensures Ready(g) && Pc(g) == Idle && Ops(g) == old(Ops(g)) + Flat(turns) + end
      ensures |turns| <= cluster.maxSteps && AllTurns(turns) && LeaveTrace(end)
    {
      hide Steady, Cluster.Valid, Obedient, Mine, TurnTrace, EndsWith, Flat, LeaveTrace;
      var died;
      died, turns, end := Drive(g);
      LeavesBy(end, Op.Crash);
      if died {
        return;
      }
      ghost var op := GiveBack(g);
      LeavesBy(end, op);
      end := end + [op];
    }

    /** The lease is released, unless the process dies or the database fails. */
    method GiveBack(g: string) returns (ghost op: Op)
      requires Ready(g) && Pc(g) == Leave
      modifies this`script, this`heard, this`log, cluster, cluster.store
      ensures Ready(g) && Pc(g) == Idle && Ops(g) == old(Ops(g)) + [op] && (op == Op.Crash || op == Op.Release)
    {
      hide After, Apply, Steady, Cluster.Valid, Obedient, Mine;
      var reply := Tick(g);
      if reply.None? {
        return Op.Crash;
      }
      if reply.value.fault {
        Die(g);
        return Op.Crash;
      }
      AfterRelease(cluster.ConfigOf(g), cluster.State(g), id);
      Act(g, Op.Release);
      return Op.Release;
    }
  }
}
