/**
 What holds in every reachable state, with workers that lost their lease still taking steps:
 cursor, steps and effects agree, a step's call never forks, the first result wins, fenced writes
 are ordered by epoch and nothing runs before approval.
*/
module Invariants {
  import opened Fsm
  import opened Goals
  import opened Json
  import opened Key
  import opened Protocol
  import opened Wrappers

  // ---- how one goal's rows may change ---------------------------------------------------------

  /** Rows only grow: bindings stay, final rows and step rows are frozen, leases never come back. */
  ghost predicate Evolves(s: Slice, t: Slice) {
    && s.goal.epoch <= t.goal.epoch
    && s.goal.cursor <= t.goal.cursor
    && (forall k :: k in s.effects ==>
          && k in t.effects && SameCall(s.effects[k], t.effects[k])
          && (Final(s.effects[k]) ==> s.effects[k] == t.effects[k]))
    && (forall k :: k in s.steps ==> k in t.steps && s.steps[k] == t.steps[k])
    && s.messages <= t.messages
    && (Terminal(s.goal.state) ==> t.goal.state == s.goal.state)
    && (t.goal.epoch == s.goal.epoch ==> t.goal.owner == s.goal.owner || t.goal.owner.None?)
  }

  // ---- the invariant ----------------------------------------------------------------------------

  /** Step rows are exactly 0..cursor-1 and copy committed effects; effect rows lie in 0..cursor. */
  ghost predicate RowsAgree(c: Config, cursor: nat, steps: map<nat, StepRow>, effects: map<nat, Effect>) {
    && (forall k: nat :: k in steps <==> k < cursor)
    && (forall k :: k in effects ==> k <= cursor && Bound(c, k, effects[k]))
    && (forall k :: k in steps ==> k in effects && Copies(steps[k], effects[k]))
  }

  predicate Copies(r: StepRow, e: Effect) {
    e.status == Committed && r == StepRow(e.tool, e.args, e.result, e.key)
  }

  predicate Bound(c: Config, k: nat, e: Effect) {
    e.step == k && WellFormed(e.args) && e.key == KeyOf(e.tool, e.args, c.goal, k)
  }

  /** A cursor value read under a lease is still the cursor while that lease is held. */
  predicate Loaded(s: Slice, k: nat, holding: bool) {
    k <= s.goal.cursor && (holding ==> k == s.goal.cursor)
  }

  ghost predicate IsCopy(s: Slice, e: Effect, holding: bool) {
    && e.step in s.effects
    && SameCall(e, s.effects[e.step])
    && Loaded(s, e.step, holding)
    && (Final(e) ==> e == s.effects[e.step])
  }

  ghost predicate ContextOk(s: Slice, ctx: Context, holding: bool) {
    && Loaded(s, ctx.step, holding)
    && HistoryOk(s, ctx.step, ctx.history, holding)
    && ctx.messages <= s.messages
  }

  ghost predicate HistoryOk(s: Slice, step: nat, h: map<nat, StepRow>, holding: bool) {
    && (forall k :: k in h ==> k in s.steps && h[k] == s.steps[k])
    && (holding ==> h == s.steps)
  }

  ghost predicate PcOk(s: Slice, pc: Pc, holding: bool) {
    match pc
    case Look(k) => Loaded(s, k, holding)
    case ReadSteps(k, _) => Loaded(s, k, holding)
    case ReadMessages(k, h, _) => Loaded(s, k, holding) && HistoryOk(s, k, h, holding)
    case Ask(ctx) => ContextOk(s, ctx, holding)
    case Judge(ctx) => ContextOk(s, ctx, holding)
    case Intend(k, _, args) => Loaded(s, k, holding) && WellFormed(args)
    case Request(k, _, args) => Loaded(s, k, holding) && WellFormed(args)
    case Flag(e) => IsCopy(s, e, holding)
    case Probe(e) => IsCopy(s, e, holding)
    case Authorize(e) => IsCopy(s, e, holding)
    case Mark(e) => IsCopy(s, e, holding)
    case Call(e) => IsCopy(s, e, holding)
    case Learn(e, _) => IsCopy(s, e, holding)
    case Advance(e) => IsCopy(s, e, holding) && e.status == Committed
    case _ => true
  }

  /** The worker's epoch was granted to it, and its local copies agree with the rows. */
  ghost predicate LocalOk(s: Sys, w: WorkerId) {
    var l := At(s, w);
    l.pc != Idle ==>
      && 1 <= l.epoch <= |s.hist.grants|
      && s.hist.grants[l.epoch - 1] == w
      && PcOk(s.slice, l.pc, HoldsLease(s, w))
  }

  ghost predicate LeaseOk(g: Goal, grants: seq<WorkerId>) {
    && |grants| == g.epoch
    && (g.owner.Some? ==> g.epoch >= 1 && grants[g.epoch - 1] == g.owner.value && Runnable(g.state))
  }

  /** Accepted fenced writes: each by the worker its epoch was granted to, epochs never decreasing. */
  ghost predicate WritesOrdered(ws: seq<FencedWrite>, grants: seq<WorkerId>) {
    && (forall i :: 0 <= i < |ws| ==> 1 <= ws[i].epoch <= |grants| && grants[ws[i].epoch - 1] == ws[i].worker)
    && (forall i, j :: 0 <= i < j < |ws| ==> ws[i].epoch <= ws[j].epoch)
  }

  /** Every tool invocation ever made for a step carries the call bound to that step. */
  ghost predicate CallsBound(calls: seq<Invocation>, effects: map<nat, Effect>) {
    forall i :: 0 <= i < |calls| ==> IsCallOf(calls[i], effects)
  }

  predicate IsCallOf(call: Invocation, effects: map<nat, Effect>) {
    && call.step in effects
    && call.key == effects[call.step].key
    && call.tool == effects[call.step].tool
    && call.args == effects[call.step].args
  }

  /** Every successful return of Run gave the stored result. */
  ghost predicate ReturnsStored(rs: seq<RunOk>, effects: map<nat, Effect>) {
    forall i :: 0 <= i < |rs| ==> IsStored(rs[i], effects)
  }

  predicate IsStored(r: RunOk, effects: map<nat, Effect>) {
    r.step in effects && effects[r.step].status == Committed && effects[r.step].result == r.result
  }

  /** One tool_result message for each effect committed by a result, none for the others. */
  ghost predicate ResultsDelivered(
    d: map<nat, nat>, byOperator: set<nat>, posted: nat, effects: map<nat, Effect>, messages: seq<Message>)
  {
    && Deliveries(d, effects, messages)
    && Distinct(d)
    && Covered(d.Keys, byOperator, effects)
    && |messages| == posted + |d|
  }

  ghost predicate Deliveries(d: map<nat, nat>, effects: map<nat, Effect>, messages: seq<Message>) {
    forall k :: k in d ==> k in effects && IsDelivery(d[k], effects[k], messages)
  }

  ghost predicate Distinct(d: map<nat, nat>) {
    forall j, k :: j in d && k in d && j != k ==> d[j] != d[k]
  }

  /** Committed effects are those committed by a result and those an operator settled, never both. */
  ghost predicate Covered(delivered: set<nat>, byOperator: set<nat>, effects: map<nat, Effect>) {
    && delivered !! byOperator
    && forall k: nat :: k in effects && effects[k].status == Committed <==> k in delivered || k in byOperator
  }

  predicate IsDelivery(i: nat, e: Effect, messages: seq<Message>) {
    e.status == Committed && i < |messages| && messages[i] == ResultMessage(e)
  }

  /** A goal is paused exactly when it remembers the live state it was paused from. */
  predicate PauseOk(g: Goal) {
    && (g.state == Paused <==> g.pausedFrom.Some?)
    && (g.pausedFrom.Some? ==> g.pausedFrom.value != Paused && !Terminal(g.pausedFrom.value))
  }

  ghost predicate ResumesOk(resumes: set<State>) {
    forall st :: st in resumes ==> st != Paused && !Terminal(st)
  }

  /**
   Before the first approval a goal is only proposed, paused from proposed, or cancelled, and nothing was
   leased or recorded.
  */
  ghost predicate Untouched(g: Goal, resumes: set<State>, effects: map<nat, Effect>) {
    && (g.state == Proposed || g.state == Paused || g.state == Cancelled)
    && (g.pausedFrom.Some? ==> g.pausedFrom.value == Proposed)
    && resumes <= {Proposed}
    && g.epoch == 0
    && effects == map[]
  }

  ghost predicate GlobalOk(c: Config, s: Sys) {
    && RowsAgree(c, s.slice.goal.cursor, s.slice.steps, s.slice.effects)
    && LeaseOk(s.slice.goal, s.hist.grants)
    && WritesOrdered(s.hist.writes, s.hist.grants)
    && CallsBound(s.hist.calls, s.slice.effects)
    && ReturnsStored(s.hist.successes, s.slice.effects)
    && ResultsDelivered(s.hist.delivered, s.hist.settledByOperator, s.hist.posted, s.slice.effects, s.slice.messages)
    && PauseOk(s.slice.goal)
    && ResumesOk(s.resumes)
    && (!s.hist.approved ==> Untouched(s.slice.goal, s.resumes, s.slice.effects))
  }

  ghost predicate Inv(c: Config, s: Sys) {
    GlobalOk(c, s) && forall w: WorkerId :: LocalOk(s, w)
  }

  // ---- frames -----------------------------------------------------------------------------------

  /** What a step leaves alone: workers other than the actor, past grants, and a cursor it does not own. */
  ghost predicate Frames(s: Sys, t: Sys, actor: Option<WorkerId>) {
    && Evolves(s.slice, t.slice)
    && s.hist.grants <= t.hist.grants
    && (forall w: WorkerId :: actor != Some(w) ==> At(t, w) == At(s, w))
    && (t.slice.goal.cursor != s.slice.goal.cursor || t.slice.steps != s.slice.steps ==>
          actor.Some? && HoldsLease(s, actor.value) && t.slice.goal.owner == s.slice.goal.owner)
  }

  /** One step's obligations: the global facts, the actor's position, and the frame for everybody else. */
  ghost predicate StepOk(c: Config, s: Sys, t: Sys, actor: Option<WorkerId>) {
    GlobalOk(c, t) && Frames(s, t, actor) && (actor.Some? ==> LocalOk(t, actor.value))
  }
}
