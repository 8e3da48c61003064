/**
 How often a tool is called for one step. Only the intent and the cursor are lease-fenced, so what can be
 promised depends on where other workers stand when the goal is claimed again: nobody between
 authorisation and attempt mark, for the count; nobody before the call's end, for calls under review.
 Takeover shows what any claim that breaks one of these conditions can lead to.
*/
module CallCounts {
  import opened CrashStop
  import opened Goals
  import opened Invariants
  import opened Json
  import opened Key
  import opened Protocol
  import opened Safety
  import opened Wrappers

  function Calls(calls: seq<Invocation>, k: nat): nat {
    if calls == [] then 0
    else Calls(calls[..|calls| - 1], k) + if calls[|calls| - 1].step == k then 1 else 0
  }

  lemma CallsSnoc(calls: seq<Invocation>, x: Invocation, k: nat)
    ensures Calls(calls + [x], k) == Calls(calls, k) + if x.step == k then 1 else 0
  {
    assert (calls + [x])[..|calls|] == calls;
  }

  /** What a worker is about to do for step k, before the call's end. */
  datatype Tag = Off | ToFlag | ToProbe | ToAuthorize | ToMark | ToCall

  function TagOf(pc: Pc, k: nat): Tag {
    match pc
    case Flag(e) => if e.step == k then ToFlag else Off
    case Probe(e) => if e.step == k then ToProbe else Off
    case Authorize(e) => if e.step == k then ToAuthorize else Off
    case Mark(e) => if e.step == k then ToMark else Off
    case Call(e) => if e.step == k then ToCall else Off
    case _ => Off
  }

  function TagAt(s: Sys, w: WorkerId, k: nat): Tag { TagOf(At(s, w).pc, k) }

  /** About to record the step's result. */
  predicate Recording(pc: Pc, k: nat) { pc.Learn? && pc.e.step == k }

  const MARKING := {ToAuthorize, ToMark}
  const DOUBTFUL := {ToFlag, ToProbe, ToAuthorize, ToMark, ToCall}

  ghost predicate Clear(s: Sys, k: nat, tags: set<Tag>) { forall v: WorkerId :: TagAt(s, v, k) !in tags }

  /** The action is a claim, and it is granted. */
  predicate Granted(s: Sys, a: Action) {
    a.Do? && a.op.Claim? && At(s, a.w).pc == Idle && Claimable(s.slice.goal)
  }

  /** No claim is granted while some worker is about to do one of these for step k. */
  ghost predicate ClaimsClear(c: Config, s: Sys, acts: seq<Action>, k: nat, tags: set<Tag>)
    decreases |acts|
  {
    acts == [] ||
    ((Granted(s, acts[0]) ==> Clear(s, k, tags)) && ClaimsClear(c, Apply(c, s, acts[0]), acts[1..], k, tags))
  }

  // ---- one action, seen from one step -------------------------------------------------------------

  function RowAt(s: Sys, k: nat): Option<Effect> {
    if k in s.slice.effects then Some(s.slice.effects[k]) else None
  }

  /** The step's call in the log, if this action made one. */
  predicate Logged(s: Sys, t: Sys, k: nat, called: bool) {
    if called then
      && RowAt(s, k).Some? && |t.hist.calls| == |s.hist.calls| + 1
      && t.hist.calls == s.hist.calls + [t.hist.calls[|s.hist.calls|]]
      && t.hist.calls[|s.hist.calls|].step == k
      && t.hist.calls[|s.hist.calls|].status == RowAt(s, k).value.status
    else
      t.hist.calls == s.hist.calls
      || (|t.hist.calls| == |s.hist.calls| + 1 && t.hist.calls == s.hist.calls + [t.hist.calls[|s.hist.calls|]]
          && t.hist.calls[|s.hist.calls|].step != k)
  }

  /** Nothing about the step changes but the actor's tag. */
  predicate Still(s: Sys, t: Sys, k: nat) { RowAt(t, k) == RowAt(s, k) && Logged(s, t, k, false) }

  /** A lease holder takes up the step's row, found in intent or recorded now. */
  predicate TookUp(c: Config, s: Sys, t: Sys, w: WorkerId, k: nat) {
    && HoldsLease(s, w) && RowAt(t, k).Some? && RowAt(t, k).value.status == Intent
    && (RowAt(s, k).Some? ==> RowAt(s, k) == RowAt(t, k) && TagAt(t, w, k) != Off && !At(s, w).pc.Request?)
    && (RowAt(s, k).None? ==> RowAt(t, k).value.attempts == 0)
    && (TagAt(t, w, k) == ToProbe ==> RowAt(t, k).value.tool in c.probers)
    && (TagAt(t, w, k) in MARKING ==> RowAt(t, k).value.attempts == 0)
    && TagAt(t, w, k) != ToCall && t.hist.calls == s.hist.calls
  }

  /** What a worker's operation does to step k: to its row, to its calls and to the worker's own tag. */
  predicate TagStep(c: Config, s: Sys, t: Sys, w: WorkerId, op: Op, k: nat) {
    var p, q := TagAt(s, w, k), TagAt(t, w, k);
    match op
    case CommitIntent => (Still(s, t, k) && (q == p || q == Off)) || (p == Off && TookUp(c, s, t, w, k))
    case FlagReview(why) =>
      if p == ToFlag then
        RowAt(s, k).Some? && RowAt(t, k) == Some(Flagged(RowAt(s, k).value, why)) && Logged(s, t, k, false) && q == Off
      else Still(s, t, k) && (q == p || q == Off)
    case AskProbe(_) =>
      Still(s, t, k) && if p == ToProbe then q == ToFlag || q == ToAuthorize || q == Off else q == p
    case Authorise(_) => Still(s, t, k) && if p == ToAuthorize then q == ToMark || q == Off else q == p
    case MarkAttempt =>
      if p == ToMark then
        RowAt(s, k).Some? && RowAt(t, k) == Some(Attempted(RowAt(s, k).value)) && Logged(s, t, k, false) && q == ToCall
      else Still(s, t, k) && q == p
    case CallTool(_, _) =>
      if p == ToCall then RowAt(t, k) == RowAt(s, k) && Logged(s, t, k, true) && q == Off
      else Still(s, t, k) && (q == p || q == Off)
    case RecordResult =>
      && q == p && Logged(s, t, k, false)
      && (RowAt(t, k) == RowAt(s, k)
          || (Recording(At(s, w).pc, k)
              && RowAt(s, k).Some? && RowAt(t, k).Some? && RowAt(s, k).value.status == Intent
              && Final(RowAt(t, k).value) && RowAt(t, k).value.tool == RowAt(s, k).value.tool))
    case _ => Still(s, t, k) && (q == p || q == Off)
  }

  /** What goes with it for leases and retries. */
  ghost predicate Frame(s: Sys, t: Sys, w: WorkerId, op: Op, k: nat) {
    && (forall v: WorkerId :: v != w ==> At(t, v) == At(s, v))
    && Retries(t, k) == Retries(s, k)
    && (if Granted(s, Do(w, op)) then
          t.slice.goal.epoch == s.slice.goal.epoch + 1 && TagAt(t, w, k) == Off
        else
          t.slice.goal.epoch == s.slice.goal.epoch && At(t, w).epoch == At(s, w).epoch)
  }

  lemma WorkTags(c: Config, s: Sys, w: WorkerId, op: Op, k: nat)
    requires Inv(c, s)
    ensures TagStep(c, s, Work(c, s, w, op), w, op, k)
  {
    hide KeyOf, ResultMessage;
    RowNames(c, s, w);
    hide Inv, TagStep, Named, LocalOk, Work;
    match op
    case CommitIntent => IntentTags(c, s, w, k);
    case MarkAttempt => MarkTags(c, s, w, k);
    case CallTool(o, wrote) => CallTags(c, s, w, o, wrote, k);
    case RecordResult => RecordTags(c, s, w, k);
    case FlagReview(_) => AnswerTags(c, s, w, op, k);
    case AskProbe(_) => AnswerTags(c, s, w, op, k);
    case Authorise(_) => AnswerTags(c, s, w, op, k);
    case _ => PlainTags(c, s, w, op, k);
  }

  /** Rows carry their own step. */
  ghost predicate Named(s: Sys) { forall k :: k in s.slice.effects ==> s.slice.effects[k].step == k }

  lemma RowNames(c: Config, s: Sys, w: WorkerId)
    requires Inv(c, s)
    ensures Named(s) && LocalOk(s, w)
  {
    hide KeyOf, CallsBound, ReturnsStored, ResultsDelivered, WritesOrdered, LeaseOk, PauseOk, ResumesOk, Untouched;
  }

  lemma IntentTags(c: Config, s: Sys, w: WorkerId, k: nat)
    requires Named(s)
    ensures TagStep(c, s, DoCommitIntent(c, s, w), w, CommitIntent, k)
  {
    hide KeyOf;
    if At(s, w).pc.Intend? && At(s, w).pc.step in s.slice.effects {
      SettleTags(c, s, w, k);
    }
  }

  lemma SettleTags(c: Config, s: Sys, w: WorkerId, k: nat)
    requires Named(s) && At(s, w).pc.Intend? && At(s, w).pc.step in s.slice.effects
    ensures TagStep(c, s, DoCommitIntent(c, s, w), w, CommitIntent, k)
  {
    hide KeyOf;
  }

  lemma MarkTags(c: Config, s: Sys, w: WorkerId, k: nat)
    requires LocalOk(s, w) && Named(s)
    ensures TagStep(c, s, DoMark(s, w), w, MarkAttempt, k)
  {
  }

  lemma CallTags(c: Config, s: Sys, w: WorkerId, o: Outcome, wrote: bool, k: nat)
    requires LocalOk(s, w) && Named(s)
    ensures TagStep(c, s, DoCall(s, w, o, wrote), w, CallTool(o, wrote), k)
  {
  }

  lemma RecordTags(c: Config, s: Sys, w: WorkerId, k: nat)
    requires LocalOk(s, w) && Named(s)
    ensures TagStep(c, s, DoRecord(s, w), w, RecordResult, k)
  {
    hide ResultMessage;
  }

  lemma AnswerTags(c: Config, s: Sys, w: WorkerId, op: Op, k: nat)
    requires LocalOk(s, w) && Named(s)
    requires op.FlagReview? || op.AskProbe? || op.Authorise?
    ensures TagStep(c, s, Work(c, s, w, op), w, op, k)
  {
    if op.FlagReview? {
      FlagTags(c, s, w, op.why, k);
      hide LocalOk, Work;
    } else {
      hide LocalOk, Named;
    }
  }

  lemma FlagTags(c: Config, s: Sys, w: WorkerId, why: string, k: nat)
    requires LocalOk(s, w) && Named(s)
    ensures TagStep(c, s, Work(c, s, w, FlagReview(why)), w, FlagReview(why), k)
  {
  }

  /** Operations that leave rows and logs alone and never begin anything for a step. */
  predicate Plain(op: Op) {
    op.Claim? || op.Heartbeat? || op.Load? || op.LookUp? || op.ReadHistory? || op.ReadMail? || op.Decide? || op.Verify?
    || op.AdvanceCursor? || op.Transition? || op.Release? || op.Fault? || op.Crash?
  }

  lemma PlainTags(c: Config, s: Sys, w: WorkerId, op: Op, k: nat)
    requires Plain(op)
    ensures TagStep(c, s, Work(c, s, w, op), w, op, k)
  {
    hide Logged, TagStep;
    var t := Work(c, s, w, op);
    hide Work;
    PlainMoves(c, s, w, op);
    PlainStill(c, s, t, w, op, k);
  }

  predicate NoEffect(pc: Pc) {
    !pc.Flag? && !pc.Probe? && !pc.Authorize? && !pc.Mark? && !pc.Call?
  }

  lemma PlainMoves(c: Config, s: Sys, w: WorkerId, op: Op)
    requires Plain(op)
    ensures var t := Work(c, s, w, op); t.slice.effects == s.slice.effects && t.hist.calls == s.hist.calls
    ensures var t := Work(c, s, w, op); At(t, w) == At(s, w) || NoEffect(At(t, w).pc)
  {
    if op.Claim? || op.Heartbeat? || op.Load? || op.AdvanceCursor? || op.Transition? || op.Release? {
      LeasedMoves(c, s, w, op);
      hide Work;
    }
  }

  lemma LeasedMoves(c: Config, s: Sys, w: WorkerId, op: Op)
    requires op.Claim? || op.Heartbeat? || op.Load? || op.AdvanceCursor? || op.Transition? || op.Release?
    ensures var t := Work(c, s, w, op); t.slice.effects == s.slice.effects && t.hist.calls == s.hist.calls
    ensures var t := Work(c, s, w, op); At(t, w) == At(s, w) || NoEffect(At(t, w).pc)
  {
    if op.Load? || op.AdvanceCursor? || op.Transition? {
      FencedMoves(c, s, w, op);
      hide Work;
    }
  }

  lemma FencedMoves(c: Config, s: Sys, w: WorkerId, op: Op)
    requires op.Load? || op.AdvanceCursor? || op.Transition?
    ensures var t := Work(c, s, w, op); t.slice.effects == s.slice.effects && t.hist.calls == s.hist.calls
    ensures var t := Work(c, s, w, op); At(t, w) == At(s, w) || NoEffect(At(t, w).pc)
  {
  }

  lemma PlainStill(c: Config, s: Sys, t: Sys, w: WorkerId, op: Op, k: nat)
    requires Plain(op)
    requires t.slice.effects == s.slice.effects && t.hist.calls == s.hist.calls
      && (At(t, w) == At(s, w) || NoEffect(At(t, w).pc))
    ensures TagStep(c, s, t, w, op, k)
  {
  }

  lemma WorkFrame(c: Config, s: Sys, w: WorkerId, op: Op, k: nat)
    ensures Frame(s, Work(c, s, w, op), w, op, k)
  {
    hide KeyOf, ResultMessage;
    if op.Claim? {
    } else {
      WorkEpochs(c, s, w, op);
      WorkRetries(c, s, w, op);
      WorkAlone(c, s, w, op);
      hide Work;
    }
  }

  lemma WorkEpochs(c: Config, s: Sys, w: WorkerId, op: Op)
    requires !op.Claim?
    ensures var t := Work(c, s, w, op); t.slice.goal.epoch == s.slice.goal.epoch && At(t, w).epoch == At(s, w).epoch
  {
    hide KeyOf, ResultMessage;
    if Plain(op) {
      PlainEpochs(c, s, w, op);
      hide Work;
    }
  }

  lemma PlainEpochs(c: Config, s: Sys, w: WorkerId, op: Op)
    requires Plain(op) && !op.Claim?
    ensures var t := Work(c, s, w, op); t.slice.goal.epoch == s.slice.goal.epoch && At(t, w).epoch == At(s, w).epoch
  {
  }

  lemma WorkRetries(c: Config, s: Sys, w: WorkerId, op: Op)
    ensures Work(c, s, w, op).hist.retries == s.hist.retries
  {
    hide KeyOf, ResultMessage;
    if Plain(op) {
      PlainRetries(c, s, w, op);
      hide Work;
    }
  }

  lemma PlainRetries(c: Config, s: Sys, w: WorkerId, op: Op)
    requires Plain(op)
    ensures Work(c, s, w, op).hist.retries == s.hist.retries
  {
  }

  lemma WorkAlone(c: Config, s: Sys, w: WorkerId, op: Op)
    ensures forall v: WorkerId :: v != w ==> At(Work(c, s, w, op), v) == At(s, v)
  {
    hide KeyOf, ResultMessage;
  }

  /** Operators, senders and the clock: a row under review may be resolved, at the price of a retry if it is to run. */
  predicate OutsideTags(s: Sys, t: Sys, k: nat) {
    && t.workers == s.workers && t.slice.goal.epoch == s.slice.goal.epoch && t.hist.calls == s.hist.calls
    && ((RowAt(t, k) == RowAt(s, k) && Retries(t, k) == Retries(s, k))
        || (RowAt(s, k).Some? && RowAt(s, k).value.status == NeedsReview && RowAt(t, k).Some?
            && RowAt(t, k).value.tool == RowAt(s, k).value.tool
            && if RowAt(t, k).value.status == Intent then Retries(t, k) == Retries(s, k) + 1
               else Final(RowAt(t, k).value) && Retries(t, k) == Retries(s, k)))
  }

  lemma OutsideMoves(c: Config, s: Sys, a: Action, k: nat)
    requires Inv(c, s) && !a.Do?
    ensures OutsideTags(s, Apply(c, s, a), k)
  {
    hide KeyOf;
    if a.Resolve? {
      if a.step in s.slice.effects {
        RowNamedInv(c, s, a.step);
      }
      hide Inv;
      ResolveTags(s, a.step, a.how, a.result, k);
    } else {
      hide Inv;
    }
  }

  lemma ResolveTags(s: Sys, j: nat, how: Resolution, r: Option<Json>, k: nat)
    requires j in s.slice.effects ==> s.slice.effects[j].step == j
    ensures OutsideTags(s, DoResolve(s, j, how, r), k)
  {
  }

  lemma LoggedCount(s: Sys, t: Sys, k: nat, called: bool)
    requires Logged(s, t, k, called)
    ensures Calls(t.hist.calls, k) == Calls(s.hist.calls, k) + if called then 1 else 0
  {
    if t.hist.calls != s.hist.calls {
      CallsSnoc(s.hist.calls, t.hist.calls[|s.hist.calls|], k);
    }
  }

  /** Two workers under the epoch in force are one. */
  lemma OneHolder(c: Config, s: Sys, v: WorkerId, w: WorkerId)
    requires Inv(c, s) && At(s, v).pc != Idle && At(s, w).pc != Idle
    requires At(s, v).epoch == At(s, w).epoch == s.slice.goal.epoch
    ensures v == w
  {
    hide GlobalOk;
    assert LocalOk(s, v) && LocalOk(s, w);
  }

  // ---- how often: nobody between authorisation and attempt mark -----------------------------------

  /** The workers about to call the tool for step k. */
  function Callers(s: Sys, k: nat): set<WorkerId> { set w | w in s.workers && TagAt(s, w, k) == ToCall }

  function Due(s: Sys, k: nat): nat { Calls(s.hist.calls, k) + |Callers(s, k)| }

  lemma CallersMove(s: Sys, t: Sys, w: WorkerId, k: nat)
    requires forall v: WorkerId :: v != w ==> At(t, v) == At(s, v)
    ensures |Callers(t, k)| == |Callers(s, k)| - (if TagAt(s, w, k) == ToCall then 1 else 0)
                               + if TagAt(t, w, k) == ToCall then 1 else 0
  {
    CallersAre(s, k);
    CallersAre(t, k);
    assert forall v: WorkerId :: v != w ==> TagAt(t, v, k) == TagAt(s, v, k);
    hide Callers, TagAt;
    SetMoves(Callers(s, k), Callers(t, k), w);
  }

  lemma SetMoves(a: set<WorkerId>, b: set<WorkerId>, w: WorkerId)
    requires forall v: WorkerId :: v != w ==> (v in a <==> v in b)
    ensures |b| == |a| - (if w in a then 1 else 0) + if w in b then 1 else 0
  {
    var rest := a - {w};
    assert a == if w in a then rest + {w} else rest;
    assert b == if w in b then rest + {w} else rest;
  }

  lemma CallersAre(s: Sys, k: nat)
    ensures forall v: WorkerId :: v in Callers(s, k) <==> TagAt(s, v, k) == ToCall
  {
    assert TagOf(Idle, k) == Off;
    hide TagOf;
  }

  /** No row yet, or an intent never attempted. */
  predicate Fresh(s: Sys, k: nat) {
    RowAt(s, k).Some? ==> RowAt(s, k).value.status == Intent && RowAt(s, k).value.attempts == 0
  }

  /** Calls made and calls about to be made, against retries; one more is allowed once the attempt was marked. */
  ghost predicate AttemptsOk(s: Sys, k: nat) {
    && (forall v: WorkerId :: TagAt(s, v, k) != ToProbe)
    && (forall v: WorkerId :: TagAt(s, v, k) in MARKING ==>
          At(s, v).epoch == s.slice.goal.epoch && Due(s, k) <= Retries(s, k))
    && Due(s, k) <= Retries(s, k) + if Fresh(s, k) then 0 else 1
  }

  predicate HasProbe(c: Config, s: Sys, k: nat) { RowAt(s, k).Some? && RowAt(s, k).value.tool in c.probers }

  ghost predicate CountBound(c: Config, s: Sys, k: nat) { !HasProbe(c, s, k) ==> AttemptsOk(s, k) }

  lemma OneTagged(c: Config, s: Sys, v: WorkerId, w: WorkerId, k: nat)
    requires Inv(c, s) && TagAt(s, v, k) != Off && TagAt(s, w, k) != Off
    requires At(s, v).epoch == At(s, w).epoch == s.slice.goal.epoch
    ensures v == w
  {
    OneHolder(c, s, v, w);
  }

  lemma OneMarking(c: Config, s: Sys, w: WorkerId, k: nat)
    requires Inv(c, s) && AttemptsOk(s, k)
    ensures TagAt(s, w, k) in MARKING ==> forall v: WorkerId :: TagAt(s, v, k) in MARKING ==> v == w
  {
    hide Inv, Callers, Calls, Retries, TagOf, Fresh;
    if TagAt(s, w, k) in MARKING {
      forall v: WorkerId | TagAt(s, v, k) in MARKING ensures v == w {
        OneTagged(c, s, v, w, k);
      }
    }
  }

  lemma WorkKeepsBound(c: Config, s: Sys, w: WorkerId, op: Op, k: nat)
    requires Inv(c, s) && CountBound(c, s, k) && (Granted(s, Do(w, op)) ==> Clear(s, k, MARKING))
    ensures CountBound(c, Work(c, s, w, op), k)
  {
    var t := Work(c, s, w, op);
    WorkTags(c, s, w, op, k);
    WorkFrame(c, s, w, op, k);
    if !HasProbe(c, s, k) {
      OneMarking(c, s, w, k);
    }
    hide Work, Inv, Callers, Calls, Retries, Logged, Granted, TagOf;
    BoundStep(c, s, t, w, op, k);
  }

  lemma BoundStep(c: Config, s: Sys, t: Sys, w: WorkerId, op: Op, k: nat)
    requires CountBound(c, s, k) && (Granted(s, Do(w, op)) ==> Clear(s, k, MARKING))
    requires TagStep(c, s, t, w, op, k) && Frame(s, t, w, op, k)
    requires !HasProbe(c, s, k) && TagAt(s, w, k) in MARKING ==>
      forall v: WorkerId :: TagAt(s, v, k) in MARKING ==> v == w
    ensures CountBound(c, t, k)
  {
    hide Callers, Calls, Retries, Granted, TagOf;
    CallersMove(s, t, w, k);
    CallsMove(c, s, t, w, op, k);
    hide Logged;
    assert forall v: WorkerId :: v != w ==> TagAt(t, v, k) == TagAt(s, v, k);
    match op
    case CommitIntent =>
    case FlagReview(_) =>
    case AskProbe(_) =>
    case Authorise(_) =>
    case MarkAttempt =>
    case CallTool(_, _) =>
    case RecordResult =>
    case Claim =>
    case _ =>
  }

  lemma CallsMove(c: Config, s: Sys, t: Sys, w: WorkerId, op: Op, k: nat)
    requires TagStep(c, s, t, w, op, k)
    ensures Calls(t.hist.calls, k) == Calls(s.hist.calls, k) + if op.CallTool? && TagAt(s, w, k) == ToCall then 1 else 0
  {
    hide TagOf, Calls, Logged;
    if Logged(s, t, k, op.CallTool? && TagAt(s, w, k) == ToCall) {
      LoggedCount(s, t, k, op.CallTool? && TagAt(s, w, k) == ToCall);
    }
  }

  lemma OutsideKeepsBound(c: Config, s: Sys, t: Sys, k: nat)
    requires CountBound(c, s, k) && OutsideTags(s, t, k)
    ensures CountBound(c, t, k)
  {
    hide Calls, Retries, TagOf;
    assert Callers(t, k) == Callers(s, k);
    assert forall v: WorkerId :: TagAt(t, v, k) == TagAt(s, v, k);
    hide Callers;
  }

  lemma ActionKeepsBound(c: Config, s: Sys, a: Action, k: nat)
    requires Inv(c, s) && CountBound(c, s, k) && (Granted(s, a) ==> Clear(s, k, MARKING))
    ensures CountBound(c, Apply(c, s, a), k)
  {
    hide Inv, CountBound, OutsideTags, Clear, Work;
    if a.Do? {
      WorkKeepsBound(c, s, a.w, a.op, k);
    } else {
      OutsideMoves(c, s, a, k);
      OutsideKeepsBound(c, s, Apply(c, s, a), k);
    }
  }

  lemma {:induction false} RunKeepsBound(c: Config, s: Sys, acts: seq<Action>, k: nat)
    requires Inv(c, s) && CountBound(c, s, k) && ClaimsClear(c, s, acts, k, MARKING)
    ensures CountBound(c, Run(c, s, acts), k)
    decreases |acts|
  {
    hide Inv, CountBound, Clear, Granted, Apply;
    if acts != [] {
      ActionKeepsInv(c, s, acts[0]);
      ActionKeepsBound(c, s, acts[0], k);
      RunKeepsBound(c, Apply(c, s, acts[0]), acts[1..], k);
    }
  }

  /**
   A tool without a probe is called for a step at most once, plus once per operator retry, whatever
   crashes, pauses, expiries and re-claims, as long as no claim of the goal is granted while a worker
   stands between the step's authorisation and its attempt mark.
  */
  lemma AtMostOnce(c: Config, acts: seq<Action>, k: nat)
    requires ClaimsClear(c, INIT, acts, k, MARKING)
    requires !HasProbe(c, Run(c, INIT, acts), k)
    ensures var s := Run(c, INIT, acts); Calls(s.hist.calls, k) <= 1 + Retries(s, k)
  {
    InitInv(c);
    assert Callers(INIT, k) == {};
    RunKeepsBound(c, INIT, acts, k);
  }

  // ---- under review: nobody before the call's end ---------------------------------------------------

  /** Whoever is about to do something for the step does it under the epoch in force, on a row not under review. */
  ghost predicate ReviewOk(s: Sys, k: nat) {
    && (forall v: WorkerId :: TagAt(s, v, k) != Off ==>
          At(s, v).epoch == s.slice.goal.epoch && RowAt(s, k).Some? && RowAt(s, k).value.status != NeedsReview)
    && forall i :: 0 <= i < |s.hist.calls| && s.hist.calls[i].step == k ==> s.hist.calls[i].status != NeedsReview
  }

  lemma OneDoubtful(c: Config, s: Sys, w: WorkerId, k: nat)
    requires Inv(c, s) && ReviewOk(s, k) && TagAt(s, w, k) != Off
    ensures forall v: WorkerId :: TagAt(s, v, k) != Off ==> v == w
  {
    hide Inv, TagOf;
    forall v: WorkerId | TagAt(s, v, k) != Off ensures v == w {
      OneTagged(c, s, v, w, k);
    }
  }

  lemma ReviewStep(c: Config, s: Sys, t: Sys, w: WorkerId, op: Op, k: nat)
    requires ReviewOk(s, k) && (Granted(s, Do(w, op)) ==> Clear(s, k, DOUBTFUL))
    requires TagStep(c, s, t, w, op, k) && Frame(s, t, w, op, k)
    requires TagAt(s, w, k) != Off ==> forall v: WorkerId :: TagAt(s, v, k) != Off ==> v == w
    ensures ReviewOk(t, k)
  {
    hide Retries, Granted, TagOf;
    assert forall v: WorkerId :: v != w ==> TagAt(t, v, k) == TagAt(s, v, k);
    match op
    case CommitIntent =>
    case FlagReview(_) =>
    case AskProbe(_) =>
    case Authorise(_) =>
    case MarkAttempt =>
    case CallTool(_, _) =>
    case RecordResult =>
    case Claim =>
    case _ =>
  }

  lemma ActionKeepsReview(c: Config, s: Sys, a: Action, k: nat)
    requires Inv(c, s) && ReviewOk(s, k) && (Granted(s, a) ==> Clear(s, k, DOUBTFUL))
    ensures ReviewOk(Apply(c, s, a), k)
  {
    var t := Apply(c, s, a);
    if a.Do? {
      WorkTags(c, s, a.w, a.op, k);
      WorkFrame(c, s, a.w, a.op, k);
      if TagAt(s, a.w, k) != Off {
        OneDoubtful(c, s, a.w, k);
      }
      hide Work, Inv, ReviewOk, Clear, Granted, TagStep, Frame, TagOf;
      ReviewStep(c, s, t, a.w, a.op, k);
    } else {
      OutsideMoves(c, s, a, k);
      hide Apply, Inv, TagOf;
      assert forall v: WorkerId :: TagAt(t, v, k) == TagAt(s, v, k);
    }
  }

  lemma {:induction false} RunKeepsReview(c: Config, s: Sys, acts: seq<Action>, k: nat)
    requires Inv(c, s) && ReviewOk(s, k) && ClaimsClear(c, s, acts, k, DOUBTFUL)
    ensures Inv(c, Run(c, s, acts)) && ReviewOk(Run(c, s, acts), k)
    decreases |acts|
  {
    hide Inv, ReviewOk, Clear, Granted, Apply;
    if acts != [] {
      ActionKeepsInv(c, s, acts[0]);
      ActionKeepsReview(c, s, acts[0], k);
      RunKeepsReview(c, Apply(c, s, acts[0]), acts[1..], k);
    }
  }

  /**
   No tool is called for a step that is under review, if claims wait for the workers that stand before the
   call's end.
  */
  lemma NeverUnderReview(c: Config, acts: seq<Action>, k: nat)
    requires ClaimsClear(c, INIT, acts, k, DOUBTFUL)
    ensures var calls := Run(c, INIT, acts).hist.calls;
            forall i :: 0 <= i < |calls| && calls[i].step == k ==> calls[i].status != NeedsReview
  {
    InitInv(c);
    RunKeepsReview(c, INIT, acts, k);
  }

  // ---- a review holds until the operator's retry ------------------------------------------------------

  /** The step's row is out of intent and nobody is about to do anything for it. */
  ghost predicate AtRest(s: Sys, k: nat) {
    RowAt(s, k).Some? && RowAt(s, k).value.status != Intent && Clear(s, k, DOUBTFUL)
  }

  lemma RestStep(c: Config, s: Sys, t: Sys, w: WorkerId, op: Op, k: nat)
    requires AtRest(s, k) && TagStep(c, s, t, w, op, k) && Frame(s, t, w, op, k)
    ensures AtRest(t, k) && Calls(t.hist.calls, k) == Calls(s.hist.calls, k) && Retries(t, k) == Retries(s, k)
  {
    CallsMove(c, s, t, w, op, k);
    hide Retries, Granted, TagOf, Logged, Calls;
    assert forall v: WorkerId :: v != w ==> TagAt(t, v, k) == TagAt(s, v, k);
    match op
    case CommitIntent =>
    case RecordResult =>
    case _ =>
  }

  lemma ActionAtRest(c: Config, s: Sys, a: Action, k: nat)
    requires Inv(c, s) && AtRest(s, k)
    ensures var t := Apply(c, s, a);
            && Retries(t, k) >= Retries(s, k)
            && (Retries(t, k) == Retries(s, k) ==> AtRest(t, k) && Calls(t.hist.calls, k) == Calls(s.hist.calls, k))
  {
    var t := Apply(c, s, a);
    if a.Do? {
      WorkTags(c, s, a.w, a.op, k);
      WorkFrame(c, s, a.w, a.op, k);
      hide Work, Inv, AtRest, TagStep, Frame;
      RestStep(c, s, t, a.w, a.op, k);
    } else {
      OutsideMoves(c, s, a, k);
      hide Apply, Inv, TagOf;
      assert forall v: WorkerId :: TagAt(t, v, k) == TagAt(s, v, k);
    }
  }

  lemma RetriesGrow(c: Config, s: Sys, a: Action, k: nat)
    requires Inv(c, s)
    ensures Retries(Apply(c, s, a), k) >= Retries(s, k)
  {
    if a.Do? {
      WorkRetries(c, s, a.w, a.op);
      hide Work, Inv;
    } else {
      OutsideMoves(c, s, a, k);
      hide Apply, Inv;
    }
  }

  lemma {:induction false} RunRetries(c: Config, s: Sys, acts: seq<Action>, k: nat)
    requires Inv(c, s)
    ensures Retries(Run(c, s, acts), k) >= Retries(s, k)
    decreases |acts|
  {
    hide Inv, Apply, Retries;
    if acts != [] {
      ActionKeepsInv(c, s, acts[0]);
      RetriesGrow(c, s, acts[0], k);
      RunRetries(c, Apply(c, s, acts[0]), acts[1..], k);
    }
  }

  lemma {:induction false} RestHolds(c: Config, s: Sys, more: seq<Action>, k: nat)
    requires Inv(c, s) && AtRest(s, k) && Retries(Run(c, s, more), k) == Retries(s, k)
    ensures Calls(Run(c, s, more).hist.calls, k) == Calls(s.hist.calls, k)
    decreases |more|
  {
    hide Inv, Apply, Retries, AtRest, Calls;
    if more != [] {
      var t := Apply(c, s, more[0]);
      ActionKeepsInv(c, s, more[0]);
      ActionAtRest(c, s, more[0], k);
      RunRetries(c, t, more[1..], k);
      RestHolds(c, t, more[1..], k);
    }
  }

  lemma ReviewRests(s: Sys, k: nat)
    requires ReviewOk(s, k) && RowAt(s, k).Some? && RowAt(s, k).value.status == NeedsReview
    ensures AtRest(s, k)
  {
    hide TagOf;
  }

  /** Once a row is under review its tool is not called again until the operator says retry, whoever claims the goal. */
  lemma ReviewHolds(c: Config, acts: seq<Action>, more: seq<Action>, k: nat)
    requires ClaimsClear(c, INIT, acts, k, DOUBTFUL)
    requires var s := Run(c, INIT, acts);
             && RowAt(s, k).Some? && RowAt(s, k).value.status == NeedsReview
             && Retries(Run(c, s, more), k) == Retries(s, k)
    ensures var s := Run(c, INIT, acts); Calls(Run(c, s, more).hist.calls, k) == Calls(s.hist.calls, k)
  {
    InitInv(c);
    RunKeepsReview(c, INIT, acts, k);
    hide Inv, Run, TagOf, Calls, Retries, ClaimsClear;
    var s := Run(c, INIT, acts);
    ReviewRests(s, k);
    hide ReviewOk;
    RestHolds(c, s, more, k);
  }

  // ---- calls that need approval -----------------------------------------------------------------------

  /** Until the operator's first retry, no claim is granted while the row is still an intent. */
  ghost predicate FlaggedFirst(c: Config, s: Sys, acts: seq<Action>, k: nat, retries: nat)
    decreases |acts|
  {
    || acts == []
    || Retries(s, k) > retries
    || ((Granted(s, acts[0]) ==> RowAt(s, k).Some? && RowAt(s, k).value.status != Intent)
        && FlaggedFirst(c, Apply(c, s, acts[0]), acts[1..], k, retries))
  }

  /** The row is recorded and only `w` can do anything about it: flag it, or stop. */
  ghost predicate Awaiting(s: Sys, k: nat, w: WorkerId) {
    && RowAt(s, k).Some? && RowAt(s, k).value.status == Intent
    && (forall v: WorkerId :: TagAt(s, v, k) != Off ==> v == w && TagAt(s, w, k) == ToFlag)
    && (s.slice.goal.owner.Some? ==> s.slice.goal.owner == Some(w))
    && (forall v: WorkerId :: !Recording(At(s, v).pc, k))
    && (TagAt(s, w, k) == ToFlag || At(s, w).pc == Leave || At(s, w).pc == Idle)
  }

  lemma WorkRecords(c: Config, s: Sys, w: WorkerId, op: Op, k: nat)
    requires TagAt(s, w, k) == Off || TagAt(s, w, k) == ToFlag
    ensures Recording(At(Work(c, s, w, op), w).pc, k) ==> Recording(At(s, w).pc, k)
  {
    hide KeyOf, ResultMessage;
  }

  /** The worker stays where it is, or stops; or it was at the flag and has set it. */
  predicate Stops(before: Pc, after: Pc, op: Op) {
    after == before || after == Leave || after == Idle || (op.FlagReview? && before.Flag? && after.Fence?)
  }

  lemma AwaitingMoves(c: Config, s: Sys, w: WorkerId, op: Op)
    requires At(s, w).pc.Flag? || At(s, w).pc == Leave || At(s, w).pc == Idle
    requires !Granted(s, Do(w, op))
    ensures Stops(At(s, w).pc, At(Work(c, s, w, op), w).pc, op)
  {
  }

  lemma AwaitingStep(c: Config, s: Sys, t: Sys, w: WorkerId, u: WorkerId, op: Op, k: nat)
    requires Awaiting(s, k, w) && TagStep(c, s, t, u, op, k)
    requires forall v: WorkerId :: v != u ==> At(t, v) == At(s, v)
    requires t.slice.goal.owner == s.slice.goal.owner || t.slice.goal.owner.None?
    requires Recording(At(t, u).pc, k) ==> Recording(At(s, u).pc, k)
    requires u == w ==> Stops(At(s, w).pc, At(t, w).pc, op)
    ensures Calls(t.hist.calls, k) == Calls(s.hist.calls, k)
    ensures Awaiting(t, k, w) || AtRest(t, k)
  {
    CallsMove(c, s, t, u, op, k);
    assert TagAt(s, w, k) == ToFlag ==> At(s, w).pc.Flag?;
    hide Granted, TagOf, Logged, Calls, Recording;
    assert forall v: WorkerId :: v != u ==> TagAt(t, v, k) == TagAt(s, v, k);
    if op.FlagReview? {
      FlagsWhileAwaiting(c, s, t, w, u, op, k);
    } else {
      StillAwaiting(c, s, t, w, u, op, k);
    }
  }

  lemma FlagsWhileAwaiting(c: Config, s: Sys, t: Sys, w: WorkerId, u: WorkerId, op: Op, k: nat)
    requires Awaiting(s, k, w) && TagStep(c, s, t, u, op, k) && op.FlagReview?
    requires forall v: WorkerId :: v != u ==> At(t, v) == At(s, v) && TagAt(t, v, k) == TagAt(s, v, k)
    requires t.slice.goal.owner == s.slice.goal.owner || t.slice.goal.owner.None?
    requires Recording(At(t, u).pc, k) ==> Recording(At(s, u).pc, k)
    requires u == w ==> Stops(At(s, w).pc, At(t, w).pc, op)
    requires TagAt(s, w, k) == ToFlag ==> At(s, w).pc.Flag?
    ensures Awaiting(t, k, w) || AtRest(t, k)
  {
    hide Logged, Recording, TagAt;
  }

  lemma StillAwaiting(c: Config, s: Sys, t: Sys, w: WorkerId, u: WorkerId, op: Op, k: nat)
    requires Awaiting(s, k, w) && TagStep(c, s, t, u, op, k) && !op.FlagReview?
    requires forall v: WorkerId :: v != u ==> At(t, v) == At(s, v) && TagAt(t, v, k) == TagAt(s, v, k)
    requires t.slice.goal.owner == s.slice.goal.owner || t.slice.goal.owner.None?
    requires Recording(At(t, u).pc, k) ==> Recording(At(s, u).pc, k)
    requires u == w ==> Stops(At(s, w).pc, At(t, w).pc, op)
    ensures Awaiting(t, k, w)
  {
    assert TagOf(Leave, k) == Off && TagOf(Idle, k) == Off;
    hide Logged, Recording, TagOf;
    match op
    case CommitIntent =>
    case RecordResult =>
    case _ =>
  }

  lemma WorkAwaits(c: Config, s: Sys, w: WorkerId, u: WorkerId, op: Op, k: nat)
    requires Inv(c, s) && Awaiting(s, k, w) && !Granted(s, Do(u, op))
    ensures var t := Work(c, s, u, op);
            && Calls(t.hist.calls, k) == Calls(s.hist.calls, k)
            && Retries(t, k) == Retries(s, k)
            && (Awaiting(t, k, w) || AtRest(t, k))
  {
    var t := Work(c, s, u, op);
    ActionKeepsInv(c, s, Do(u, op));
    WorkTags(c, s, u, op, k);
    WorkFrame(c, s, u, op, k);
    AwaitingRecords(c, s, w, u, op, k);
    hide Work, Inv, AtRest, TagStep, TagOf, Granted, Calls, Retries, Recording, Awaiting;
    AwaitingStep(c, s, t, w, u, op, k);
  }

  lemma AwaitingRecords(c: Config, s: Sys, w: WorkerId, u: WorkerId, op: Op, k: nat)
    requires Awaiting(s, k, w) && !Granted(s, Do(u, op))
    ensures Recording(At(Work(c, s, u, op), u).pc, k) ==> Recording(At(s, u).pc, k)
    ensures u == w ==> Stops(At(s, w).pc, At(Work(c, s, w, op), w).pc, op)
  {
    WorkRecords(c, s, u, op, k);
    if u == w {
      AwaitingMoves(c, s, w, op);
    }
    hide Work;
  }

  lemma ActionAwaits(c: Config, s: Sys, w: WorkerId, a: Action, k: nat)
    requires Inv(c, s) && Awaiting(s, k, w) && !Granted(s, a)
    ensures var t := Apply(c, s, a);
            && Calls(t.hist.calls, k) == Calls(s.hist.calls, k)
            && (Retries(t, k) == Retries(s, k) ==> Awaiting(t, k, w) || AtRest(t, k))
  {
    if a.Do? {
      hide Work, Inv, AtRest, Granted, Calls, Retries, Awaiting;
      WorkAwaits(c, s, w, a.w, a.op, k);
    } else {
      OutsideMoves(c, s, a, k);
      ActionKeepsInv(c, s, a);
      hide Apply, Inv, Granted, Calls, Retries, Awaiting;
      OutsideAwaits(s, Apply(c, s, a), w, k);
    }
  }

  lemma OutsideAwaits(s: Sys, t: Sys, w: WorkerId, k: nat)
    requires Awaiting(s, k, w) && OutsideTags(s, t, k) && Evolves(s.slice, t.slice)
    ensures Calls(t.hist.calls, k) == Calls(s.hist.calls, k) && Awaiting(t, k, w)
  {
    hide TagOf, Recording, Calls;
    assert forall v: WorkerId :: At(t, v) == At(s, v) && TagAt(t, v, k) == TagAt(s, v, k);
  }

  lemma FirstClaimWaits(c: Config, s: Sys, more: seq<Action>, w: WorkerId, k: nat)
    requires more != [] && Awaiting(s, k, w) && FlaggedFirst(c, s, more, k, Retries(s, k))
    ensures !Granted(s, more[0]) && FlaggedFirst(c, Apply(c, s, more[0]), more[1..], k, Retries(s, k))
  {
    hide Apply, Granted, Retries;
  }

  lemma {:induction false} AwaitingHolds(c: Config, s: Sys, more: seq<Action>, w: WorkerId, k: nat)
    requires Inv(c, s) && Awaiting(s, k, w) && FlaggedFirst(c, s, more, k, Retries(s, k))
    requires Retries(Run(c, s, more), k) == Retries(s, k)
    ensures Calls(Run(c, s, more).hist.calls, k) == Calls(s.hist.calls, k)
    decreases |more|
  {
    hide Inv, Apply, Retries, AtRest, Calls, Awaiting, Granted, FlaggedFirst;
    if more != [] {
      var t := Apply(c, s, more[0]);
      FirstClaimWaits(c, s, more, w, k);
      ActionKeepsInv(c, s, more[0]);
      ActionAwaits(c, s, w, more[0], k);
      RetriesGrow(c, s, more[0], k);
      RunRetries(c, t, more[1..], k);
      if Awaiting(t, k, w) {
        AwaitingHolds(c, t, more[1..], w, k);
      } else {
        RestHolds(c, t, more[1..], k);
      }
    }
  }

  /** A request for approval has been recorded by the lease holder. */
  lemma Requested(c: Config, s: Sys, w: WorkerId)
    requires Inv(c, s) && At(s, w).pc.Request? && HoldsLease(s, w) && At(s, w).pc.step !in s.slice.effects
    ensures var t, k := Apply(c, s, Do(w, CommitIntent)), At(s, w).pc.step;
            && Awaiting(t, k, w) && Calls(t.hist.calls, k) == Calls(s.hist.calls, k) == 0
            && Retries(t, k) == Retries(s, k)
  {
    var t, k := Apply(c, s, Do(w, CommitIntent)), At(s, w).pc.step;
    WorkFrame(c, s, w, CommitIntent, k);
    NoneBefore(c, s, k);
    hide KeyOf, Inv, Calls;
  }

  /** A step without a row has neither calls nor workers about to make one. */
  lemma NoneBefore(c: Config, s: Sys, k: nat)
    requires Inv(c, s) && k !in s.slice.effects
    ensures forall v: WorkerId :: TagAt(s, v, k) == Off && !Recording(At(s, v).pc, k)
    ensures Calls(s.hist.calls, k) == 0
  {
    hide KeyOf, ReturnsStored, ResultsDelivered, WritesOrdered, RowsAgree;
    forall v: WorkerId ensures TagAt(s, v, k) == Off && !Recording(At(s, v).pc, k) {
      assert LocalOk(s, v);
    }
    NoCalls(s.hist.calls, s.slice.effects, k);
  }

  lemma {:induction false} NoCalls(calls: seq<Invocation>, effects: map<nat, Effect>, k: nat)
    requires CallsBound(calls, effects) && k !in effects
    ensures Calls(calls, k) == 0
  {
    if calls != [] {
      assert IsCallOf(calls[|calls| - 1], effects);
      NoCalls(calls[..|calls| - 1], effects, k);
    }
  }

  /**
   A call that needs approval is recorded by `w` and then flagged. It is made only after an operator's
   retry, whatever else happens, as long as no claim of the goal is granted between the two: in
   particular as long as `w` does not stop there.
  */
  lemma ApprovalKept(c: Config, s: Sys, w: WorkerId, more: seq<Action>)
    requires Inv(c, s) && At(s, w).pc.Request? && HoldsLease(s, w) && At(s, w).pc.step !in s.slice.effects
    requires FlaggedFirst(c, Apply(c, s, Do(w, CommitIntent)), more, At(s, w).pc.step, Retries(s, At(s, w).pc.step))
    ensures var t, k := Run(c, Apply(c, s, Do(w, CommitIntent)), more), At(s, w).pc.step;
            Calls(t.hist.calls, k) > 0 ==> Retries(t, k) > Retries(s, k)
  {
    var t, k := Apply(c, s, Do(w, CommitIntent)), At(s, w).pc.step;
    Requested(c, s, w);
    ActionKeepsInv(c, s, Do(w, CommitIntent));
    hide Inv, Apply, Calls, Retries, Awaiting;
    RunRetries(c, t, more, k);
    if Retries(Run(c, t, more), k) == Retries(s, k) {
      AwaitingHolds(c, t, more, w, k);
    }
  }
}
