/**
 Side effects happen at most once. The attempt mark and the result row are not lease-fenced, so this
 needs the crash-stop hypothesis: a goal is claimed again only once no worker stands at an unfenced write
 or a tool call for it. CallCounts says how much less the numbers of calls need.
*/
module CrashStop {
  import opened Goals
  import opened Invariants
  import opened Json
  import opened Key
  import opened Protocol
  import opened Safety
  import opened Wrappers

  // ---- hypotheses -------------------------------------------------------------------------------

  /** The worker may still write an effect row or call the tool without holding a lease. */
  predicate Unfenced(pc: Pc) {
    pc.Flag? || pc.Probe? || pc.Authorize? || pc.Mark? || pc.Call? || pc.Learn?
  }

  ghost predicate CrashStopStep(s: Sys, a: Action) {
    a.Do? && a.op.Claim? ==> forall v: WorkerId :: !Unfenced(At(s, v).pc)
  }

  /** The outside world holds an entry of this step's effect. */
  predicate Holding(world: seq<Applied>, k: nat) { exists i :: 0 <= i < |world| && world[i].step == k }

  /** An answer that a probe gives is true. */
  predicate SoundStep(s: Sys, a: Action) {
    a.Do? && a.op.AskProbe? && At(s, a.w).pc.Probe? ==>
      match a.op.answer
      case Happened(_) => Holding(s.world, At(s, a.w).pc.e.step)
      case Missing => !Holding(s.world, At(s, a.w).pc.e.step)
      case Broken => true
  }

  ghost predicate Disciplined(c: Config, s: Sys, acts: seq<Action>)
    decreases |acts|
  {
    acts == [] ||
    (CrashStopStep(s, acts[0]) && SoundStep(s, acts[0]) && Disciplined(c, Apply(c, s, acts[0]), acts[1..]))
  }

  // ---- counting ---------------------------------------------------------------------------------

  function Writes(world: seq<Applied>, k: nat): nat {
    if world == [] then 0
    else Writes(world[..|world| - 1], k) + (if world[|world| - 1].step == k then 1 else 0)
  }

  lemma WritesSnoc(world: seq<Applied>, x: Applied, k: nat)
    ensures Writes(world + [x], k) == Writes(world, k) + (if x.step == k then 1 else 0)
  {
    assert (world + [x])[..|world|] == world;
  }

  lemma {:induction false} WritesHolding(world: seq<Applied>, k: nat)
    ensures Writes(world, k) > 0 <==> Holding(world, k)
  {
    if world != [] {
      var init := world[..|world| - 1];
      WritesHolding(init, k);
      assert world == init + [world[|world| - 1]];
      if Holding(init, k) {
        var i :| 0 <= i < |init| && init[i].step == k;
        assert world[i].step == k;
      }
    }
  }

  function Retries(s: Sys, k: nat): nat { if k in s.hist.retries then s.hist.retries[k] else 0 }

  // ---- the invariant ----------------------------------------------------------------------------

  /** What a worker between intent and result knows about its row. */
  ghost predicate InDoubtOk(c: Config, s: Sys, w: WorkerId) {
    var pc := At(s, w).pc;
    Unfenced(pc) ==>
      && At(s, w).epoch == s.slice.goal.epoch
      && pc.e.step in s.slice.effects
      && s.slice.effects[pc.e.step].status == Intent
      && (pc.Probe? ==> pc.e.tool in c.probers)
      && (pc.Authorize? || pc.Mark? || pc.Call? ==> MayRun(s, pc.e.step))
      && (pc.Probe? || pc.Call? || pc.Learn? ==> s.slice.effects[pc.e.step].attempts > 0)
  }

  predicate MayRun(s: Sys, k: nat) { Writes(s.world, k) <= Retries(s, k) }

  ghost predicate CountsOk(s: Sys) {
    forall k :: k in s.slice.effects ==> CountOk(s, k)
  }

  predicate CountOk(s: Sys, k: nat)
    requires k in s.slice.effects
  {
    var e := s.slice.effects[k];
    Writes(s.world, k) <= Retries(s, k) + if e.status == Intent && e.attempts == 0 then 0 else 1
  }

  /** No side effect for a step without a row. */
  ghost predicate LogsOk(s: Sys) { forall k :: k !in s.slice.effects ==> Writes(s.world, k) == 0 }

  ghost predicate Exclusive(c: Config, s: Sys) {
    && Inv(c, s)
    && (forall w: WorkerId :: InDoubtOk(c, s, w))
    && CountsOk(s)
    && LogsOk(s)
  }

  /** Two workers between intent and result are one worker. */
  lemma OneInDoubt(c: Config, s: Sys, v: WorkerId, w: WorkerId)
    requires Exclusive(c, s) && Unfenced(At(s, v).pc) && Unfenced(At(s, w).pc)
    ensures v == w
  {
    hide GlobalOk, CountsOk, LogsOk;
    assert LocalOk(s, v) && LocalOk(s, w);
    assert InDoubtOk(c, s, v) && InDoubtOk(c, s, w);
  }

  /** While a worker is in doubt nobody else holds the lease. */
  lemma HolderInDoubt(c: Config, s: Sys, v: WorkerId, w: WorkerId)
    requires Exclusive(c, s) && Unfenced(At(s, v).pc) && HoldsLease(s, w)
    ensures v == w
  {
    hide RowsAgree, CallsBound, ReturnsStored, ResultsDelivered, CountsOk, LogsOk;
    assert LocalOk(s, v);
    assert InDoubtOk(c, s, v);
  }

  // ---- steps that touch no effect row and no log ------------------------------------------------

  predicate Quiet(s: Sys, t: Sys) {
    && t.slice.effects == s.slice.effects
    && t.slice.goal.epoch == s.slice.goal.epoch
    && t.world == s.world
    && t.hist.retries == s.hist.retries
  }

  lemma QuietKeeps(c: Config, s: Sys, t: Sys, actor: Option<WorkerId>)
    requires Exclusive(c, s) && Inv(c, t) && Quiet(s, t)
    requires forall v: WorkerId :: actor != Some(v) ==> At(t, v) == At(s, v)
    requires actor.Some? ==> InDoubtOk(c, t, actor.value)
    ensures Exclusive(c, t)
  {
    hide Inv;
    forall v: WorkerId ensures InDoubtOk(c, t, v) {
      assert InDoubtOk(c, s, v);
    }
    forall k | k in t.slice.effects ensures CountOk(t, k) {
      assert CountOk(s, k);
    }
  }

  /** Operations that leave rows and logs alone whatever the worker's position. */
  predicate PlainOp(op: Op) {
    op.Heartbeat? || op.Load? || op.LookUp? || op.ReadHistory? || op.ReadMail? || op.Decide? || op.Verify?
    || op.AdvanceCursor? || op.Transition? || op.Release? || op.Fault? || op.Crash?
  }

  lemma PlainKeeps(c: Config, s: Sys, a: Action)
    requires Exclusive(c, s)
    requires a.Signal? || a.ResumeRead? || a.ResumeWrite? || a.Post? || a.Expire? || (a.Do? && PlainOp(a.op))
    ensures Exclusive(c, Apply(c, s, a))
  {
    hide Inv, InDoubtOk, CountsOk, LogsOk;
    ActionKeepsInv(c, s, a);
    var t := Apply(c, s, a);
    PlainIsQuiet(c, s, a);
    if a.Do? {
      assert InDoubtOk(c, s, a.w);
      PlainActor(c, s, a.w, a.op);
      QuietKeeps(c, s, t, Some(a.w));
    } else {
      QuietKeeps(c, s, t, None);
    }
  }

  lemma PlainIsQuiet(c: Config, s: Sys, a: Action)
    requires a.Signal? || a.ResumeRead? || a.ResumeWrite? || a.Post? || a.Expire? || (a.Do? && PlainOp(a.op))
    ensures Quiet(s, Apply(c, s, a))
    ensures forall v: WorkerId :: !(a.Do? && a.w == v) ==> At(Apply(c, s, a), v) == At(s, v)
  {
    if a.Do? {
      PlainWorkIsQuiet(c, s, a.w, a.op);
    }
  }

  lemma PlainWorkIsQuiet(c: Config, s: Sys, w: WorkerId, op: Op)
    requires PlainOp(op)
    ensures Quiet(s, Work(c, s, w, op))
    ensures forall v: WorkerId :: w != v ==> At(Work(c, s, w, op), v) == At(s, v)
  {
    hide KeyOf, ResultMessage, Quiet;
    if op.Heartbeat? || op.Load? || op.AdvanceCursor? || op.Transition? || op.Release? {
      LeasedWorkIsQuiet(c, s, w, op);
    } else {
      ReadWorkIsQuiet(c, s, w, op);
    }
  }

  lemma LeasedWorkIsQuiet(c: Config, s: Sys, w: WorkerId, op: Op)
    requires op.Heartbeat? || op.Load? || op.AdvanceCursor? || op.Transition? || op.Release?
    ensures Quiet(s, Work(c, s, w, op))
    ensures forall v: WorkerId :: w != v ==> At(Work(c, s, w, op), v) == At(s, v)
  {
    hide KeyOf, ResultMessage;
  }

  lemma ReadWorkIsQuiet(c: Config, s: Sys, w: WorkerId, op: Op)
    requires op.LookUp? || op.ReadHistory? || op.ReadMail? || op.Decide? || op.Verify? || op.Fault? || op.Crash?
    ensures Quiet(s, Work(c, s, w, op))
    ensures forall v: WorkerId :: w != v ==> At(Work(c, s, w, op), v) == At(s, v)
  {
    hide KeyOf, ResultMessage;
  }

  lemma PlainActor(c: Config, s: Sys, w: WorkerId, op: Op)
    requires InDoubtOk(c, s, w) && PlainOp(op) && Quiet(s, Work(c, s, w, op))
    ensures InDoubtOk(c, Work(c, s, w, op), w)
  {
    hide KeyOf, ResultMessage;
    var t := Work(c, s, w, op);
    assert At(t, w) == At(s, w) || !Unfenced(At(t, w).pc);
  }

  // ---- claim and intent -------------------------------------------------------------------------

  lemma ClaimKeepsCounts(c: Config, s: Sys, w: WorkerId)
    requires Exclusive(c, s) && CrashStopStep(s, Do(w, Claim))
    ensures Exclusive(c, DoClaim(s, w))
  {
    hide Inv;
    ActionKeepsInv(c, s, Do(w, Claim));
    var t := DoClaim(s, w);
    forall v: WorkerId ensures InDoubtOk(c, t, v) {
      assert !Unfenced(At(s, v).pc) && !Unfenced(At(t, v).pc);
    }
    forall k | k in t.slice.effects ensures CountOk(t, k) {
      assert CountOk(s, k);
    }
  }

  lemma SettleKeepsCounts(c: Config, s: Sys, w: WorkerId)
    requires Exclusive(c, s)
    requires At(s, w).pc.Intend? || At(s, w).pc.Request?
    requires At(s, w).pc.step in s.slice.effects || !HoldsLease(s, w)
    ensures Exclusive(c, DoCommitIntent(c, s, w))
  {
    hide Inv, InDoubtOk, KeyOf;
    ActionKeepsInv(c, s, Do(w, CommitIntent));
    SettledActor(c, s, w);
    QuietKeeps(c, s, DoCommitIntent(c, s, w), Some(w));
  }

  lemma SettledActor(c: Config, s: Sys, w: WorkerId)
    requires Inv(c, s) && CountsOk(s)
    requires At(s, w).pc.Intend? || At(s, w).pc.Request?
    requires At(s, w).pc.step in s.slice.effects || !HoldsLease(s, w)
    ensures InDoubtOk(c, DoCommitIntent(c, s, w), w)
  {
    hide KeyOf;
    assert LocalOk(s, w);
    if HoldsLease(s, w) {
      hide Inv;
      var k := At(s, w).pc.step;
      RowNamedInv(c, s, k);
      assert CountOk(s, k);
    }
  }

  lemma RowNamedInv(c: Config, s: Sys, k: nat)
    requires Inv(c, s) && k in s.slice.effects
    ensures s.slice.effects[k].step == k
  {
    hide GlobalOk;
    RowNamed(c, s, k);
  }

  lemma InsertKeepsCounts(c: Config, s: Sys, w: WorkerId)
    requires Exclusive(c, s)
    requires At(s, w).pc.Intend? || At(s, w).pc.Request?
    requires At(s, w).pc.step !in s.slice.effects && HoldsLease(s, w)
    ensures Exclusive(c, DoCommitIntent(c, s, w))
  {
    hide Inv, KeyOf;
    ActionKeepsInv(c, s, Do(w, CommitIntent));
    var t, k := DoCommitIntent(c, s, w), At(s, w).pc.step;
    InsertMoves(c, s, w);
    hide DoCommitIntent;
    forall v: WorkerId ensures InDoubtOk(c, t, v) {
      if v != w && Unfenced(At(s, v).pc) {
        HolderInDoubt(c, s, v, w);
      }
    }
    forall j | j in t.slice.effects ensures CountOk(t, j) {
      if j != k {
        assert CountOk(s, j);
      }
    }
  }

  /** A fresh intent: one new row, and its worker next authorises or flags it. */
  lemma InsertMoves(c: Config, s: Sys, w: WorkerId)
    requires At(s, w).pc.Intend? || At(s, w).pc.Request?
    requires At(s, w).pc.step !in s.slice.effects && HoldsLease(s, w)
    ensures var t, pc := DoCommitIntent(c, s, w), At(s, w).pc;
            var e := NewEffect(KeyOf(pc.tool, pc.args, c.goal, pc.step), pc.step, pc.tool, pc.args);
            && t.workers == s.workers[w := At(s, w).(pc := if pc.Intend? then Authorize(e) else Flag(e))]
            && t.slice.effects == s.slice.effects[pc.step := e] && t.slice.goal == s.slice.goal
            && t.world == s.world && t.hist.retries == s.hist.retries
  {
    hide KeyOf;
  }

  // ---- between intent and result ----------------------------------------------------------------

  lemma CopyAgrees(c: Config, s: Sys, w: WorkerId)
    requires Inv(c, s) && Unfenced(At(s, w).pc)
    ensures var e := At(s, w).pc.e; e.step in s.slice.effects && SameCall(e, s.slice.effects[e.step])
  {
    hide GlobalOk;
    assert LocalOk(s, w);
  }

  lemma ProbeKeepsCounts(c: Config, s: Sys, w: WorkerId, answer: ProbeAnswer)
    requires Exclusive(c, s) && SoundStep(s, Do(w, AskProbe(answer)))
    ensures Exclusive(c, DoProbe(s, w, answer))
  {
    hide Inv, CountsOk, LogsOk;
    ActionKeepsInv(c, s, Do(w, AskProbe(answer)));
    assert InDoubtOk(c, s, w);
    if At(s, w).pc.Probe? {
      CopyAgrees(c, s, w);
      WritesHolding(s.world, At(s, w).pc.e.step);
    }
    QuietKeeps(c, s, DoProbe(s, w, answer), Some(w));
  }

  lemma AuthoriseKeepsCounts(c: Config, s: Sys, w: WorkerId, allow: bool)
    requires Exclusive(c, s)
    ensures Exclusive(c, DoAuthorise(s, w, allow))
  {
    hide Inv, CountsOk, LogsOk;
    ActionKeepsInv(c, s, Do(w, Authorise(allow)));
    assert InDoubtOk(c, s, w);
    QuietKeeps(c, s, DoAuthorise(s, w, allow), Some(w));
  }

  /** The one worker in doubt changes its own row, to something that allows no more runs than before. */
  lemma OwnRowKeeps(c: Config, s: Sys, t: Sys, w: WorkerId)
    requires Exclusive(c, s) && Inv(c, t) && Unfenced(At(s, w).pc)
    requires forall v: WorkerId :: v != w ==> At(t, v) == At(s, v)
    requires InDoubtOk(c, t, w)
    requires var k := At(s, w).pc.e.step;
             && k in s.slice.effects && k in t.slice.effects
             && t.slice.effects == s.slice.effects[k := t.slice.effects[k]]
             && t.slice.effects[k].tool == s.slice.effects[k].tool
             && (t.slice.effects[k].status == Intent ==> t.slice.effects[k].attempts > 0)
    requires t.world == s.world && t.hist.retries == s.hist.retries
    ensures Exclusive(c, t)
  {
    hide Inv;
    forall v: WorkerId ensures InDoubtOk(c, t, v) {
      if v != w && Unfenced(At(s, v).pc) {
        OneInDoubt(c, s, v, w);
      }
    }
    forall j | j in t.slice.effects ensures CountOk(t, j) {
      assert CountOk(s, j);
    }
  }

  lemma FlagKeepsCounts(c: Config, s: Sys, w: WorkerId, why: string)
    requires Exclusive(c, s)
    ensures Exclusive(c, DoFlag(s, w, why))
  {
    hide Inv, CountsOk, LogsOk;
    ActionKeepsInv(c, s, Do(w, FlagReview(why)));
    assert InDoubtOk(c, s, w);
    if At(s, w).pc.Flag? {
      RowNamedInv(c, s, At(s, w).pc.e.step);
      OwnRowKeeps(c, s, DoFlag(s, w, why), w);
    }
  }

  lemma MarkKeepsCounts(c: Config, s: Sys, w: WorkerId)
    requires Exclusive(c, s)
    ensures Exclusive(c, DoMark(s, w))
  {
    hide Inv, CountsOk, LogsOk;
    ActionKeepsInv(c, s, Do(w, MarkAttempt));
    assert InDoubtOk(c, s, w);
    if At(s, w).pc.Mark? {
      RowNamedInv(c, s, At(s, w).pc.e.step);
      CopyAgrees(c, s, w);
      OwnRowKeeps(c, s, DoMark(s, w), w);
    }
  }

  lemma RecordKeepsCounts(c: Config, s: Sys, w: WorkerId)
    requires Exclusive(c, s)
    ensures Exclusive(c, DoRecord(s, w))
  {
    hide Inv, CountsOk, LogsOk, ResultMessage;
    ActionKeepsInv(c, s, Do(w, RecordResult));
    assert InDoubtOk(c, s, w);
    if At(s, w).pc.Learn? {
      RowNamedInv(c, s, At(s, w).pc.e.step);
      RecordMoves(s, w);
      hide DoRecord;
      OwnRowKeeps(c, s, DoRecord(s, w), w);
    }
  }

  lemma RecordMoves(s: Sys, w: WorkerId)
    requires At(s, w).pc.Learn? && At(s, w).pc.e.step in s.slice.effects
    ensures var t, k := DoRecord(s, w), At(s, w).pc.e.step;
            && !Unfenced(At(t, w).pc)
            && (forall v: WorkerId :: v != w ==> At(t, v) == At(s, v))
            && t.slice.effects == s.slice.effects[k := Settled(s.slice.effects[k], At(s, w).pc.outcome)]
            && t.world == s.world && t.hist.retries == s.hist.retries
  {
    hide ResultMessage;
  }

  /** The call itself: the one count that grows, where it was allowed to. */
  lemma CallKeepsCounts(c: Config, s: Sys, w: WorkerId, o: Outcome, wrote: bool)
    requires Exclusive(c, s)
    ensures Exclusive(c, DoCall(s, w, o, wrote))
  {
    hide Inv, MayRun;
    ActionKeepsInv(c, s, Do(w, CallTool(o, wrote)));
    assert InDoubtOk(c, s, w);
    if At(s, w).pc.Call? {
      CallWrites(s, w, o, wrote);
      CallMoves(s, w, o, wrote);
      hide DoCall, InDoubtOk, CountsOk, LogsOk;
      CalledKeeps(c, s, DoCall(s, w, o, wrote), w, o);
    }
  }

  lemma CalledKeeps(c: Config, s: Sys, t: Sys, w: WorkerId, o: Outcome)
    requires Exclusive(c, s) && Inv(c, t) && At(s, w).pc.Call?
    requires forall v: WorkerId :: v != w ==> At(t, v) == At(s, v)
    requires At(t, w) == At(s, w).(pc := Learn(At(s, w).pc.e, o))
    requires t.slice == s.slice && t.hist.retries == s.hist.retries && At(s, w).pc.e.step in s.slice.effects
    requires var k := At(s, w).pc.e.step;
             forall j :: Writes(s.world, j) <= Writes(t.world, j) <= Writes(s.world, j) + if j == k then 1 else 0
    ensures Exclusive(c, t)
  {
    hide Inv, Writes;
    var k := At(s, w).pc.e.step;
    assert InDoubtOk(c, s, w);
    forall v: WorkerId ensures InDoubtOk(c, t, v) {
      if v != w && Unfenced(At(s, v).pc) {
        OneInDoubt(c, s, v, w);
      }
    }
    forall j | j in t.slice.effects ensures CountOk(t, j) {
      assert CountOk(s, j);
      assert j == k ==> MayRun(s, k);
    }
  }

  lemma CallMoves(s: Sys, w: WorkerId, o: Outcome, wrote: bool)
    requires At(s, w).pc.Call? && At(s, w).pc.e.step in s.slice.effects
    ensures var t := DoCall(s, w, o, wrote);
            && (forall v: WorkerId :: v != w ==> At(t, v) == At(s, v))
            && At(t, w) == At(s, w).(pc := Learn(At(s, w).pc.e, o))
            && t.slice == s.slice && t.hist.retries == s.hist.retries
  {
  }

  lemma CallWrites(s: Sys, w: WorkerId, o: Outcome, wrote: bool)
    requires At(s, w).pc.Call? && At(s, w).pc.e.step in s.slice.effects
    ensures var t, k := DoCall(s, w, o, wrote), At(s, w).pc.e.step;
            forall j :: Writes(s.world, j) <= Writes(t.world, j) <= Writes(s.world, j) + if j == k then 1 else 0
  {
    var e, t := At(s, w).pc.e, DoCall(s, w, o, wrote);
    var entry := Applied(e.step, e.key, e.tool, e.args);
    assert t.world == if wrote then s.world + [entry] else s.world;
    hide DoCall, Writes;
    forall j: nat
      ensures Writes(s.world, j) <= Writes(t.world, j) <= Writes(s.world, j) + if j == e.step then 1 else 0
    {
      WritesSnoc(s.world, entry, j);
    }
  }

  // ---- operators and every run ------------------------------------------------------------------

  lemma ResolveKeepsCounts(c: Config, s: Sys, k: nat, how: Resolution, r: Option<Json>)
    requires Exclusive(c, s)
    ensures Exclusive(c, DoResolve(s, k, how, r))
  {
    hide Inv, InDoubtOk, CountsOk, LogsOk;
    ActionKeepsInv(c, s, Action.Resolve(k, how, r));
    if DoResolve(s, k, how, r) != s {
      RowNamedInv(c, s, k);
      hide Exclusive;
      ResolveMoves(s, k, how, r);
      hide DoResolve;
      ReviewedRowKeeps(c, s, DoResolve(s, k, how, r), k);
    }
  }

  /** A row under review leaves it, and is run again only at the price of a retry. */
  lemma ReviewedRowKeeps(c: Config, s: Sys, t: Sys, k: nat)
    requires Exclusive(c, s) && Inv(c, t)
    requires k in s.slice.effects && s.slice.effects[k].status == NeedsReview
    requires t.workers == s.workers && t.slice.goal == s.slice.goal && t.world == s.world
    requires k in t.slice.effects && t.slice.effects == s.slice.effects[k := t.slice.effects[k]]
    requires t.slice.effects[k].tool == s.slice.effects[k].tool
    requires Retries(t, k) >= Retries(s, k)
      && (t.slice.effects[k].status == Intent ==> Retries(t, k) == Retries(s, k) + 1)
    requires forall j :: j != k ==> Retries(t, j) == Retries(s, j)
    ensures Exclusive(c, t)
  {
    hide Inv, Retries;
    forall v: WorkerId ensures InDoubtOk(c, t, v) {
      assert InDoubtOk(c, s, v);
    }
    forall j | j in t.slice.effects ensures CountOk(t, j) {
      assert CountOk(s, j);
    }
  }

  /** A resolution rewrites one row under review, and a retry is counted. */
  lemma ResolveMoves(s: Sys, k: nat, how: Resolution, r: Option<Json>)
    requires k in s.slice.effects && s.slice.effects[k].status == NeedsReview && s.slice.effects[k].step == k
    ensures var t := DoResolve(s, k, how, r);
            && t.workers == s.workers && t.slice.goal == s.slice.goal
            && t.slice.effects == s.slice.effects[k := Resolved(s.slice.effects[k], how, r)]
            && t.world == s.world
            && Retries(t, k) == Retries(s, k) + (if how == Retry then 1 else 0)
            && forall j :: j != k ==> Retries(t, j) == Retries(s, j)
  {
  }

  lemma ActionKeepsCounts(c: Config, s: Sys, a: Action)
    requires Exclusive(c, s) && CrashStopStep(s, a) && SoundStep(s, a)
    ensures Exclusive(c, Apply(c, s, a))
  {
    hide Exclusive, CrashStopStep, SoundStep;
    match a
    case Do(w, Claim) => ClaimKeepsCounts(c, s, w);
    case Do(w, CommitIntent) => IntentKeepsCounts(c, s, w);
    case Do(w, FlagReview(why)) => FlagKeepsCounts(c, s, w, why);
    case Do(w, AskProbe(answer)) => ProbeKeepsCounts(c, s, w, answer);
    case Do(w, Authorise(allow)) => AuthoriseKeepsCounts(c, s, w, allow);
    case Do(w, MarkAttempt) => MarkKeepsCounts(c, s, w);
    case Do(w, CallTool(o, wrote)) => CallKeepsCounts(c, s, w, o, wrote);
    case Do(w, RecordResult) => RecordKeepsCounts(c, s, w);
    case Resolve(k, how, r) => ResolveKeepsCounts(c, s, k, how, r);
    case _ => PlainKeeps(c, s, a);
  }

  lemma IntentKeepsCounts(c: Config, s: Sys, w: WorkerId)
    requires Exclusive(c, s)
    ensures Exclusive(c, DoCommitIntent(c, s, w))
  {
    hide Exclusive;
    var pc := At(s, w).pc;
    if pc.Intend? || pc.Request? {
      if pc.step in s.slice.effects || !HoldsLease(s, w) {
        SettleKeepsCounts(c, s, w);
      } else {
        InsertKeepsCounts(c, s, w);
      }
    }
  }

  lemma InitExclusive(c: Config)
    ensures Exclusive(c, INIT)
  {
    hide Inv;
    InitInv(c);
  }

  lemma {:induction false} RunKeepsCounts(c: Config, s: Sys, acts: seq<Action>)
    requires Exclusive(c, s) && Disciplined(c, s, acts)
    ensures Exclusive(c, Run(c, s, acts))
    decreases |acts|
  {
    hide Exclusive, CrashStopStep, SoundStep;
    if acts != [] {
      ActionKeepsCounts(c, s, acts[0]);
      RunKeepsCounts(c, Apply(c, s, acts[0]), acts[1..]);
    }
  }

  /** With sound probes no step's effect reaches the world more often than once plus once per operator retry. */
  lemma AppliedAtMostOnce(c: Config, acts: seq<Action>, k: nat)
    requires Disciplined(c, INIT, acts)
    ensures var s := Run(c, INIT, acts); Writes(s.world, k) <= 1 + Retries(s, k)
  {
    InitExclusive(c);
    RunKeepsCounts(c, INIT, acts);
    hide Inv, InDoubtOk;
    var s := Run(c, INIT, acts);
    if k in s.slice.effects {
      assert CountOk(s, k);
    }
  }
}
