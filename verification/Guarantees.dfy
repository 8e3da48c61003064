/**
 What every run of the protocol guarantees, with an arbitrary agent, arbitrary operators and
 workers that keep stepping after their lease is gone.
*/
module Guarantees {
  import opened Fsm
  import opened Goals
  import opened Invariants
  import opened Key
  import opened Protocol
  import opened Safety
  import opened Wrappers

  // ---- cursor, steps and effects ----------------------------------------------------------------

  /** The cursor a worker's position was loaded from, if it carries one. */
  function LoadedCursor(pc: Pc): Option<nat> {
    match pc
    case Look(k) => Some(k)
    case ReadSteps(k, _) => Some(k)
    case ReadMessages(k, _, _) => Some(k)
    case Ask(ctx) => Some(ctx.step)
    case Judge(ctx) => Some(ctx.step)
    case Intend(k, _, _) => Some(k)
    case Request(k, _, _) => Some(k)
    case Flag(e) => Some(e.step)
    case Probe(e) => Some(e.step)
    case Authorize(e) => Some(e.step)
    case Mark(e) => Some(e.step)
    case Call(e) => Some(e.step)
    case Learn(e, _) => Some(e.step)
    case Advance(e) => Some(e.step)
    case _ => None
  }

  lemma CursorStepsEffectsAgree(c: Config, acts: seq<Action>, w: WorkerId)
    ensures var s := Run(c, INIT, acts);
            && (forall k: nat :: k in s.slice.steps <==> k < s.slice.goal.cursor)
            && (forall k :: k in s.slice.effects ==> k <= s.slice.goal.cursor && s.slice.effects[k].step == k)
            && (forall k :: k in s.slice.steps ==> k in s.slice.effects && Copies(s.slice.steps[k], s.slice.effects[k]))
            && (At(s, w).pc != Idle && HoldsLease(s, w) && LoadedCursor(At(s, w).pc).Some? ==>
                  LoadedCursor(At(s, w).pc).value == s.slice.goal.cursor)
  {
    var s := Run(c, INIT, acts);
    InitInv(c);
    RunKeepsInv(c, INIT, acts);
    hide CallsBound, ReturnsStored, ResultsDelivered, WritesOrdered;
    assert LocalOk(s, w);
  }

  // ---- no forked effect -------------------------------------------------------------------------

  lemma NoForkedEffect(c: Config, acts: seq<Action>, i: nat, j: nat)
    requires var calls := Run(c, INIT, acts).hist.calls; i < |calls| && j < |calls| && calls[i].step == calls[j].step
    ensures var calls := Run(c, INIT, acts).hist.calls;
            && calls[i].tool == calls[j].tool && calls[i].args == calls[j].args
            && calls[i].key == calls[j].key == KeyOf(calls[i].tool, calls[i].args, c.goal, calls[i].step)
  {
    var s := Run(c, INIT, acts);
    InitInv(c);
    RunKeepsInv(c, INIT, acts);
    hide ReturnsStored, ResultsDelivered, WritesOrdered, LocalOk, LeaseOk;
    assert IsCallOf(s.hist.calls[i], s.slice.effects) && IsCallOf(s.hist.calls[j], s.slice.effects);
  }

  // ---- first writer wins ------------------------------------------------------------------------

  lemma {:induction false} RunConcat(c: Config, s: Sys, a: seq<Action>, b: seq<Action>)
    ensures Run(c, s, a + b) == Run(c, Run(c, s, a), b)
    decreases |a|
  {
    if a == [] {
      assert a + b == b;
    } else {
      assert (a + b)[1..] == a[1..] + b;
      RunConcat(c, Apply(c, s, a[0]), a[1..], b);
    }
  }

  /** Committed and failed rows are frozen under every continuation, terminal goal states too. */
  lemma FinalIsAbsorbing(c: Config, acts: seq<Action>, more: seq<Action>)
    ensures var s, t := Run(c, INIT, acts), Run(c, INIT, acts + more);
            && (forall k :: k in s.slice.effects && Final(s.slice.effects[k]) ==>
                  k in t.slice.effects && t.slice.effects[k] == s.slice.effects[k])
            && (Terminal(s.slice.goal.state) ==> t.slice.goal.state == s.slice.goal.state)
  {
    hide Inv;
    InitInv(c);
    RunKeepsInv(c, INIT, acts);
    RunConcat(c, INIT, acts, more);
    RunKeepsInv(c, Run(c, INIT, acts), more);
  }

  /** All calls of Run that succeed for one step return the result stored for it. */
  lemma SuccessesAgree(c: Config, acts: seq<Action>, i: nat, j: nat)
    requires var rs := Run(c, INIT, acts).hist.successes; i < |rs| && j < |rs| && rs[i].step == rs[j].step
    ensures var s := Run(c, INIT, acts);
            && s.hist.successes[i].result == s.hist.successes[j].result
            && s.hist.successes[i].step in s.slice.effects
            && s.slice.effects[s.hist.successes[i].step].result == s.hist.successes[i].result
  {
    var s := Run(c, INIT, acts);
    InitInv(c);
    RunKeepsInv(c, INIT, acts);
    hide CallsBound, RowsAgree, ResultsDelivered, WritesOrdered, LocalOk, LeaseOk;
    assert IsStored(s.hist.successes[i], s.slice.effects) && IsStored(s.hist.successes[j], s.slice.effects);
  }

  /** Exactly one tool_result message per effect its result committed, and no other message but those posted. */
  lemma OneMessagePerResult(c: Config, acts: seq<Action>)
    ensures var s := Run(c, INIT, acts);
            ResultsDelivered(s.hist.delivered, s.hist.settledByOperator, s.hist.posted, s.slice.effects,
              s.slice.messages)
  {
    InitInv(c);
    RunKeepsInv(c, INIT, acts);
    hide CallsBound, RowsAgree, ReturnsStored, ResultsDelivered, WritesOrdered, LocalOk, LeaseOk;
  }

  // ---- epoch fencing ------------------------------------------------------------------------------

  /** The log is unchanged, or one write was accepted from the holder of the lease in force. */
  predicate LogStep(s: Sys, t: Sys) {
    var ws, ws' := s.hist.writes, t.hist.writes;
    || ws' == ws
    || (&& |ws'| == |ws| + 1 && ws' == ws + [ws'[|ws|]]
        && Holds(s.slice.goal, ws'[|ws|].worker, ws'[|ws|].epoch))
  }

  lemma WriteUnderLease(c: Config, s: Sys, a: Action)
    ensures LogStep(s, Apply(c, s, a))
  {
    hide LogStep, KeyOf, ResultMessage;
    match a
    case Do(w, CommitIntent) => IntentLogged(c, s, w);
    case Do(w, AdvanceCursor) => AdvanceLogged(s, w);
    case Do(w, Transition) => TransitionLogged(s, w);
    case _ => OthersUnlogged(c, s, a);
  }

  /** What only a fenced write may change: which effect rows exist, the step rows, and the goal's state and cursor. */
  predicate FencedChange(s: Slice, t: Slice) {
    || t.effects.Keys != s.effects.Keys
    || t.steps != s.steps
    || t.goal.state != s.goal.state
    || t.goal.cursor != s.goal.cursor
  }

  /** A worker's action changes any of these exactly when it is logged, as a write under the lease it holds. */
  lemma FencedChangesLogged(c: Config, s: Sys, w: WorkerId, op: Op)
    requires Inv(c, s)
    ensures var t := Apply(c, s, Do(w, op));
            && (FencedChange(s.slice, t.slice) <==> t.hist.writes != s.hist.writes)
            && (FencedChange(s.slice, t.slice) ==>
                  HoldsLease(s, w) && t.hist.writes == s.hist.writes + [FencedWrite(At(s, w).epoch, w)])
  {
    hide KeyOf, ResultMessage, CallsBound, ReturnsStored, ResultsDelivered, WritesOrdered, PcOk, LeaseOk;
    assert LocalOk(s, w);
    match op
    case CommitIntent => IntentFenced(c, s, w);
    case AdvanceCursor => AdvanceFenced(s, w);
    case Transition => TransitionFenced(s, w);
    case _ =>
      WorkUnlogged(c, s, w, op);
      OthersUnfenced(c, s, w, op);
  }

  lemma IntentFenced(c: Config, s: Sys, w: WorkerId)
    ensures var t := DoCommitIntent(c, s, w);
            if t.hist.writes == s.hist.writes then !FencedChange(s.slice, t.slice)
            else t.slice.effects.Keys != s.slice.effects.Keys && HoldsLease(s, w)
                 && t.hist.writes == s.hist.writes + [FencedWrite(At(s, w).epoch, w)]
  {
    hide KeyOf;
    var t := DoCommitIntent(c, s, w);
    if t.hist.writes != s.hist.writes {
      assert At(s, w).pc.step in t.slice.effects.Keys && At(s, w).pc.step !in s.slice.effects.Keys;
    }
  }

  lemma AdvanceFenced(s: Sys, w: WorkerId)
    ensures var t := DoAdvance(s, w);
            if t.hist.writes == s.hist.writes then !FencedChange(s.slice, t.slice)
            else t.slice.goal.cursor != s.slice.goal.cursor && HoldsLease(s, w)
                 && t.hist.writes == s.hist.writes + [FencedWrite(At(s, w).epoch, w)]
  {
  }

  lemma TransitionFenced(s: Sys, w: WorkerId)
    ensures var t := DoTransition(s, w);
            if t.hist.writes == s.hist.writes then !FencedChange(s.slice, t.slice)
            else t.slice.goal.state != s.slice.goal.state && HoldsLease(s, w)
                 && t.hist.writes == s.hist.writes + [FencedWrite(At(s, w).epoch, w)]
  {
  }

  lemma OthersUnfenced(c: Config, s: Sys, w: WorkerId, op: Op)
    requires !op.CommitIntent? && !op.AdvanceCursor? && !op.Transition?
    requires RowsAgree(c, s.slice.goal.cursor, s.slice.steps, s.slice.effects)
    ensures !FencedChange(s.slice, Work(c, s, w, op).slice)
  {
    hide KeyOf, ResultMessage;
  }

  lemma OthersUnlogged(c: Config, s: Sys, a: Action)
    requires a.Do? ==> !a.op.CommitIntent? && !a.op.AdvanceCursor? && !a.op.Transition?
    ensures LogStep(s, Apply(c, s, a))
  {
    hide KeyOf, ResultMessage, LogStep;
    if a.Do? {
      WorkUnlogged(c, s, a.w, a.op);
      hide Work;
    }
    SameLog(s, Apply(c, s, a));
  }

  lemma WorkUnlogged(c: Config, s: Sys, w: WorkerId, op: Op)
    requires !op.CommitIntent? && !op.AdvanceCursor? && !op.Transition?
    ensures Work(c, s, w, op).hist.writes == s.hist.writes
  {
    hide KeyOf, ResultMessage;
  }

  lemma SameLog(s: Sys, t: Sys)
    requires t.hist.writes == s.hist.writes
    ensures LogStep(s, t)
  {
  }

  lemma IntentLogged(c: Config, s: Sys, w: WorkerId)
    ensures LogStep(s, DoCommitIntent(c, s, w))
  {
    hide KeyOf;
  }

  lemma AdvanceLogged(s: Sys, w: WorkerId)
    ensures LogStep(s, DoAdvance(s, w))
  {
  }

  lemma TransitionLogged(s: Sys, w: WorkerId)
    ensures LogStep(s, DoTransition(s, w))
  {
  }

  /**
   Over any continuation: writes accepted from now on carry the current epoch only while its lease
   still stands, and a later epoch otherwise. After a pause, a cancel or a release there is no
   lease, so nothing under an epoch granted so far is ever accepted again.
  */
  lemma {:induction false} NoWriteUnderAnOldLease(c: Config, s: Sys, acts: seq<Action>, i: nat)
    requires Inv(c, s)
    requires |s.hist.writes| <= i < |Run(c, s, acts).hist.writes|
    ensures var x := Run(c, s, acts).hist.writes[i];
            x.epoch > s.slice.goal.epoch || (x.epoch == s.slice.goal.epoch && s.slice.goal.owner == Some(x.worker))
    decreases |acts|
  {
    hide Inv;
    if acts != [] {
      var t := Apply(c, s, acts[0]);
      ActionKeepsInv(c, s, acts[0]);
      WriteUnderLease(c, s, acts[0]);
      if i >= |t.hist.writes| {
        NoWriteUnderAnOldLease(c, t, acts[1..], i);
      } else {
        WritesKept(c, t, acts[1..]);
      }
    }
  }

  lemma {:induction false} WritesKept(c: Config, s: Sys, acts: seq<Action>)
    ensures s.hist.writes <= Run(c, s, acts).hist.writes
    decreases |acts|
  {
    if acts != [] {
      WriteUnderLease(c, s, acts[0]);
      WritesKept(c, Apply(c, s, acts[0]), acts[1..]);
    }
  }

  /**
   Once a goal is paused, cancelled, finished or released, no write under any lease granted so far is
   accepted again; and once it was claimed anew, none under any earlier lease.
  */
  lemma OldLeasesAreDead(c: Config, acts: seq<Action>, more: seq<Action>, i: nat)
    requires |Run(c, INIT, acts).hist.writes| <= i < |Run(c, INIT, acts + more).hist.writes|
    ensures var s, x := Run(c, INIT, acts), Run(c, INIT, acts + more).hist.writes[i];
            && (s.slice.goal.owner.None? ==> x.epoch > s.slice.goal.epoch)
            && x.epoch >= s.slice.goal.epoch
            && (x.epoch == s.slice.goal.epoch ==> s.slice.goal.owner == Some(x.worker))
  {
    hide Inv;
    InitInv(c);
    RunKeepsInv(c, INIT, acts);
    RunConcat(c, INIT, acts, more);
    NoWriteUnderAnOldLease(c, Run(c, INIT, acts), more, i);
  }

  /** Each epoch belongs to one claim, and accepted writes come in epoch order, each by its epoch's claimer. */
  lemma WritesInEpochOrder(c: Config, acts: seq<Action>)
    ensures var s := Run(c, INIT, acts);
            |s.hist.grants| == s.slice.goal.epoch && WritesOrdered(s.hist.writes, s.hist.grants)
  {
    InitInv(c);
    RunKeepsInv(c, INIT, acts);
    hide CallsBound, RowsAgree, ReturnsStored, ResultsDelivered, WritesOrdered, LocalOk;
  }

  // ---- nothing runs before approval ---------------------------------------------------------------

  lemma ApprovalIsVisible(c: Config, s: Sys, a: Action)
    requires !s.hist.approved && Apply(c, s, a).hist.approved
    ensures Apply(c, s, a).slice.goal.state == Approved
  {
    hide KeyOf, ResultMessage;
    match a
    case Do(w, op) => WorkNeverApproves(c, s, w, op);
    case _ =>
  }

  lemma WorkNeverApproves(c: Config, s: Sys, w: WorkerId, op: Op)
    ensures Work(c, s, w, op).hist.approved ==
      s.hist.approved || (op.Transition? && Work(c, s, w, op).slice.goal.state == Approved)
  {
    hide KeyOf, ResultMessage;
  }

  lemma {:induction false} ApprovedSometime(c: Config, s: Sys, acts: seq<Action>) returns (i: nat)
    requires !s.hist.approved && Run(c, s, acts).hist.approved
    ensures i <= |acts| && Run(c, s, acts[..i]).slice.goal.state == Approved
    decreases |acts|
  {
    var t := Apply(c, s, acts[0]);
    if t.hist.approved {
      ApprovalIsVisible(c, s, acts[0]);
      i := 1;
      assert acts[..1] == [acts[0]] && acts[..1][1..] == [];
      assert Run(c, t, []) == t;
    } else {
      var j := ApprovedSometime(c, t, acts[1..]);
      i := j + 1;
      assert acts[..i][1..] == acts[1..][..j];
    }
  }

  /** A lease, an effect row or a tool call exists only if the goal was approved at some earlier moment. */
  lemma NothingBeforeApproval(c: Config, acts: seq<Action>)
    ensures var s := Run(c, INIT, acts);
            s.slice.goal.owner.Some? || s.slice.effects != map[] || s.hist.calls != [] ==>
              exists i: nat :: i <= |acts| && Run(c, INIT, acts[..i]).slice.goal.state == Approved
  {
    var s := Run(c, INIT, acts);
    InitInv(c);
    RunKeepsInv(c, INIT, acts);
    if s.slice.goal.owner.Some? || s.slice.effects != map[] || s.hist.calls != [] {
      hide ReturnsStored, ResultsDelivered, WritesOrdered, LocalOk;
      if s.hist.calls != [] {
        assert IsCallOf(s.hist.calls[0], s.slice.effects);
      }
      var i := ApprovedSometime(c, INIT, acts);
    }
  }

  /** A leased goal is approved, executing or verifying; a paused one remembers a live state. */
  lemma LeasedIsRunnable(c: Config, acts: seq<Action>)
    ensures var g := Run(c, INIT, acts).slice.goal;
            && (g.owner.Some? ==> Runnable(g.state))
            && PauseOk(g)
  {
    InitInv(c);
    RunKeepsInv(c, INIT, acts);
    hide CallsBound, RowsAgree, ReturnsStored, ResultsDelivered, WritesOrdered, LocalOk;
  }

  // ---- pause and resume ---------------------------------------------------------------------------

  /** Resuming right after a pause restores everything but the lease. */
  lemma PauseThenResume(g: Goal)
    requires CanTransition(g.state, Paused) && g.pausedFrom.None?
    ensures CanTransition(Paused, g.state)
    ensures Moved(Moved(g, Paused), g.state) == g.(owner := None, expired := false)
  {
  }

  /** The last action of a run is applied to the state the others reach. */
  lemma Snoc(c: Config, s: Sys, acts: seq<Action>, a: Action)
    ensures Run(c, s, acts + [a]) == Apply(c, Run(c, s, acts), a)
    ensures Run(c, s, []) == s
  {
    hide Apply;
    RunConcat(c, s, acts, [a]);
    assert [a][1..] == [];
  }

  /** Extends a run by one action. */
  lemma Walk(c: Config, s0: Sys, acts: seq<Action>, s: Sys, a: Action) returns (acts': seq<Action>, s': Sys)
    requires s == Run(c, s0, acts)
    ensures acts' == acts + [a] && s' == Run(c, s0, acts') && s' == Apply(c, s, a)
  {
    hide Apply;
    Snoc(c, s0, acts, a);
    acts', s' := acts + [a], Apply(c, s, a);
  }

  function StateAfter(c: Config, acts: seq<Action>): State { Run(c, INIT, acts).slice.goal.state }

  /** The pause in force after `acts` began with the i-th action. */
  ghost predicate PauseBegan(c: Config, acts: seq<Action>, i: nat) {
    && i < |acts|
    && StateAfter(c, acts[..i]) != Paused
    && forall j :: i < j <= |acts| ==> StateAfter(c, acts[..j]) == Paused
  }

  lemma PauseStep(c: Config, s: Sys, a: Action)
    ensures var g, g' := s.slice.goal, Apply(c, s, a).slice.goal;
            g'.state == Paused ==> g'.pausedFrom == if g.state == Paused then g.pausedFrom else Some(g.state)
  {
    hide KeyOf, ResultMessage;
    if a.Do? {
      PauseWork(c, s, a.w, a.op);
    }
  }

  lemma PauseWork(c: Config, s: Sys, w: WorkerId, op: Op)
    ensures var g, g' := s.slice.goal, Work(c, s, w, op).slice.goal;
            g'.state == Paused ==> g'.pausedFrom == if g.state == Paused then g.pausedFrom else Some(g.state)
  {
    hide KeyOf, ResultMessage;
  }

  /** The state remembered is the one the goal was in when its pause began, and every pause began. */
  lemma {:induction false} PauseRemembers(c: Config, acts: seq<Action>) returns (i: nat)
    requires StateAfter(c, acts) == Paused
    ensures PauseBegan(c, acts, i) && Run(c, INIT, acts).slice.goal.pausedFrom == Some(StateAfter(c, acts[..i]))
    decreases |acts|
  {
    hide Run, Apply;
    Snoc(c, INIT, [], ResumeRead);
    var n := |acts| - 1;
    var init, a := acts[..n], acts[n];
    assert acts == init + [a];
    Snoc(c, INIT, init, a);
    PauseStep(c, Run(c, INIT, init), a);
    if StateAfter(c, init) == Paused {
      i := PauseRemembers(c, init);
      assert forall j :: i <= j <= n ==> acts[..j] == init[..j];
      assert acts[..n + 1] == acts;
    } else {
      i := n;
      assert acts[..n + 1] == acts;
    }
  }

  lemma PauseBeganOnce(c: Config, acts: seq<Action>, i: nat, j: nat)
    requires PauseBegan(c, acts, i) && PauseBegan(c, acts, j)
    ensures i == j
  {
    hide StateAfter;
  }

  lemma NoPause(c: Config, acts: seq<Action>)
    requires StateAfter(c, acts) != Paused
    ensures forall i: nat :: !PauseBegan(c, acts, i)
  {
    hide StateAfter;
    assert acts[..|acts|] == acts;
  }

  /** Writing `to` ends the pause in force in the state it was paused from. */
  ghost predicate Restores(c: Config, acts: seq<Action>, to: State) {
    exists i: nat :: PauseBegan(c, acts, i) && StateAfter(c, acts + [ResumeWrite(to)]) == StateAfter(c, acts[..i])
  }

  /**
   Resume reads and then writes in two transactions. Whatever happened in between, a pending write does
   what Resume promises exactly when the goal is paused from the very state that was read: the compare
   and set which the write does not make.
  */
  lemma ResumeRestoresIff(c: Config, acts: seq<Action>, to: State)
    requires to in Run(c, INIT, acts).resumes
    ensures Restores(c, acts, to) <==> Run(c, INIT, acts).slice.goal.pausedFrom == Some(to)
    ensures StateAfter(c, acts + [ResumeWrite(to)]) ==
            if CanTransition(StateAfter(c, acts), to) then to else StateAfter(c, acts)
  {
    var s := Run(c, INIT, acts);
    InitInv(c);
    RunKeepsInv(c, INIT, acts);
    Snoc(c, INIT, acts, ResumeWrite(to));
    assert PauseOk(s.slice.goal) && ResumesOk(s.resumes);
    hide Run, Inv;
    if s.slice.goal.state == Paused {
      var i := PauseRemembers(c, acts);
      if Restores(c, acts, to) {
        var j: nat :| PauseBegan(c, acts, j) && StateAfter(c, acts + [ResumeWrite(to)]) == StateAfter(c, acts[..j]);
        PauseBeganOnce(c, acts, i, j);
      }
    } else {
      NoPause(c, acts);
    }
  }

  /** The goal is paused at every point of a continuation. */
  ghost predicate StaysPaused(c: Config, s: Sys, more: seq<Action>)
    decreases |more|
  {
    s.slice.goal.state == Paused && (more == [] || StaysPaused(c, Apply(c, s, more[0]), more[1..]))
  }

  lemma {:induction false} PausedKeeps(c: Config, s: Sys, more: seq<Action>)
    requires StaysPaused(c, s, more)
    ensures Run(c, s, more).slice.goal.pausedFrom == s.slice.goal.pausedFrom
    ensures s.resumes <= Run(c, s, more).resumes
    decreases |more|
  {
    if more != [] {
      PauseStep(c, s, more[0]);
      ResumesKept(c, s, more[0]);
      hide Apply;
      PausedKeeps(c, Apply(c, s, more[0]), more[1..]);
    }
  }

  lemma ResumesKept(c: Config, s: Sys, a: Action)
    ensures s.resumes <= Apply(c, s, a).resumes
  {
    hide KeyOf, ResultMessage;
    if a.Do? {
      WorkKeepsResumes(c, s, a.w, a.op);
    }
  }

  lemma WorkKeepsResumes(c: Config, s: Sys, w: WorkerId, op: Op)
    ensures Work(c, s, w, op).resumes == s.resumes
  {
    hide KeyOf, ResultMessage;
  }

  /** As long as the goal stays paused between the read and the write, Resume keeps its promise. */
  lemma UndisturbedResume(c: Config, acts: seq<Action>, more: seq<Action>) returns (to: State)
    requires StaysPaused(c, Run(c, INIT, acts + [ResumeRead]), more)
    ensures Run(c, INIT, acts).slice.goal.pausedFrom == Some(to)
    ensures Restores(c, acts + [ResumeRead] + more, to)
  {
    var s := Run(c, INIT, acts);
    var t := Apply(c, s, ResumeRead);
    Snoc(c, INIT, acts, ResumeRead);
    InitInv(c);
    RunKeepsInv(c, INIT, acts);
    assert PauseOk(s.slice.goal);
    RunConcat(c, INIT, acts + [ResumeRead], more);
    PausedKeeps(c, t, more);
    hide Run, Inv, Restores;
    to := s.slice.goal.pausedFrom.value;
    ResumeRestoresIff(c, acts + [ResumeRead] + more, to);
  }

  /** A goal is paused, two resumes read it, and the first of them writes. */
  lemma ResumedOnce(c: Config) returns (acts: seq<Action>, s: Sys)
    ensures s == Run(c, INIT, acts) && s.slice.goal == NEW_GOAL && s.resumes == {Proposed}
  {
    acts, s := [], INIT;
    acts, s := Walk(c, INIT, acts, s, Signal(Paused));
    acts, s := Walk(c, INIT, acts, s, ResumeRead);
    acts, s := Walk(c, INIT, acts, s, ResumeWrite(Proposed));
  }

  /** A write delayed past another resume and a new pause: a goal paused from approved becomes proposed. */
  lemma StaleResumeGoesBack(c: Config) returns (acts: seq<Action>)
    ensures StateAfter(c, acts) == Paused && Run(c, INIT, acts).slice.goal.pausedFrom == Some(Approved)
    ensures StateAfter(c, acts + [ResumeWrite(Proposed)]) == Proposed
  {
    var s, t, all;
    acts, s := ResumedOnce(c);
    acts, s := Walk(c, INIT, acts, s, Signal(Approved));
    acts, s := Walk(c, INIT, acts, s, Signal(Paused));
    all, t := Walk(c, INIT, acts, s, ResumeWrite(Proposed));
  }

  /** How often the goal was paused by an operator. */
  function Pauses(acts: seq<Action>): nat { multiset(acts)[Signal(Paused)] }

  /** A worker claims an approved goal. */
  lemma Claims(c: Config) returns (acts: seq<Action>, s: Sys)
    ensures s == Run(c, INIT, acts) && Pauses(acts) == 0
    ensures s.slice == Slice(Goal(Approved, None, 0, Some(1), 1, false), map[], map[], [])
    ensures s.resumes == {} && At(s, 1) == Local(1, 0, Head) && At(s, 2).pc == Idle
  {
    acts, s := [], INIT;
    acts, s := Walk(c, INIT, acts, s, Signal(Approved));
    acts, s := Walk(c, INIT, acts, s, Do(1, Claim));
  }

  /** It takes the goal to executing. */
  lemma Executes(c: Config) returns (acts: seq<Action>, s: Sys)
    requires c.maxSteps > 0
    ensures s == Run(c, INIT, acts) && Pauses(acts) == 0
    ensures s.slice == Slice(Goal(Executing, None, 0, Some(1), 1, false), map[], map[], [])
    ensures s.resumes == {} && At(s, 2).pc == Idle
  {
    hide Run;
    acts, s := Claims(c);
    acts, s := Walk(c, INIT, acts, s, Do(1, Load(true)));
    acts, s := Walk(c, INIT, acts, s, Do(1, Transition));
  }

  /** One pause, from executing; two resumes read it and one of them has written. */
  lemma ResumedExecuting(c: Config) returns (acts: seq<Action>, s: Sys)
    requires c.maxSteps > 0
    ensures s == Run(c, INIT, acts) && Pauses(acts) == 1
    ensures s.slice == Slice(Goal(Executing, None, 0, None, 1, false), map[], map[], [])
    ensures s.resumes == {Executing} && At(s, 2).pc == Idle
  {
    hide Run;
    acts, s := Executes(c);
    acts, s := Walk(c, INIT, acts, s, Signal(Paused));
    acts, s := Walk(c, INIT, acts, s, ResumeRead);
    acts, s := Walk(c, INIT, acts, s, ResumeWrite(Executing));
  }

  /** A new worker looks for the next step. */
  lemma SecondLooks(c: Config) returns (acts: seq<Action>, s: Sys)
    requires c.maxSteps > 0
    ensures s == Run(c, INIT, acts) && Pauses(acts) == 1 && s.resumes == {Executing}
    ensures s.slice == Slice(Goal(Executing, None, 0, Some(2), 2, false), map[], map[], [])
    ensures At(s, 2) == Local(2, 0, Look(0))
  {
    hide Run;
    acts, s := ResumedExecuting(c);
    acts, s := Walk(c, INIT, acts, s, Do(2, Claim));
    acts, s := Walk(c, INIT, acts, s, Do(2, Load(true)));
  }

  /** It asks the agent. */
  lemma SecondAsks(c: Config) returns (acts: seq<Action>, s: Sys, ctx: Context)
    requires c.maxSteps > 0
    ensures s == Run(c, INIT, acts) && Pauses(acts) == 1 && s.resumes == {Executing}
    ensures s.slice == Slice(Goal(Executing, None, 0, Some(2), 2, false), map[], map[], [])
    ensures At(s, 2) == Local(2, 0, Ask(ctx))
  {
    hide Run;
    acts, s := SecondLooks(c);
    acts, s := Walk(c, INIT, acts, s, Do(2, LookUp));
    acts, s := Walk(c, INIT, acts, s, Do(2, ReadHistory));
    acts, s := Walk(c, INIT, acts, s, Do(2, ReadMail));
    ctx := At(s, 2).pc.ctx;
  }

  /** It is told that the work is finished. */
  lemma SecondVerifies(c: Config) returns (acts: seq<Action>, s: Sys)
    requires c.maxSteps > 0
    ensures s == Run(c, INIT, acts) && Pauses(acts) == 1 && s.resumes == {Executing}
    ensures s.slice.goal == Goal(Verifying, None, 0, Some(2), 2, false)
  {
    hide Run;
    var ctx;
    acts, s, ctx := SecondAsks(c);
    acts, s := Walk(c, INIT, acts, s, Do(2, Decide(Finish)));
    acts, s := Walk(c, INIT, acts, s, Do(2, Transition));
  }

  /**
   A single pause is enough: a write delayed past another resume moves a goal that is not paused at all,
   but verifying under a new worker's lease, back to executing.
  */
  lemma LateResumeRewinds(c: Config) returns (acts: seq<Action>)
    requires c.maxSteps > 0
    ensures Pauses(acts) == 1
    ensures Run(c, INIT, acts).slice.goal == Goal(Verifying, None, 0, Some(2), 2, false)
    ensures Run(c, INIT, acts + [ResumeWrite(Executing)]).slice.goal == Goal(Executing, None, 0, Some(2), 2, false)
  {
    hide Run;
    var s, t, all;
    acts, s := SecondVerifies(c);
    all, t := Walk(c, INIT, acts, s, ResumeWrite(Executing));
  }
}
