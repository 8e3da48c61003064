/**
 How long a lease lasts: from the claim that granted it, or its holder's last heartbeat, until the
 clock runs it out, the holder gives it up, or the goal is paused or ends.
*/
module Leases {
  import opened Fsm
  import opened Goals
  import opened Guarantees
  import opened Invariants
  import opened Key
  import opened Protocol
  import opened Safety
  import opened Wrappers

  /** Worker `w` holds the lease of this epoch, and its time is not up. */
  predicate Live(g: Goal, w: WorkerId, epoch: nat) {
    g.owner == Some(w) && g.epoch == epoch && !g.expired
  }

  /** The holder gives its lease up. */
  predicate GivesUp(s: Sys, a: Action) {
    a.Do? && a.op.Release? && At(s, a.w).pc == Leave && HoldsLease(s, a.w)
  }

  /** An idle worker that claims gets a new lease exactly when the goal can run and no lease on it is running. */
  lemma ClaimTakes(c: Config, s: Sys, w: WorkerId)
    requires At(s, w).pc == Idle
    ensures var g, t := s.slice.goal, Apply(c, s, Do(w, Op.Claim));
            if Runnable(g.state) && !(exists v: WorkerId :: Live(g, v, g.epoch)) then
              && Live(t.slice.goal, w, g.epoch + 1)
              && t.slice == s.slice.(goal := t.slice.goal)
              && t.slice.goal.state == g.state && t.slice.goal.cursor == g.cursor
              && t.slice.goal.pausedFrom == g.pausedFrom
              && t.hist == s.hist.(grants := s.hist.grants + [w])
              && At(t, w) == Local(g.epoch + 1, 0, Head)
            else t == s
  {
    if s.slice.goal.owner.Some? {
      var v := s.slice.goal.owner.value;
      assert Live(s.slice.goal, v, s.slice.goal.epoch) <==> !s.slice.goal.expired;
    }
  }

  /** A heartbeat makes its sender's lease live again, and nothing else; it does nothing for anybody else. */
  lemma HeartbeatRenews(c: Config, s: Sys, w: WorkerId)
    requires At(s, w).pc != Idle
    ensures var g, t := s.slice.goal, Apply(c, s, Do(w, Heartbeat));
            if HoldsLease(s, w) then
              && Live(t.slice.goal, w, g.epoch)
              && t == s.(slice := s.slice.(goal := t.slice.goal))
              && t.slice.goal.state == g.state && t.slice.goal.cursor == g.cursor
              && t.slice.goal.pausedFrom == g.pausedFrom
            else t.slice == s.slice && t.hist == s.hist && t.workers == s.workers
  {
  }

  /** What one action does to a live lease. */
  predicate LeaseStep(s: Sys, a: Action, t: Sys, w: WorkerId, epoch: nat) {
    if a.Expire? || GivesUp(s, a) then
      Claimable(t.slice.goal) && t.slice.goal.epoch == epoch && t.hist.grants == s.hist.grants
    else if !Runnable(t.slice.goal.state) then t.slice.goal.owner.None? && t.hist.grants == s.hist.grants
    else Live(t.slice.goal, w, epoch) && t.hist.grants == s.hist.grants
  }

  /** A live lease is lost by time, by its holder's release, or by a pause or an end, and no other way. */
  lemma LeaseLost(c: Config, s: Sys, a: Action, w: WorkerId, epoch: nat)
    requires Inv(c, s) && Live(s.slice.goal, w, epoch)
    ensures LeaseStep(s, a, Apply(c, s, a), w, epoch)
    ensures !Claimable(s.slice.goal)
  {
    hide KeyOf, ResultMessage, RowsAgree, CallsBound, ReturnsStored, ResultsDelivered, WritesOrdered, LocalOk;
    assert LeaseOk(s.slice.goal, s.hist.grants);
    if a.Do? {
      LeaseWork(c, s, a.w, a.op, w, epoch);
    }
  }

  lemma LeaseWork(c: Config, s: Sys, v: WorkerId, op: Op, w: WorkerId, epoch: nat)
    requires Runnable(s.slice.goal.state) && Live(s.slice.goal, w, epoch)
    ensures LeaseStep(s, Do(v, op), Work(c, s, v, op), w, epoch)
  {
    hide DoTransition, DoAdvance, DoLoad, DoCommitIntent, DoRecord, DoFlag, DoCall, DoMark, KeyOf, ResultMessage;
    match op
    case Transition => LeaseMoved(s, v, w, epoch);
    case AdvanceCursor => LeaseAdvanced(s, v, w, epoch);
    case Claim =>
    case Heartbeat =>
    case Release =>
    case _ =>
      LeaseUntouched(c, s, v, op);
      hide Work;
  }

  lemma LeaseMoved(s: Sys, v: WorkerId, w: WorkerId, epoch: nat)
    requires Runnable(s.slice.goal.state) && Live(s.slice.goal, w, epoch)
    ensures LeaseStep(s, Do(v, Op.Transition), DoTransition(s, v), w, epoch)
  {
  }

  lemma LeaseAdvanced(s: Sys, v: WorkerId, w: WorkerId, epoch: nat)
    requires Runnable(s.slice.goal.state) && Live(s.slice.goal, w, epoch)
    ensures LeaseStep(s, Do(v, AdvanceCursor), DoAdvance(s, v), w, epoch)
  {
  }

  lemma LeaseUntouched(c: Config, s: Sys, v: WorkerId, op: Op)
    requires !op.Claim? && !op.Heartbeat? && !op.Transition? && !op.Release? && !op.AdvanceCursor?
    ensures SameLease(s, Work(c, s, v, op))
  {
    hide DoLoad, DoDecide, DoCommitIntent, DoRecord, DoCall, KeyOf, ResultMessage;
    match op
    case CommitIntent => IntentKeepsLease(c, s, v);
    case RecordResult => RecordKeepsLease(s, v);
    case Load(known) => LoadKeepsLease(c, s, v, known);
    case Decide(d) => DecideKeepsLease(s, v, d);
    case CallTool(o, wrote) => CallKeepsLease(s, v, o, wrote);
    case _ =>
  }

  predicate SameLease(s: Sys, t: Sys) { t.slice.goal == s.slice.goal && t.hist.grants == s.hist.grants }

  lemma IntentKeepsLease(c: Config, s: Sys, v: WorkerId)
    ensures SameLease(s, DoCommitIntent(c, s, v))
  {
    hide KeyOf;
  }

  lemma RecordKeepsLease(s: Sys, v: WorkerId)
    ensures SameLease(s, DoRecord(s, v))
  {
    hide ResultMessage;
  }

  lemma LoadKeepsLease(c: Config, s: Sys, v: WorkerId, known: bool)
    ensures SameLease(s, DoLoad(c, s, v, known))
  {
  }

  lemma DecideKeepsLease(s: Sys, v: WorkerId, d: Decision)
    ensures SameLease(s, DoDecide(s, v, d))
  {
  }

  lemma CallKeepsLease(s: Sys, v: WorkerId, o: Outcome, wrote: bool)
    ensures SameLease(s, DoCall(s, v, o, wrote))
  {
  }

  /** Nothing in `more` ends a lease: no expiry, no release by the holder, no pause and no end. */
  ghost predicate Undisturbed(c: Config, s: Sys, more: seq<Action>)
    decreases |more|
  {
    more != [] ==>
      var t := Apply(c, s, more[0]);
      !more[0].Expire? && !GivesUp(s, more[0]) && Runnable(t.slice.goal.state) && Undisturbed(c, t, more[1..])
  }

  /** However long, whoever acts: a lease that nothing ends stays its holder's, and no claim is granted. */
  lemma {:induction false} LeaseHolds(c: Config, s: Sys, w: WorkerId, epoch: nat, more: seq<Action>)
    requires Inv(c, s) && Live(s.slice.goal, w, epoch) && Undisturbed(c, s, more)
    ensures var t := Run(c, s, more);
            Live(t.slice.goal, w, epoch) && !Claimable(t.slice.goal) && t.hist.grants == s.hist.grants
    decreases |more|
  {
    hide Inv;
    if more != [] {
      var t := Apply(c, s, more[0]);
      LeaseLost(c, s, more[0], w, epoch);
      ActionKeepsInv(c, s, more[0]);
      hide Apply;
      LeaseHolds(c, t, w, epoch, more[1..]);
    }
  }

  /**
   After a holder's heartbeat, at any time in any run, its goal cannot be claimed until the lease
   expires, is given up, or the goal is paused or ends.
  */
  lemma HeartbeatExtends(c: Config, acts: seq<Action>, w: WorkerId, more: seq<Action>)
    requires var s := Run(c, INIT, acts); At(s, w).pc != Idle && HoldsLease(s, w)
    requires Undisturbed(c, Run(c, INIT, acts + [Do(w, Heartbeat)]), more)
    ensures var s, t := Run(c, INIT, acts), Run(c, INIT, acts + [Do(w, Heartbeat)] + more);
            && Live(t.slice.goal, w, s.slice.goal.epoch) && !Claimable(t.slice.goal)
            && t.hist.grants == s.hist.grants
  {
    hide Run, Apply, Inv;
    var s := Run(c, INIT, acts);
    Snoc(c, INIT, acts, Do(w, Heartbeat));
    HeartbeatRenews(c, s, w);
    InitInv(c);
    RunKeepsInv(c, INIT, acts + [Do(w, Heartbeat)]);
    RunConcat(c, INIT, acts + [Do(w, Heartbeat)], more);
    LeaseHolds(c, Run(c, INIT, acts + [Do(w, Heartbeat)]), w, s.slice.goal.epoch, more);
  }

  /** The same after the claim itself. */
  lemma ClaimLasts(c: Config, acts: seq<Action>, w: WorkerId, more: seq<Action>)
    requires var s := Run(c, INIT, acts); At(s, w).pc == Idle && Claimable(s.slice.goal)
    requires Undisturbed(c, Run(c, INIT, acts + [Do(w, Op.Claim)]), more)
    ensures var s, t := Run(c, INIT, acts), Run(c, INIT, acts + [Do(w, Op.Claim)] + more);
            && Live(t.slice.goal, w, s.slice.goal.epoch + 1) && !Claimable(t.slice.goal)
            && t.hist.grants == s.hist.grants + [w]
  {
    hide Run, Apply, Inv;
    var s := Run(c, INIT, acts);
    Snoc(c, INIT, acts, Do(w, Op.Claim));
    ClaimTakes(c, s, w);
    InitInv(c);
    RunKeepsInv(c, INIT, acts + [Do(w, Op.Claim)]);
    RunConcat(c, INIT, acts + [Do(w, Op.Claim)], more);
    LeaseHolds(c, Run(c, INIT, acts + [Do(w, Op.Claim)]), w, s.slice.goal.epoch + 1, more);
  }
}
