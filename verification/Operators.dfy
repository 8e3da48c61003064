/** What operators ask for is done, and a goal whose agent is unknown is ended. */
module Operators {
  import opened Fsm
  import opened Goals
  import opened Json
  import opened Protocol
  import opened Wrappers

  /** From where an operator may approve, pause and cancel. */
  predicate MaySignal(from: State, to: State) {
    match to
    case Approved => from == Proposed || from == Paused
    case Paused => from == Proposed || from == Approved || from == Executing || from == Verifying
    case Cancelled => from != Done && from != State.Failed && from != Cancelled
    case _ => false
  }

  /**
   A signal is obeyed exactly where it is allowed. A pause remembers the state it left, pausing and
   cancelling take the lease away, and no row but the goal's own changes.
  */
  lemma SignalObeyed(c: Config, s: Sys, to: State)
    ensures var g, t := s.slice.goal, Apply(c, s, Signal(to));
            if MaySignal(g.state, to) then
              && t.slice.goal == Goal(to, if to == Paused then Some(g.state) else None, g.cursor,
                                      if to == Approved then g.owner else None, g.epoch, to == Approved && g.expired)
              && t == s.(slice := s.slice.(goal := t.slice.goal), hist := s.hist.(approved := t.hist.approved))
              && (t.hist.approved <==> s.hist.approved || to == Approved)
            else t == s
  {
    LegalByTarget(s.slice.goal.state, to);
  }

  /** The row an operator's decision leaves: settled with the result given, or an intent never attempted. */
  predicate Follows(was: Effect, how: Resolution, r: Option<Json>, now: Effect) {
    && SameCall(was, now) && now.result == r
    && match how
       case Retry => now.status == Intent && now.error == "" && now.attempts == 0
       case AsCommitted => now.status == Committed && now.error == "" && now.attempts == was.attempts
       case AsFailed =>
         now.status == Status.Failed && now.error == "operator marked failed" && now.attempts == was.attempts
  }

  /** A decision is followed exactly on a row under review, and touches no other row and no message. */
  lemma ResolutionObeyed(c: Config, s: Sys, k: nat, how: Resolution, r: Option<Json>)
    requires k in s.slice.effects ==> s.slice.effects[k].step == k
    ensures var t := Apply(c, s, Resolve(k, how, r));
            if k in s.slice.effects && s.slice.effects[k].status == NeedsReview then
              && k in t.slice.effects && Follows(s.slice.effects[k], how, r, t.slice.effects[k])
              && t.slice == s.slice.(effects := s.slice.effects[k := t.slice.effects[k]])
              && t.workers == s.workers && t.world == s.world && t.resumes == s.resumes
            else t == s
  {
  }

  /** A worker that finds its goal's agent unknown ends the goal: failed where that is legal, else cancelled. */
  lemma UnknownAgentEnds(c: Config, s: Sys, w: WorkerId)
    requires At(s, w).pc == Head && At(s, w).iter < c.maxSteps && HoldsLease(s, w) && Runnable(s.slice.goal.state)
    ensures var t := Apply(c, Apply(c, s, Do(w, Load(false))), Do(w, Op.Transition));
            && t.slice.goal.state ==
               (if CanTransition(s.slice.goal.state, State.Failed) then State.Failed else Cancelled)
            && t.slice.goal.owner.None? && t.slice.goal.cursor == s.slice.goal.cursor
            && t.slice.effects == s.slice.effects && At(t, w).pc == Leave
  {
    var from := s.slice.goal.state;
    LegalByTarget(from, State.Failed);
    LegalByTarget(from, Cancelled);
    var u := Apply(c, s, Do(w, Load(false)));
    assert At(u, w).pc == Fence(FailFrom(from), false) && u.slice == s.slice;
    assert CanTransition(from, FailFrom(from));
  }
}
