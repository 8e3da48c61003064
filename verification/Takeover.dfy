/**
 What a second worker can do while the first one has not finished: the converses of CallCounts. From any
 state in which a claim falls where CallCounts forbids it, the goal can go on to exceed the bound on
 calls, to call a tool under review, or to make a call that nobody approved.
*/
module Takeover {
  import opened CallCounts
  import opened CrashStop
  import opened Fsm
  import opened Goals
  import opened Guarantees
  import opened Invariants
  import opened Json
  import opened Key
  import opened Protocol
  import opened Safety
  import opened Wrappers

  /** An executing goal, up for a claim, with an open intent at its cursor; `w` is not inside RunOnce. */
  predicate Open(c: Config, s: Sys, w: WorkerId, k: nat) {
    && s.slice.goal.state == Executing && Claimable(s.slice.goal) && s.slice.goal.cursor == k
    && At(s, w).pc == Idle
    && IntentAt(c, s, k)
  }

  predicate IntentAt(c: Config, s: Sys, k: nat) {
    && RowAt(s, k).Some?
    && var e := RowAt(s, k).value;
       e.status == Intent && e.step == k && e.key == KeyOf(e.tool, e.args, c.goal, k)
  }

  lemma OpenRow(c: Config, s: Sys, w: WorkerId, k: nat)
    requires Inv(c, s) && s.slice.goal.state == Executing && Claimable(s.slice.goal) && At(s, w).pc == Idle
    requires RowAt(s, k).Some? && RowAt(s, k).value.status == Intent
    ensures Open(c, s, w, k)
  {
    hide KeyOf, CallsBound, ReturnsStored, ResultsDelivered, WritesOrdered, LocalOk;
    assert Bound(c, k, s.slice.effects[k]);
    assert k < s.slice.goal.cursor ==> k in s.slice.steps;
  }

  /** Nobody but `w` moved, and no tool was called nor review resolved. */
  ghost predicate Alongside(s: Sys, t: Sys, w: WorkerId) {
    && (forall v: WorkerId :: v != w ==> At(t, v) == At(s, v))
    && t.hist.calls == s.hist.calls && t.hist.retries == s.hist.retries
    && t.slice.goal.state == s.slice.goal.state && t.slice.goal.cursor == s.slice.goal.cursor
  }

  /** The worker claims the goal and looks at its cursor. */
  lemma Looks(c: Config, s0: Sys, acts: seq<Action>, s: Sys, w: WorkerId, k: nat)
    returns (acts': seq<Action>, t: Sys)
    requires s == Run(c, s0, acts) && Open(c, s, w, k) && c.maxSteps > 0
    ensures acts + [Do(w, Claim)] <= acts' && t == Run(c, s0, acts') && Alongside(s, t, w)
    ensures t.slice.effects == s.slice.effects && At(t, w).pc == Look(k) && HoldsLease(t, w)
  {
    hide Run, KeyOf;
    acts', t := Walk(c, s0, acts, s, Do(w, Claim));
    acts', t := Walk(c, s0, acts', t, Do(w, Load(true)));
  }

  /** It takes up the row found there. */
  lemma TakesUp(c: Config, s0: Sys, acts: seq<Action>, s: Sys, w: WorkerId, k: nat)
    returns (acts': seq<Action>, t: Sys)
    requires s == Run(c, s0, acts) && Open(c, s, w, k) && c.maxSteps > 0
    ensures acts + [Do(w, Claim)] <= acts' && t == Run(c, s0, acts') && Alongside(s, t, w)
    ensures t.slice.effects == s.slice.effects && At(t, w).pc == Settle(c, RowAt(s, k).value) && HoldsLease(t, w)
  {
    hide Run, KeyOf;
    acts', t := Looks(c, s0, acts, s, w, k);
    acts', t := Walk(c, s0, acts', t, Do(w, LookUp));
    hide Claimable;
    acts', t := Settles(c, s0, acts', t, w, k);
  }

  lemma Settles(c: Config, s0: Sys, acts: seq<Action>, s: Sys, w: WorkerId, k: nat)
    returns (acts': seq<Action>, t: Sys)
    requires s == Run(c, s0, acts) && IntentAt(c, s, k) && HoldsLease(s, w)
    requires var e := RowAt(s, k).value; At(s, w).pc == Intend(k, e.tool, e.args)
    ensures acts <= acts' && t == Run(c, s0, acts') && Alongside(s, t, w)
    ensures t.slice.effects == s.slice.effects && At(t, w).pc == Settle(c, RowAt(s, k).value) && HoldsLease(t, w)
  {
    hide Run, KeyOf;
    acts', t := Walk(c, s0, acts, s, Do(w, CommitIntent));
  }

  /** Only the number of attempts may differ. */
  predicate SameButAttempts(e: Effect, f: Effect) { f == e.(attempts := f.attempts) && f.attempts >= e.attempts }

  /** A worker that may go on to the call does, whatever the row says by now. */
  lemma MakesCall(c: Config, s0: Sys, acts: seq<Action>, s: Sys, u: WorkerId, k: nat)
    returns (acts': seq<Action>, t: Sys)
    requires s == Run(c, s0, acts) && TagAt(s, u, k) !in {Off, ToFlag}
    requires RowAt(s, k).Some? && RowAt(s, k).value.step == k
    ensures acts <= acts' && t == Run(c, s0, acts')
    ensures forall v: WorkerId :: v != u ==> At(t, v) == At(s, v)
    ensures t.hist.retries == s.hist.retries
    ensures RowAt(t, k).Some? && SameButAttempts(RowAt(s, k).value, RowAt(t, k).value)
    ensures |t.hist.calls| == |s.hist.calls| + 1 && s.hist.calls <= t.hist.calls
    ensures t.hist.calls[|s.hist.calls|].step == k && t.hist.calls[|s.hist.calls|].status == RowAt(s, k).value.status
  {
    hide Run;
    acts', t := ReachesCall(c, s0, acts, s, u, k);
    acts', t := Walk(c, s0, acts', t, Do(u, CallTool(Ok(None), true)));
  }

  lemma ReachesCall(c: Config, s0: Sys, acts: seq<Action>, s: Sys, u: WorkerId, k: nat)
    returns (acts': seq<Action>, t: Sys)
    requires s == Run(c, s0, acts) && TagAt(s, u, k) !in {Off, ToFlag}
    requires RowAt(s, k).Some? && RowAt(s, k).value.step == k
    ensures acts <= acts' && t == Run(c, s0, acts') && Alongside(s, t, u)
    ensures RowAt(t, k).Some? && SameButAttempts(RowAt(s, k).value, RowAt(t, k).value)
    ensures TagAt(t, u, k) == ToCall
    ensures TagAt(s, u, k) != ToCall && RowAt(s, k).value.status == Intent ==> RowAt(t, k).value.attempts > 0
    ensures t.slice.goal == s.slice.goal
  {
    acts', t := ReachesMark(c, s0, acts, s, u, k);
    hide Run;
    if TagAt(t, u, k) == ToMark {
      acts', t := Walk(c, s0, acts', t, Do(u, MarkAttempt));
    }
  }

  lemma ReachesMark(c: Config, s0: Sys, acts: seq<Action>, s: Sys, u: WorkerId, k: nat)
    returns (acts': seq<Action>, t: Sys)
    requires s == Run(c, s0, acts) && TagAt(s, u, k) !in {Off, ToFlag}
    ensures acts <= acts' && t == Run(c, s0, acts') && Alongside(s, t, u) && t.slice == s.slice
    ensures TagAt(t, u, k) == if TagAt(s, u, k) == ToCall then ToCall else ToMark
  {
    hide Run;
    acts', t := acts, s;
    if TagAt(t, u, k) == ToProbe {
      acts', t := Walk(c, s0, acts', t, Do(u, AskProbe(Missing)));
    }
    if TagAt(t, u, k) == ToAuthorize {
      acts', t := Walk(c, s0, acts', t, Do(u, Authorise(true)));
    }
  }

  // ---- twice without a retry --------------------------------------------------------------------------

  /**
   Whenever a claim is granted while a worker stands between authorisation and attempt mark of an intent
   never attempted, and the step has had all the calls it was allowed, the tool can be called twice more
   without another retry.
  */
  lemma OverlapRunsTwice(c: Config, s: Sys, v: WorkerId, w: WorkerId, k: nat) returns (acts: seq<Action>)
    requires Inv(c, s) && c.maxSteps > 0 && v != w
    requires s.slice.goal.state == Executing && Granted(s, Do(w, Claim))
    requires TagAt(s, v, k) in MARKING && RowAt(s, k).Some? && Fresh(s, k)
    requires Calls(s.hist.calls, k) == Retries(s, k)
    ensures [Do(w, Claim)] <= acts
    ensures var t := Run(c, s, acts);
            Retries(t, k) == Retries(s, k) && Calls(t.hist.calls, k) == Retries(t, k) + 2
  {
    var t, u;
    hide Run, Inv, KeyOf;
    OpenRow(c, s, w, k);
    Snoc(c, s, [], Expire);
    acts, t := TakesUp(c, s, [], s, w, k);
    acts, u := MakesCall(c, s, acts, t, w, k);
    OneMore(t, u, k);
    acts, t := MakesCall(c, s, acts, u, v, k);
    OneMore(u, t, k);
  }

  lemma OneMore(s: Sys, t: Sys, k: nat)
    requires |t.hist.calls| == |s.hist.calls| + 1 && s.hist.calls <= t.hist.calls
      && t.hist.calls[|s.hist.calls|].step == k
    ensures Calls(t.hist.calls, k) == Calls(s.hist.calls, k) + 1
  {
    assert t.hist.calls == s.hist.calls + [t.hist.calls[|s.hist.calls|]];
    CallsSnoc(s.hist.calls, t.hist.calls[|s.hist.calls|], k);
  }

  // ---- a call that nobody approved ---------------------------------------------------------------------

  /**
   Whenever a claim is granted on an intent that was recorded but neither flagged nor attempted, the call
   can be made with no resolution by an operator.
  */
  lemma ClaimBeforeFlagRuns(c: Config, s: Sys, w: WorkerId, k: nat) returns (acts: seq<Action>)
    requires Inv(c, s) && c.maxSteps > 0
    requires s.slice.goal.state == Executing && Granted(s, Do(w, Claim)) && RowAt(s, k).Some? && Fresh(s, k)
    ensures [Do(w, Claim)] <= acts
    ensures var t := Run(c, s, acts);
            Retries(t, k) == Retries(s, k) && Calls(t.hist.calls, k) == Calls(s.hist.calls, k) + 1
  {
    var t, u;
    hide Run, Inv, KeyOf;
    OpenRow(c, s, w, k);
    Snoc(c, s, [], Expire);
    acts, t := TakesUp(c, s, [], s, w, k);
    acts, u := MakesCall(c, s, acts, t, w, k);
    OneMore(t, u, k);
  }

  // ---- a call under review -----------------------------------------------------------------------------

  /** The worker dies and its lease runs out. */
  lemma Drops(c: Config, s0: Sys, acts: seq<Action>, s: Sys, w: WorkerId) returns (acts': seq<Action>, t: Sys)
    requires s == Run(c, s0, acts) && At(s, w).pc != Idle && s.slice.goal.owner.Some? && s.slice.goal.state == Executing
    ensures acts <= acts' && t == Run(c, s0, acts') && Alongside(s, t, w)
    ensures t.slice.effects == s.slice.effects && At(t, w).pc == Idle && Claimable(t.slice.goal)
  {
    hide Run;
    acts', t := Walk(c, s0, acts, s, Do(w, Crash));
    acts', t := Walk(c, s0, acts', t, Expire);
  }

  /** An attempt is marked but not made. */
  lemma GetsAttempted(c: Config, s0: Sys, acts: seq<Action>, s: Sys, w: WorkerId, k: nat)
    returns (acts': seq<Action>, t: Sys)
    requires s == Run(c, s0, acts) && Open(c, s, w, k) && c.maxSteps > 0
    ensures acts == acts' || acts + [Do(w, Claim)] <= acts'
    ensures t == Run(c, s0, acts') && Alongside(s, t, w) && Open(c, t, w, k) && RowAt(t, k).value.attempts > 0
    ensures SameButAttempts(RowAt(s, k).value, RowAt(t, k).value)
  {
    acts', t := acts, s;
    hide Run, KeyOf;
    if RowAt(s, k).value.attempts == 0 {
      acts', t := TakesUp(c, s0, acts', t, w, k);
      acts', t := ReachesCall(c, s0, acts', t, w, k);
      acts', t := Drops(c, s0, acts', t, w);
    }
  }

  /** A probe that breaks, or its lack, sends the worker to the flag. */
  lemma ReachesFlag(c: Config, s0: Sys, acts: seq<Action>, s: Sys, w: WorkerId, k: nat)
    returns (acts': seq<Action>, t: Sys)
    requires s == Run(c, s0, acts) && Open(c, s, w, k) && c.maxSteps > 0 && RowAt(s, k).value.attempts > 0
    ensures acts + [Do(w, Claim)] <= acts' && t == Run(c, s0, acts') && Alongside(s, t, w) && HoldsLease(t, w)
    ensures t.slice.effects == s.slice.effects && TagAt(t, w, k) == ToFlag
  {
    hide Run, KeyOf;
    acts', t := TakesUp(c, s0, acts, s, w, k);
    if At(t, w).pc.Probe? {
      acts', t := Walk(c, s0, acts', t, Do(w, AskProbe(Broken)));
    }
  }

  /** The row is put under review. */
  lemma GetsReviewed(c: Config, s0: Sys, acts: seq<Action>, s: Sys, w: WorkerId, k: nat)
    returns (acts': seq<Action>, t: Sys)
    requires s == Run(c, s0, acts) && Open(c, s, w, k) && c.maxSteps > 0
    ensures acts + [Do(w, Claim)] <= acts' && t == Run(c, s0, acts') && Alongside(s, t, w)
    ensures RowAt(t, k).Some? && RowAt(t, k).value.status == NeedsReview
    ensures SameCall(RowAt(s, k).value, RowAt(t, k).value)
    ensures At(t, w).pc != Idle && HoldsLease(t, w)
  {
    hide Run, KeyOf;
    acts', t := GetsAttempted(c, s0, acts, s, w, k);
    acts', t := ReachesFlag(c, s0, acts', t, w, k);
    acts', t := Walk(c, s0, acts', t, Do(w, FlagReview("in doubt")));
  }

  /** The operator says retry, and the row is an intent never attempted again. */
  lemma GetsFresh(c: Config, s0: Sys, acts: seq<Action>, s: Sys, w: WorkerId, k: nat)
    returns (acts': seq<Action>, t: Sys)
    requires s == Run(c, s0, acts) && Open(c, s, w, k) && c.maxSteps > 0
    ensures acts + [Do(w, Claim)] <= acts' && t == Run(c, s0, acts') && s.hist.calls == t.hist.calls
    ensures forall v: WorkerId :: v != w ==> At(t, v) == At(s, v)
    ensures RowAt(t, k).Some? && RowAt(t, k).value.status == Intent && RowAt(t, k).value.step == k
    ensures TagAt(t, w, k) == ToAuthorize
  {
    hide Run, KeyOf;
    if RowAt(s, k).value.attempts == 0 {
      acts', t := TakesUp(c, s0, acts, s, w, k);
    } else {
      acts', t := GetsReviewed(c, s0, acts, s, w, k);
      acts', t := Retried(c, s0, acts', t, w, k);
      acts', t := TakesUp(c, s0, acts', t, w, k);
    }
  }

  lemma Retried(c: Config, s0: Sys, acts: seq<Action>, s: Sys, w: WorkerId, k: nat)
    returns (acts': seq<Action>, t: Sys)
    requires s == Run(c, s0, acts) && At(s, w).pc != Idle && HoldsLease(s, w)
    requires s.slice.goal.state == Executing && s.slice.goal.cursor == k
    requires RowAt(s, k).Some? && RowAt(s, k).value.status == NeedsReview
    requires var e := RowAt(s, k).value; e.step == k && e.key == KeyOf(e.tool, e.args, c.goal, k)
    ensures acts <= acts' && t == Run(c, s0, acts') && s.hist.calls == t.hist.calls
    ensures forall v: WorkerId :: v != w ==> At(t, v) == At(s, v)
    ensures Open(c, t, w, k) && RowAt(t, k).value.attempts == 0
  {
    hide Run, KeyOf;
    acts', t := Walk(c, s0, acts, s, Action.Resolve(k, Retry, None));
    acts', t := Drops(c, s0, acts', t, w);
  }

  /** The last call in the log was made for step k while its row was under review. */
  predicate CalledUnderReview(s: Sys, k: nat) {
    var n := |s.hist.calls|;
    n > 0 && s.hist.calls[n - 1].step == k && s.hist.calls[n - 1].status == NeedsReview
  }

  /**
   Whenever a claim is granted while a worker stands anywhere before the call's end on an open intent, a
   tool can be called for the step while its row is under review.
  */
  lemma OverlapCallsUnderReview(c: Config, s: Sys, v: WorkerId, w: WorkerId, k: nat) returns (acts: seq<Action>)
    requires Inv(c, s) && c.maxSteps > 0 && v != w
    requires s.slice.goal.state == Executing && Granted(s, Do(w, Claim))
    requires TagAt(s, v, k) in DOUBTFUL && RowAt(s, k).Some? && RowAt(s, k).value.status == Intent
    ensures [Do(w, Claim)] <= acts
    ensures |Run(c, s, acts).hist.calls| > |s.hist.calls| && CalledUnderReview(Run(c, s, acts), k)
  {
    var t;
    hide Run, Inv, KeyOf;
    OpenRow(c, s, w, k);
    Snoc(c, s, [], Expire);
    if TagAt(s, v, k) == ToFlag {
      acts, t := GetsFresh(c, s, [], s, w, k);
      acts, t := FlaggedLate(c, s, acts, t, v, k);
      acts, t := MakesCall(c, s, acts, t, w, k);
    } else {
      acts, t := GetsReviewed(c, s, [], s, w, k);
      acts, t := MakesCall(c, s, acts, t, v, k);
    }
  }

  lemma FlaggedLate(c: Config, s0: Sys, acts: seq<Action>, s: Sys, v: WorkerId, k: nat)
    returns (acts': seq<Action>, t: Sys)
    requires s == Run(c, s0, acts) && TagAt(s, v, k) == ToFlag
    requires RowAt(s, k).Some? && RowAt(s, k).value.status == Intent && RowAt(s, k).value.step == k
    ensures acts <= acts' && t == Run(c, s0, acts') && t.hist.calls == s.hist.calls
    ensures forall u: WorkerId :: u != v ==> At(t, u) == At(s, u)
    ensures RowAt(t, k).Some? && RowAt(t, k).value.status == NeedsReview && RowAt(t, k).value.step == k
  {
    hide Run;
    acts', t := Walk(c, s0, acts, s, Do(v, FlagReview("in doubt")));
  }

  // ---- two runs from the start ----------------------------------------------------------------------------

  const EXECUTING_1 := Goal(Executing, None, 0, Some(1), 1, false)

  predicate NothingCalled(s: Sys) { s.hist.calls == [] && s.hist.retries == map[] && s.slice.steps == map[] }

  /** Worker 1 takes an approved goal to executing. */
  lemma FirstExecuting(c: Config) returns (acts: seq<Action>, s: Sys)
    requires c.maxSteps >= 2
    ensures s == Run(c, INIT, acts) && NothingCalled(s) && s.slice == Slice(EXECUTING_1, map[], map[], [])
    ensures At(s, 1) == Local(1, 1, Head) && At(s, 2).pc == Idle
  {
    acts, s := FirstClaims(c);
    hide Run;
    acts, s := Walk(c, INIT, acts, s, Do(1, Load(true)));
    acts, s := Walk(c, INIT, acts, s, Do(1, Transition));
  }

  lemma FirstClaims(c: Config) returns (acts: seq<Action>, s: Sys)
    ensures s == Run(c, INIT, acts) && NothingCalled(s)
    ensures s.slice == Slice(Goal(Approved, None, 0, Some(1), 1, false), map[], map[], [])
    ensures At(s, 1) == Local(1, 0, Head) && At(s, 2).pc == Idle
  {
    acts, s := [], INIT;
    acts, s := Walk(c, INIT, acts, s, Signal(Approved));
    acts, s := Walk(c, INIT, acts, s, Do(1, Claim));
  }

  /** It reads up to the agent's question. */
  lemma FirstAsks(c: Config) returns (acts: seq<Action>, s: Sys)
    requires c.maxSteps >= 2
    ensures s == Run(c, INIT, acts) && NothingCalled(s) && s.slice == Slice(EXECUTING_1, map[], map[], [])
    ensures At(s, 1) == Local(1, 1, Ask(Context(0, map[], []))) && At(s, 2).pc == Idle
  {
    acts, s := FirstExecuting(c);
    hide Run;
    acts, s := Walk(c, INIT, acts, s, Do(1, Load(true)));
    acts, s := Walk(c, INIT, acts, s, Do(1, LookUp));
    acts, s := Walk(c, INIT, acts, s, Do(1, ReadHistory));
    acts, s := Walk(c, INIT, acts, s, Do(1, ReadMail));
  }

  function FirstRow(c: Config): Effect { NewEffect(KeyOf("t", Null, c.goal, 0), 0, "t", Null) }

  /** The agent asks for step 0's call and its intent is recorded. */
  lemma FirstIntends(c: Config, d: Decision) returns (acts: seq<Action>, s: Sys)
    requires c.maxSteps >= 2 && (d == Invoke("t", Null) || d == Approval("t", Null))
    ensures s == Run(c, INIT, acts) && NothingCalled(s)
      && s.slice == Slice(EXECUTING_1, map[0 := FirstRow(c)], map[], [])
    ensures At(s, 1).pc == if d.Invoke? then Authorize(FirstRow(c)) else Flag(FirstRow(c))
    ensures At(s, 2).pc == Idle && Do(1, Decide(d)) in acts
  {
    hide KeyOf, Run;
    acts, s := FirstAsks(c);
    acts, s := Walk(c, INIT, acts, s, Do(1, Decide(d)));
    acts, s := Walk(c, INIT, acts, s, Do(1, CommitIntent));
  }

  /** The lease runs out with the row still an intent, and worker 2 may claim. */
  lemma LeaseRunsOut(c: Config, acts: seq<Action>, s: Sys, last: Op) returns (acts': seq<Action>, t: Sys)
    requires s == Run(c, INIT, acts) && NothingCalled(s) && s.slice.effects == map[0 := FirstRow(c)]
    requires s.slice.goal == EXECUTING_1 && At(s, 2).pc == Idle
    requires (last == Authorise(true) && At(s, 1).pc.Authorize?) || (last == Crash && At(s, 1).pc.Flag?)
    ensures acts <= acts' && t == Run(c, INIT, acts') && Inv(c, t) && t.hist.calls == [] && t.hist.retries == map[]
    ensures t.slice.effects == map[0 := FirstRow(c)] && t.slice.goal.state == Executing && Granted(t, Do(2, Claim))
    ensures last == Authorise(true) ==> At(t, 1).pc == Mark(At(s, 1).pc.e)
  {
    hide FirstRow, Run, Inv;
    acts', t := Walk(c, INIT, acts, s, Do(1, last));
    acts', t := Walk(c, INIT, acts', t, Expire);
    InitInv(c);
    RunKeepsInv(c, INIT, acts');
  }

  /**
   A tool without a probe runs twice with no retry: a worker that lost its lease between the intent and
   the attempt mark still marks and calls.
  */
  lemma ZombieRunsTwice(c: Config) returns (acts: seq<Action>)
    requires c.maxSteps >= 2 && "t" !in c.probers
    ensures var s := Run(c, INIT, acts); Calls(s.hist.calls, 0) == 2 && Retries(s, 0) == 0
  {
    var s, more;
    acts, s := FirstIntends(c, Invoke("t", Null));
    acts, s := LeaseRunsOut(c, acts, s, Authorise(true));
    hide Run, Inv, KeyOf;
    more := OverlapRunsTwice(c, s, 1, 2, 0);
    RunConcat(c, INIT, acts, more);
    acts := acts + more;
  }

  /**
   A call that needs approval is made although nobody approved it: its worker crashes after recording it
   and before flagging it, and the next worker takes the row for an ordinary intent.
  */
  lemma StoppedRequestRuns(c: Config) returns (acts: seq<Action>)
    requires c.maxSteps >= 2
    ensures Do(1, Decide(Approval("t", Null))) in acts
    ensures var s := Run(c, INIT, acts); Calls(s.hist.calls, 0) == 1 && Retries(s, 0) == 0
  {
    var s, more;
    acts, s := FirstIntends(c, Approval("t", Null));
    var before := acts;
    acts, s := LeaseRunsOut(c, acts, s, Crash);
    assert forall a :: a in before ==> a in acts;
    hide Run, Inv, KeyOf;
    more := ClaimBeforeFlagRuns(c, s, 2, 0);
    RunConcat(c, INIT, acts, more);
    acts := acts + more;
  }
}
