/**
 Where results come from: over every run, what an effect row stores as its result is what a call of the
 tool returned, what a probe found or what an operator decided, and what a goal's messages say is
 what was posted or what a committed row stores.
*/
module Outcomes {
  import opened Fsm
  import opened Goals
  import opened Guarantees
  import opened Invariants
  import opened Json
  import opened Key
  import opened Protocol
  import opened Safety
  import opened Wrappers

  // ---- what a run says about a step -------------------------------------------------------------

  /** The action tells a worker at step `k` the outcome: the tool returned it, or the probe found it. */
  predicate Tells(s: Sys, a: Action, k: nat, o: Outcome) {
    a.Do? &&
    match a.op
    case CallTool(out, _) => At(s, a.w).pc.Call? && At(s, a.w).pc.e.step == k && out == o
    case AskProbe(Happened(r)) => At(s, a.w).pc.Probe? && At(s, a.w).pc.e.step == k && Ok(r) == o
    case _ => false
  }

  ghost predicate ToldAt(c: Config, acts: seq<Action>, i: nat, k: nat, o: Outcome) {
    i < |acts| && Tells(Run(c, INIT, acts[..i]), acts[i], k, o)
  }

  /** Some action of the run told this outcome of the step. */
  ghost predicate Told(c: Config, acts: seq<Action>, k: nat, o: Outcome) {
    exists i: nat :: ToldAt(c, acts, i, k, o)
  }

  /** An operator settles the row of step `k`, which is under review. */
  predicate Rules(s: Sys, a: Action, k: nat, how: Resolution, r: Option<Json>) {
    a == Resolve(k, how, r) && k in s.slice.effects && s.slice.effects[k].status == NeedsReview
  }

  ghost predicate RuledAt(c: Config, acts: seq<Action>, i: nat, k: nat, how: Resolution, r: Option<Json>) {
    i < |acts| && Rules(Run(c, INIT, acts[..i]), acts[i], k, how, r)
  }

  ghost predicate Ruled(c: Config, acts: seq<Action>, k: nat, how: Resolution, r: Option<Json>) {
    exists i: nat :: RuledAt(c, acts, i, k, how, r)
  }

  /** A settled row stores what some action said. */
  ghost predicate Sourced(c: Config, acts: seq<Action>, k: nat, e: Effect, byOperator: bool) {
    && (e.status == Committed ==>
          e.error == "" &&
          if byOperator then Ruled(c, acts, k, AsCommitted, e.result) else Told(c, acts, k, Ok(e.result)))
    && (e.status == Status.Failed ==>
          || (e.result == None && Told(c, acts, k, Err(e.error)))
          || (e.error == "operator marked failed" && Ruled(c, acts, k, AsFailed, e.result)))
  }

  // ---- one step ---------------------------------------------------------------------------------

  /** A worker that is to record an outcome was just told it, or was already about to. */
  lemma LearnStep(c: Config, s: Sys, a: Action, w: WorkerId)
    ensures var t := Apply(c, s, a);
            At(t, w).pc.Learn? ==>
              At(s, w).pc == At(t, w).pc || Tells(s, a, At(t, w).pc.e.step, At(t, w).pc.outcome)
  {
    hide KeyOf, ResultMessage;
    if a.Do? {
      LearnWork(c, s, a.w, a.op, w);
    }
  }

  lemma LearnWork(c: Config, s: Sys, v: WorkerId, op: Op, w: WorkerId)
    ensures var t := Work(c, s, v, op);
            At(t, w).pc.Learn? ==>
              At(s, w).pc == At(t, w).pc || Tells(s, Do(v, op), At(t, w).pc.e.step, At(t, w).pc.outcome)
  {
    hide KeyOf, ResultMessage;
  }

  /** A worker records the outcome it was told, on a row still in intent. */
  predicate Records(s: Sys, a: Action, k: nat, o: Outcome) {
    && a.Do? && a.op == RecordResult
    && At(s, a.w).pc.Learn? && At(s, a.w).pc.e.step == k && At(s, a.w).pc.outcome == o
    && k in s.slice.effects && s.slice.effects[k].status == Intent
  }

  /** A row becomes final by a recorded outcome or by an operator, and stores what was recorded or decided. */
  predicate FinalStep(s: Sys, a: Action, t: Sys, k: nat) {
    k in t.slice.effects && Final(t.slice.effects[k]) ==>
      var e := t.slice.effects[k];
      || (k in s.slice.effects && s.slice.effects[k] == e)
      || (a.Do? && At(s, a.w).pc.Learn? && Records(s, a, k, At(s, a.w).pc.outcome) && Stores(e, At(s, a.w).pc.outcome))
      || (Rules(s, a, k, AsCommitted, e.result) && e.status == Committed && e.error == "")
      || (Rules(s, a, k, AsFailed, e.result) && e.status == Status.Failed && e.error == "operator marked failed")
  }

  lemma FinalByStep(c: Config, s: Sys, a: Action, k: nat)
    requires Inv(c, s)
    ensures FinalStep(s, a, Apply(c, s, a), k)
  {
    hide KeyOf, ResultMessage, CallsBound, ReturnsStored, ResultsDelivered, WritesOrdered, PcOk, LeaseOk;
    if a.Do? {
      FinalByWork(c, s, a.w, a.op, k);
    }
  }

  lemma FinalByWork(c: Config, s: Sys, w: WorkerId, op: Op, k: nat)
    requires RowsAgree(c, s.slice.goal.cursor, s.slice.steps, s.slice.effects)
    ensures FinalStep(s, Do(w, op), Work(c, s, w, op), k)
  {
    hide DoRecord, DoCommitIntent, DoLoad, DoDecide, DoCall, KeyOf, ResultMessage;
    match op
    case RecordResult => FinalByRecord(s, w, k);
    case CommitIntent => FinalByIntent(c, s, w, k);
    case Load(known) => RowsUnloaded(c, s, w, known);
    case Decide(d) => RowsUndecided(s, w, d);
    case CallTool(o, wrote) => RowsUncalled(s, w, o, wrote);
    case _ =>
  }

  lemma FinalByRecord(s: Sys, w: WorkerId, k: nat)
    ensures FinalStep(s, Do(w, RecordResult), DoRecord(s, w), k)
  {
    hide ResultMessage;
  }

  lemma FinalByIntent(c: Config, s: Sys, w: WorkerId, k: nat)
    ensures FinalStep(s, Do(w, CommitIntent), DoCommitIntent(c, s, w), k)
  {
    hide KeyOf;
  }

  lemma RowsUnloaded(c: Config, s: Sys, w: WorkerId, known: bool)
    ensures DoLoad(c, s, w, known).slice == s.slice
  {
  }

  lemma RowsUndecided(s: Sys, w: WorkerId, d: Decision)
    ensures DoDecide(s, w, d).slice == s.slice
  {
  }

  lemma RowsUncalled(s: Sys, w: WorkerId, o: Outcome, wrote: bool)
    ensures DoCall(s, w, o, wrote).slice == s.slice
  {
  }

  lemma OperatorStep(c: Config, s: Sys, a: Action, k: nat)
    ensures var t := Apply(c, s, a);
            k in t.hist.settledByOperator <==>
              k in s.hist.settledByOperator || (a.Resolve? && Rules(s, a, k, AsCommitted, a.result))
  {
    hide KeyOf, ResultMessage;
    if a.Do? {
      OperatorWork(c, s, a.w, a.op);
    }
  }

  lemma OperatorWork(c: Config, s: Sys, w: WorkerId, op: Op)
    ensures Work(c, s, w, op).hist.settledByOperator == s.hist.settledByOperator
  {
    hide DoRecord, DoCommitIntent, KeyOf, ResultMessage;
    match op
    case RecordResult => RecordLog(s, w);
    case CommitIntent => IntentLog(c, s, w);
    case _ =>
  }

  lemma RecordLog(s: Sys, w: WorkerId)
    ensures DoRecord(s, w).hist.settledByOperator == s.hist.settledByOperator
  {
    hide ResultMessage, CommitResult;
  }

  lemma IntentLog(c: Config, s: Sys, w: WorkerId)
    ensures DoCommitIntent(c, s, w).hist.settledByOperator == s.hist.settledByOperator
  {
    hide KeyOf;
  }

  // ---- runs -------------------------------------------------------------------------------------

  lemma ToldLater(c: Config, acts: seq<Action>, a: Action, k: nat, o: Outcome)
    requires Told(c, acts, k, o)
    ensures Told(c, acts + [a], k, o)
  {
    hide Run;
    var i: nat :| ToldAt(c, acts, i, k, o);
    assert (acts + [a])[..i] == acts[..i];
    assert ToldAt(c, acts + [a], i, k, o);
  }

  lemma RuledLater(c: Config, acts: seq<Action>, a: Action, k: nat, how: Resolution, r: Option<Json>)
    requires Ruled(c, acts, k, how, r)
    ensures Ruled(c, acts + [a], k, how, r)
  {
    hide Run;
    var i: nat :| RuledAt(c, acts, i, k, how, r);
    assert (acts + [a])[..i] == acts[..i];
    assert RuledAt(c, acts + [a], i, k, how, r);
  }

  lemma ToldNow(c: Config, acts: seq<Action>, a: Action, k: nat, o: Outcome)
    requires Tells(Run(c, INIT, acts), a, k, o)
    ensures Told(c, acts + [a], k, o)
  {
    hide Run;
    assert (acts + [a])[..|acts|] == acts;
    assert ToldAt(c, acts + [a], |acts|, k, o);
  }

  lemma RuledNow(c: Config, acts: seq<Action>, a: Action, k: nat, how: Resolution, r: Option<Json>)
    requires Rules(Run(c, INIT, acts), a, k, how, r)
    ensures Ruled(c, acts + [a], k, how, r)
  {
    hide Run;
    assert (acts + [a])[..|acts|] == acts;
    assert RuledAt(c, acts + [a], |acts|, k, how, r);
  }

  /** What a worker is to record was told in the run. */
  lemma {:induction false} LearntWasTold(c: Config, acts: seq<Action>, w: WorkerId)
    ensures var pc := At(Run(c, INIT, acts), w).pc; pc.Learn? ==> Told(c, acts, pc.e.step, pc.outcome)
    decreases |acts|
  {
    hide Run, Apply, Told;
    Snoc(c, INIT, [], ResumeRead);
    if acts != [] {
      var init, a := acts[..|acts| - 1], acts[|acts| - 1];
      assert acts == init + [a];
      Snoc(c, INIT, init, a);
      var s, pc := Run(c, INIT, init), At(Run(c, INIT, acts), w).pc;
      LearnStep(c, s, a, w);
      if pc.Learn? {
        if At(s, w).pc == pc {
          LearntWasTold(c, init, w);
          ToldLater(c, init, a, pc.e.step, pc.outcome);
        } else {
          ToldNow(c, init, a, pc.e.step, pc.outcome);
        }
      }
    }
  }

  /**
   A committed row that no operator settled stores the result a call returned or a probe found, told to
   a worker that stood at that step; one an operator settled stores the result given with the decision.
   A failed row stores the error of a call, or the operator's verdict.
  */
  lemma {:induction false} EveryOutcomeHasASource(c: Config, acts: seq<Action>, k: nat)
    requires k in Run(c, INIT, acts).slice.effects
    ensures var s := Run(c, INIT, acts); Sourced(c, acts, k, s.slice.effects[k], k in s.hist.settledByOperator)
    decreases |acts|
  {
    hide Run, Apply, Sourced, Inv;
    Snoc(c, INIT, [], ResumeRead);
    var init, a := acts[..|acts| - 1], acts[|acts| - 1];
    assert acts == init + [a];
    Snoc(c, INIT, init, a);
    InitInv(c);
    RunKeepsInv(c, INIT, init);
    var s := Run(c, INIT, init);
    if k in s.slice.effects {
      EveryOutcomeHasASource(c, init, k);
    }
    SourceStep(c, init, a, k);
  }

  lemma SourceStep(c: Config, init: seq<Action>, a: Action, k: nat)
    requires var s := Run(c, INIT, init);
             && Inv(c, s)
             && (k in s.slice.effects ==>
                   Sourced(c, init, k, s.slice.effects[k], k in s.hist.settledByOperator))
    requires k in Apply(c, Run(c, INIT, init), a).slice.effects
    ensures var t := Apply(c, Run(c, INIT, init), a);
            Sourced(c, init + [a], k, t.slice.effects[k], k in t.hist.settledByOperator)
  {
    hide Run, Apply, Told, Ruled, RowsAgree, CallsBound, ReturnsStored, WritesOrdered, PcOk, LeaseOk, LocalOk;
    var s, t := Run(c, INIT, init), Apply(c, Run(c, INIT, init), a);
    var e := t.slice.effects[k];
    FinalByStep(c, s, a, k);
    OperatorStep(c, s, a, k);
    assert Covered(s.hist.delivered.Keys, s.hist.settledByOperator, s.slice.effects);
    if k in s.slice.effects && s.slice.effects[k] == e {
      SameRowSourced(c, init, a, k, e, k in s.hist.settledByOperator);
    } else if Final(e) {
      if a.Resolve? {
        RuledNow(c, init, a, k, a.how, a.result);
      } else {
        LearntWasTold(c, init, a.w);
        ToldLater(c, init, a, k, At(s, a.w).pc.outcome);
      }
    }
  }

  lemma SameRowSourced(c: Config, init: seq<Action>, a: Action, k: nat, e: Effect, byOperator: bool)
    requires Sourced(c, init, k, e, byOperator)
    ensures Sourced(c, init + [a], k, e, byOperator)
  {
    hide Told, Ruled;
    if Told(c, init, k, Ok(e.result)) {
      ToldLater(c, init, a, k, Ok(e.result));
    }
    if Told(c, init, k, Err(e.error)) {
      ToldLater(c, init, a, k, Err(e.error));
    }
    if Ruled(c, init, k, AsCommitted, e.result) {
      RuledLater(c, init, a, k, AsCommitted, e.result);
    }
    if Ruled(c, init, k, AsFailed, e.result) {
      RuledLater(c, init, a, k, AsFailed, e.result);
    }
  }

  // ---- recording --------------------------------------------------------------------------------

  /** A result recorded on a row in intent is told to the agent in one last message. */
  predicate Announced(was: Effect, o: Outcome, before: seq<Message>, after: seq<Message>) {
    if was.status == Intent && o.Ok?
    then |after| == |before| + 1 && before <= after && Delivers(after[|before|], was, o.result)
    else after == before
  }

  lemma ResultCommitted(s: Slice, k: nat, o: Outcome)
    requires k in s.effects
    ensures var t := CommitResult(s, k, o);
            && t.goal == s.goal && t.steps == s.steps && t.effects.Keys == s.effects.Keys
            && (forall j :: j in s.effects && j != k ==> t.effects[j] == s.effects[j])
            && FirstWins(s.effects[k], o, t.effects[k])
            && Announced(s.effects[k], o, s.messages, t.messages)
  {
    var t := CommitResult(s, k, o);
    assert |t.messages| > |s.messages| ==> t.messages[|s.messages|] == ResultMessage(t.effects[k]);
  }

  /** What recording an outcome does to a goal's tables. */
  lemma RecordKeeps(c: Config, s: Sys, w: WorkerId)
    requires At(s, w).pc.Learn? && At(s, w).pc.e.step in s.slice.effects
    ensures var t, k, o := Apply(c, s, Do(w, RecordResult)), At(s, w).pc.e.step, At(s, w).pc.outcome;
            && t.slice.goal == s.slice.goal && t.slice.steps == s.slice.steps
            && t.slice.effects.Keys == s.slice.effects.Keys
            && (forall j :: j in s.slice.effects && j != k ==> t.slice.effects[j] == s.slice.effects[j])
            && FirstWins(s.slice.effects[k], o, t.slice.effects[k])
            && Announced(s.slice.effects[k], o, s.slice.messages, t.slice.messages)
  {
    var t, k, o := Apply(c, s, Do(w, RecordResult)), At(s, w).pc.e.step, At(s, w).pc.outcome;
    hide Settled, ResultMessage, FirstWins, Announced;
    assert t.slice == CommitResult(s.slice, k, o);
    hide *;
    ResultCommitted(s.slice, k, o);
  }

  /** Either way the worker goes by the row as it then stands, not by what it was told. */
  lemma RecordLeads(c: Config, s: Sys, w: WorkerId)
    requires At(s, w).pc.Learn? && At(s, w).pc.e.step in s.slice.effects
    ensures var t, k := Apply(c, s, Do(w, RecordResult)), At(s, w).pc.e.step;
            && k in t.slice.effects
            && match t.slice.effects[k].status
               case Committed => At(t, w).pc == Advance(t.slice.effects[k])
               case Failed => At(t, w).pc == Fence(State.Failed, false)
               case _ => At(t, w).pc == Fence(Paused, false)
  {
    hide ResultMessage;
  }

  // ---- messages ---------------------------------------------------------------------------------

  /** The j-th action posted the i-th message, which is trusted exactly if it is the operator's. */
  ghost predicate PostedAt(c: Config, acts: seq<Action>, i: nat, m: Message, j: nat) {
    && j < |acts| && acts[j].Post? && |Run(c, INIT, acts[..j]).slice.messages| == i
    && m.source == acts[j].source && m.body == acts[j].body && (m.trusted <==> m.source == Operator)
  }

  /** The message tells of a row that a result committed. */
  predicate TellsOf(m: Message, e: Effect) { e.status == Committed && Delivers(m, e, e.result) }

  ghost predicate MessageSourced(c: Config, acts: seq<Action>, i: nat, s: Slice)
    requires i < |s.messages|
  {
    || (exists j: nat :: PostedAt(c, acts, i, s.messages[i], j))
    || (exists k :: k in s.effects && TellsOf(s.messages[i], s.effects[k]))
  }

  /** What an action adds to the messages. */
  predicate MessageStep(s: Sys, a: Action, t: Sys) {
    var ms, ms' := s.slice.messages, t.slice.messages;
    if a.Post? then
      && |ms'| == |ms| + 1 && ms' == ms + [ms'[|ms|]]
      && ms'[|ms|].source == a.source && ms'[|ms|].body == a.body
      && (ms'[|ms|].trusted <==> a.source == Operator)
    else
      || ms' == ms
      || (&& |ms'| == |ms| + 1 && ms' == ms + [ms'[|ms|]]
          && a.Do? && At(s, a.w).pc.Learn? && At(s, a.w).pc.e.step in t.slice.effects
          && TellsOf(ms'[|ms|], t.slice.effects[At(s, a.w).pc.e.step]))
  }

  lemma MessageStepped(c: Config, s: Sys, a: Action)
    ensures MessageStep(s, a, Apply(c, s, a))
  {
    hide KeyOf, ResultMessage;
    match a
    case Do(w, RecordResult) => MessageRecorded(c, s, w);
    case Do(w, op) => NoMessage(c, s, w, op);
    case _ =>
  }

  lemma MessageRecorded(c: Config, s: Sys, w: WorkerId)
    ensures MessageStep(s, Do(w, RecordResult), Work(c, s, w, RecordResult))
  {
  }

  lemma NoMessage(c: Config, s: Sys, w: WorkerId, op: Op)
    requires !op.RecordResult?
    ensures Work(c, s, w, op).slice.messages == s.slice.messages
  {
    hide KeyOf;
  }

  /** Every message of a goal was posted from outside, as it stands, or tells of a row that a result committed. */
  lemma {:induction false} EveryMessageHasASource(c: Config, acts: seq<Action>, i: nat)
    requires i < |Run(c, INIT, acts).slice.messages|
    ensures MessageSourced(c, acts, i, Run(c, INIT, acts).slice)
    decreases |acts|
  {
    hide Run, Apply, Inv, MessageSourced, MessageStep;
    Snoc(c, INIT, [], ResumeRead);
    var init, a := acts[..|acts| - 1], acts[|acts| - 1];
    assert acts == init + [a];
    Snoc(c, INIT, init, a);
    var s := Run(c, INIT, init);
    if i < |s.slice.messages| {
      EveryMessageHasASource(c, init, i);
    }
    InitInv(c);
    RunKeepsInv(c, INIT, init);
    SourceMessage(c, init, a, i);
  }

  lemma SourceMessage(c: Config, init: seq<Action>, a: Action, i: nat)
    requires var s := Run(c, INIT, init); Inv(c, s) && (i < |s.slice.messages| ==> MessageSourced(c, init, i, s.slice))
    requires i < |Apply(c, Run(c, INIT, init), a).slice.messages|
    ensures MessageSourced(c, init + [a], i, Apply(c, Run(c, INIT, init), a).slice)
  {
    hide Run, Apply, Inv, Delivers;
    var s, t := Run(c, INIT, init), Apply(c, Run(c, INIT, init), a);
    MessageStepped(c, s, a);
    ActionKeepsInv(c, s, a);
    if i < |s.slice.messages| {
      if j: nat :| PostedAt(c, init, i, s.slice.messages[i], j) {
        assert (init + [a])[..j] == init[..j];
        assert PostedAt(c, init + [a], i, t.slice.messages[i], j);
      } else {
        var k :| k in s.slice.effects && TellsOf(s.slice.messages[i], s.slice.effects[k]);
        assert TellsOf(t.slice.messages[i], t.slice.effects[k]);
      }
    } else if a.Post? {
      assert (init + [a])[..|init|] == init;
      assert PostedAt(c, init + [a], i, t.slice.messages[i], |init|);
    }
  }

  /** What is posted arrives, and stays where it was put. */
  lemma PostsArrive(c: Config, acts: seq<Action>, j: nat)
    requires j < |acts| && acts[j].Post?
    ensures var i, ms := |Run(c, INIT, acts[..j]).slice.messages|, Run(c, INIT, acts).slice.messages;
            i < |ms| && PostedAt(c, acts, i, ms[i], j)
  {
    hide Run, Apply, Inv;
    var s, t := Run(c, INIT, acts[..j]), Run(c, INIT, acts[..j + 1]);
    assert acts[..j + 1] == acts[..j] + [acts[j]];
    Snoc(c, INIT, acts[..j], acts[j]);
    MessageStepped(c, s, acts[j]);
    InitInv(c);
    RunKeepsInv(c, INIT, acts[..j + 1]);
    assert acts == acts[..j + 1] + acts[j + 1..];
    RunConcat(c, INIT, acts[..j + 1], acts[j + 1..]);
    RunKeepsInv(c, t, acts[j + 1..]);
    assert t.slice.messages <= Run(c, INIT, acts).slice.messages;
  }
}
