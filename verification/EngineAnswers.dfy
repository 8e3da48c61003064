/**
 Where answers come from. Under concurrent callers, in any schedule of either engine, whatever is
 answered as a key's result or failure was given by the key's own function, by its probe, or by an
 operator who resolved it.
*/
module EngineAnswers {
  import opened Contention
  import opened Engine
  import opened Json
  import opened Wrappers

  /** The settled answer a key's phase stands for. */
  function Standing(p: Phase): Option<Reply> {
    match p
    case Done(v) => Some(Value(v))
    case Broken(m) => Some(ToolFailed(m))
    case _ => None
  }

  /** The function gave this answer. */
  predicate Gives(fn: FnReply, r: Reply) {
    (fn.Fine? && r == Value(fn.result)) || (fn.Bad? && r == ToolFailed(fn.msg))
  }

  /** The operator did. */
  predicate Orders(p: Phase, action: string, result: Option<Json>, r: Reply) {
    && p == Review
    && (|| (action == "committed" && r == Value(result))
        || (action == "failed" && r == ToolFailed("operator marked failed")))
  }

  // ---- Fake -----------------------------------------------------------------------------------------

  /** This action, taken in this state, supplies the answer for the key. */
  predicate FakeSupplies(s: FakeSys, a: FakeAction, key: string, r: Reply) {
    && a.key == key
    && match a
       case Begin(_, _, probe) =>
         PhaseAt(s.phases, key).Open? && probe.Some? && probe.value.Found? && r == Value(probe.value.result)
       case End(c, _, fn) => key in s.running && s.running[key] == c && Gives(fn, r)
       case FakeResolve(_, action, result) => Orders(PhaseAt(s.phases, key), action, result, r)
  }

  ghost predicate FakeSourced(acts: seq<FakeAction>, key: string, r: Reply) {
    exists i :: 0 <= i < |acts| && FakeSupplies(FakeRun(FAKE_INIT, acts[..i]), acts[i], key, r)
  }

  /** The key's phase changes and answers for it are given only as supplied or as they stood. */
  lemma FakeStepSupplies(s: FakeSys, a: FakeAction, key: string)
    ensures var t := FakeApply(s, a);
            && (Standing(PhaseAt(t.phases, key)).Some? ==>
                  || PhaseAt(t.phases, key) == PhaseAt(s.phases, key)
                  || FakeSupplies(s, a, key, Standing(PhaseAt(t.phases, key)).value))
            && s.log <= t.log
            && forall i :: |s.log| <= i < |t.log| && IsSettled(t.log[i], key) ==>
                 || Standing(PhaseAt(s.phases, key)) == Some(t.log[i].reply)
                 || FakeSupplies(s, a, key, t.log[i].reply)
  {
  }

  lemma {:induction false} FakeSnoc(s: FakeSys, acts: seq<FakeAction>, a: FakeAction)
    ensures FakeRun(s, acts + [a]) == FakeApply(FakeRun(s, acts), a)
    decreases |acts|
  {
    hide FakeApply;
    if acts == [] {
      assert acts + [a] == [a] && [a][1..] == [];
    } else {
      assert (acts + [a])[1..] == acts[1..] + [a];
      FakeSnoc(FakeApply(s, acts[0]), acts[1..], a);
    }
  }

  lemma FakeStaysSourced(acts: seq<FakeAction>, a: FakeAction, key: string, r: Reply)
    requires FakeSourced(acts, key, r) || FakeSupplies(FakeRun(FAKE_INIT, acts), a, key, r)
    ensures FakeSourced(acts + [a], key, r)
  {
    hide FakeRun, FakeSupplies;
    var all := acts + [a];
    if FakeSourced(acts, key, r) {
      var i :| 0 <= i < |acts| && FakeSupplies(FakeRun(FAKE_INIT, acts[..i]), acts[i], key, r);
      assert all[..i] == acts[..i] && all[i] == acts[i];
    } else {
      assert all[..|acts|] == acts && all[|acts|] == a;
    }
  }

  lemma {:induction false} FakePhaseSourced(acts: seq<FakeAction>, key: string)
    ensures var s := FakeRun(FAKE_INIT, acts);
            && (Standing(PhaseAt(s.phases, key)).Some? ==>
                  FakeSourced(acts, key, Standing(PhaseAt(s.phases, key)).value))
            && forall i :: 0 <= i < |s.log| && IsSettled(s.log[i], key) ==> FakeSourced(acts, key, s.log[i].reply)
    decreases |acts|
  {
    if acts != [] {
      var init, a := acts[..|acts| - 1], acts[|acts| - 1];
      var s, t := FakeRun(FAKE_INIT, init), FakeRun(FAKE_INIT, acts);
      assert acts == init + [a];
      FakePhaseSourced(init, key);
      FakeSnoc(FAKE_INIT, init, a);
      FakeStepSupplies(s, a, key);
      hide FakeRun, FakeApply, FakeSupplies, FakeSourced;
      if Standing(PhaseAt(t.phases, key)).Some? {
        FakeStaysSourced(init, a, key, Standing(PhaseAt(t.phases, key)).value);
      }
      forall i | 0 <= i < |t.log| && IsSettled(t.log[i], key) ensures FakeSourced(acts, key, t.log[i].reply) {
        if i < |s.log| {
          assert t.log[i] == s.log[i];
        }
        FakeStaysSourced(init, a, key, t.log[i].reply);
      }
    }
  }

  /** Fake, any schedule: every settled answer was supplied. */
  lemma FakeAnswersSourced(acts: seq<FakeAction>, key: string, i: nat)
    requires var log := FakeRun(FAKE_INIT, acts).log; i < |log| && IsSettled(log[i], key)
    ensures FakeSourced(acts, key, FakeRun(FAKE_INIT, acts).log[i].reply)
  {
    FakePhaseSourced(acts, key);
  }

  // ---- Postgres -------------------------------------------------------------------------------------

  predicate RowSupplies(s: RowSys, a: RowAction, key: string, r: Reply) {
    match a
    case AskProbe(c, reply) =>
      c in s.callers && s.callers[c] == InDoubt(key) && reply.Found? && r == Value(reply.result)
    case Finish(c, fn) => c in s.callers && s.callers[c] == Working(key) && Gives(fn, r)
    case RowResolve(k, action, result) => k == key && Orders(PhaseAt(s.phases, key), action, result, r)
    case _ => false
  }

  ghost predicate RowSourced(acts: seq<RowAction>, key: string, r: Reply) {
    exists i :: 0 <= i < |acts| && RowSupplies(RowRun(ROW_INIT, acts[..i]), acts[i], key, r)
  }

  lemma RowStepSupplies(s: RowSys, a: RowAction, key: string)
    ensures var t := RowApply(s, a);
            && (Standing(PhaseAt(t.phases, key)).Some? ==>
                  || PhaseAt(t.phases, key) == PhaseAt(s.phases, key)
                  || RowSupplies(s, a, key, Standing(PhaseAt(t.phases, key)).value))
            && s.log <= t.log
            && forall i :: |s.log| <= i < |t.log| && IsSettled(t.log[i], key) ==>
                 || Standing(PhaseAt(s.phases, key)) == Some(t.log[i].reply)
                 || RowSupplies(s, a, key, t.log[i].reply)
  {
  }

  lemma {:induction false} RowSnoc(s: RowSys, acts: seq<RowAction>, a: RowAction)
    ensures RowRun(s, acts + [a]) == RowApply(RowRun(s, acts), a)
    decreases |acts|
  {
    hide RowApply;
    if acts == [] {
      assert acts + [a] == [a] && [a][1..] == [];
    } else {
      assert (acts + [a])[1..] == acts[1..] + [a];
      RowSnoc(RowApply(s, acts[0]), acts[1..], a);
    }
  }

  lemma RowStaysSourced(acts: seq<RowAction>, a: RowAction, key: string, r: Reply)
    requires RowSourced(acts, key, r) || RowSupplies(RowRun(ROW_INIT, acts), a, key, r)
    ensures RowSourced(acts + [a], key, r)
  {
    hide RowRun, RowSupplies;
    var all := acts + [a];
    if RowSourced(acts, key, r) {
      var i :| 0 <= i < |acts| && RowSupplies(RowRun(ROW_INIT, acts[..i]), acts[i], key, r);
      assert all[..i] == acts[..i] && all[i] == acts[i];
    } else {
      assert all[..|acts|] == acts && all[|acts|] == a;
    }
  }

  lemma {:induction false} RowPhaseSourced(acts: seq<RowAction>, key: string)
    ensures var s := RowRun(ROW_INIT, acts);
            && (Standing(PhaseAt(s.phases, key)).Some? ==>
                  RowSourced(acts, key, Standing(PhaseAt(s.phases, key)).value))
            && forall i :: 0 <= i < |s.log| && IsSettled(s.log[i], key) ==> RowSourced(acts, key, s.log[i].reply)
    decreases |acts|
  {
    if acts != [] {
      var init, a := acts[..|acts| - 1], acts[|acts| - 1];
      var s, t := RowRun(ROW_INIT, init), RowRun(ROW_INIT, acts);
      assert acts == init + [a];
      RowPhaseSourced(init, key);
      RowSnoc(ROW_INIT, init, a);
      RowStepSupplies(s, a, key);
      hide RowRun, RowApply, RowSupplies, RowSourced;
      if Standing(PhaseAt(t.phases, key)).Some? {
        RowStaysSourced(init, a, key, Standing(PhaseAt(t.phases, key)).value);
      }
      forall i | 0 <= i < |t.log| && IsSettled(t.log[i], key) ensures RowSourced(acts, key, t.log[i].reply) {
        if i < |s.log| {
          assert t.log[i] == s.log[i];
        }
        RowStaysSourced(init, a, key, t.log[i].reply);
      }
    }
  }

  /** Postgres, any schedule, overlapping claims included: every settled answer was supplied. */
  lemma RowAnswersSourced(acts: seq<RowAction>, key: string, i: nat)
    requires var log := RowRun(ROW_INIT, acts).log; i < |log| && IsSettled(log[i], key)
    ensures RowSourced(acts, key, RowRun(ROW_INIT, acts).log[i].reply)
  {
    RowPhaseSourced(acts, key);
  }

  // ---- what is given is answered --------------------------------------------------------------------

  /** A function that returns answers its own caller, with just what it returned. */
  lemma ReturnsAreAnswered(s: FakeSys, c: Caller, key: string, fn: FnReply)
    requires key in s.running && s.running[key] == c
    ensures var t := FakeApply(s, End(c, key, fn));
            && |t.log| == |s.log| + 1 && key !in t.running
            && t.log[|s.log|] == Returned(key, match fn
                                               case Fine(v) => Value(v)
                                               case Bad(m) => ToolFailed(m)
                                               case Crashed(m) => Crash(m))
            && (fn.Crashed? ==> PhaseAt(t.phases, key) == PhaseAt(s.phases, key))
  {
  }

  lemma RowReturnsAreAnswered(s: RowSys, c: Caller, key: string, fn: FnReply)
    requires c in s.callers && s.callers[c] == Working(key)
    ensures var t := RowApply(s, Finish(c, fn));
            && |t.log| == |s.log| + 1 && c !in t.callers
            && t.log[|s.log|] == Returned(key, match fn
                                               case Fine(v) => Value(v)
                                               case Bad(m) => ToolFailed(m)
                                               case Crashed(m) => Crash(m))
            && (fn.Crashed? || !PhaseAt(s.phases, key).Open? ==> PhaseAt(t.phases, key) == PhaseAt(s.phases, key))
            && (fn.Fine? && PhaseAt(s.phases, key).Open? ==> PhaseAt(t.phases, key) == Done(fn.result))
            && (fn.Bad? && PhaseAt(s.phases, key).Open? ==> PhaseAt(t.phases, key) == Broken(fn.msg))
  {
  }
}
