/**
 Total correctness of the demo goal. One worker is left alone with an approved demo.writer goal to which
 nobody posts, in a directory that nobody else writes to and whose file system is in order. It ends the
 goal: done, with exactly the input's lines in the file, unless there are lines and the file's name is not
 one the tool takes; then failed, with nothing written.
*/
module Completion {
  import opened CrashStop
  import opened Demo
  import opened EndToEnd
  import opened Fsm
  import opened Goals
  import opened Invariants
  import opened Json
  import opened Key
  import opened Progress
  import opened Protocol
  import opened WriterFiles

  /** The calls that write the input's lines. */
  function Tools(input: WriterInput): (ts: seq<string>)
    ensures |ts| == |input.lines|
  {
    seq(|input.lines|, i => APPEND)
  }

  function Args(input: WriterInput): (vs: seq<Json>)
    ensures |vs| == |input.lines|
  {
    seq(|input.lines|, i requires 0 <= i < |input.lines| => LineArgs(input.file, input.lines[i]))
  }

  lemma PlanFits(input: WriterInput)
    ensures PlanOk(Tools(input), Args(input))
  {
  }

  // ---- the lone worker ------------------------------------------------------------------------------

  /** What the worker does next: its agent is demo.writer, tool and probe are fs.append on the files. */
  function NextWork(input: WriterInput, x: Shared, w: WorkerId): Op {
    match At(x.sys, w).pc
    case Ask(ctx) => Decide(WriterNext(input, ctx))
    case Judge(ctx) => Verify(WriterVerifies(input, ctx))
    case Probe(e) => AskProbe(Probed(x.files, e.key, e.args, true))
    case Call(e) => var o := Executed(x.files, e.key, e.args, true).0; CallTool(o, o.Ok?)
    case _ => NextOp(Tools(input), Args(input), x.sys, w)
  }

  function NextEvent(input: WriterInput, x: Shared, w: WorkerId): Event { Act(Do(w, NextWork(input, x, w)), true) }

  /** Every event is the lone worker's next. */
  ghost predicate LoneWriter(c: Config, input: WriterInput, x: Shared, w: WorkerId, evs: seq<Event>)
    decreases |evs|
  {
    evs == [] || (evs[0] == NextEvent(input, x, w) && LoneWriter(c, input, Happen(c, x, evs[0]), w, evs[1..]))
  }

  // ---- messages -----------------------------------------------------------------------------------------

  /** No message adds a line to the plan. */
  predicate Silent(ms: seq<Message>) { Instructions(ms) == [] }

  lemma SilentPrefix(input: WriterInput, ms: seq<Message>, all: seq<Message>)
    requires ms <= all && Silent(all)
    ensures PlanOf(input, ms) == input.lines
  {
    PlanGrows(input, ms, all);
    assert PlanOf(input, all) == input.lines;
    assert |Instructions(ms)| == 0;
  }

  /** Tool results instruct nothing. */
  lemma WorkStaysSilent(c: Config, s: Sys, w: WorkerId, op: Op)
    requires Silent(s.slice.messages)
    ensures Silent(Work(c, s, w, op).slice.messages)
  {
    hide KeyOf, Instructions;
    if op.RecordResult? {
      RecordStaysSilent(s, w);
    }
  }

  lemma RecordStaysSilent(s: Sys, w: WorkerId)
    requires Silent(s.slice.messages)
    ensures Silent(DoRecord(s, w).slice.messages)
  {
    var t := DoRecord(s, w);
    if t.slice.messages != s.slice.messages {
      var m := t.slice.messages[|s.slice.messages|];
      assert t.slice.messages == s.slice.messages + [m] && m.source == ToolResult;
      assert t.slice.messages[..|s.slice.messages|] == s.slice.messages;
    }
  }

  lemma AsksForPlan(c: Config, input: WriterInput, s: Sys, w: WorkerId)
    requires Inv(c, s) && Silent(s.slice.messages) && At(s, w).pc.Ask?
    ensures NextOp(Tools(input), Args(input), s, w) == Decide(WriterNext(input, At(s, w).pc.ctx))
  {
    hide GlobalOk;
    assert LocalOk(s, w);
    SilentPrefix(input, At(s, w).pc.ctx.messages, s.slice.messages);
  }

  lemma JudgesPlan(c: Config, input: WriterInput, s: Sys, w: WorkerId)
    requires Alone(c, |input.lines|, s, w) && Silent(s.slice.messages) && At(s, w).pc.Judge?
    ensures WriterVerifies(input, At(s, w).pc.ctx)
  {
    hide DoubtOk, TurnsOk, ClaimsOk, RowsGood, Instructions, KeyOf;
    hide CallsBound, ReturnsStored, ResultsDelivered, WritesOrdered;
    assert LocalOk(s, w);
    SilentPrefix(input, At(s, w).pc.ctx.messages, s.slice.messages);
    Counted(s.slice.steps, s.slice.goal.cursor);
  }

  // ---- what the lone worker keeps -------------------------------------------------------------------

  /** The files as they were, with the goal's log of appends at the end of its file. */
  ghost predicate Recorded(input: WriterInput, before: Files, x: Shared) {
    forall f ::
      LinesOf(x.files, f) == LinesOf(before, f) + if f == input.file then EntriesOf(x.sys.world) else []
  }

  /** Nothing is in doubt: no attempt was marked but by a worker that is at the call. */
  ghost predicate NoDoubt(s: Sys, w: WorkerId) {
    && !At(s, w).pc.Probe? && !At(s, w).pc.Flag? && !At(s, w).pc.Learn?
    && (!At(s, w).pc.Call? ==> forall k :: k in s.slice.effects ==> s.slice.effects[k].attempts == 0)
  }

  ghost predicate Steady(c: Config, input: WriterInput, before: Files, x: Shared, w: WorkerId) {
    && ValidGoalId(c.goal)
    && Alone(c, |input.lines|, x.sys, w) && Silent(x.sys.slice.messages)
    && Planned(c, input, x.sys) && Filed(c, input, x) && Recorded(input, before, x)
    && (BadPath(input.file) ==> NoDoubt(x.sys, w) && x.sys.world == [])
  }

  /** The call the worker is about to make is refused. */
  predicate Refused(input: WriterInput, s: Sys, w: WorkerId) { BadPath(input.file) && At(s, w).pc.Call? }

  lemma NextIsNext(c: Config, input: WriterInput, before: Files, x: Shared, w: WorkerId)
    requires Steady(c, input, before, x, w) && !Refused(input, x.sys, w)
    ensures IsNext(Tools(input), Args(input), x.sys, w, NextWork(input, x, w))
  {
    hide Planned, Filed, Recorded, Inv, Prog, Instructions, KeyOf;
    match At(x.sys, w).pc
    case Ask(_) => AsksForPlan(c, input, x.sys, w);
    case Judge(_) => JudgesPlan(c, input, x.sys, w);
    case Probe(e) => ProbeIsTrue(c, input, x, w);
    case Call(e) => var line := CallAims(c, input, x.sys, w);
    case _ =>
  }

  lemma NextIsOk(c: Config, input: WriterInput, x: Shared, w: WorkerId)
    requires Alone(c, |input.lines|, x.sys, w)
    ensures EventOk(c, input, x, NextEvent(input, x, w))
  {
    hide GoalGood, RowsGood, DoubtOk, TurnsOk, ClaimsOk, Inv, KeyOf, Executed, Probed, WriterNext, WriterVerifies;
  }

  lemma NextIsWriterStep(c: Config, input: WriterInput, before: Files, x: Shared, w: WorkerId)
    requires Steady(c, input, before, x, w)
    ensures WriterStep(input, x.sys, Do(w, NextWork(input, x, w)))
  {
    NextIsOk(c, input, x, w);
    hide Planned, Filed, Recorded, Alone, Silent, EventOk, WriterStep, NextWork;
    if BadPath(input.file) {
      if At(x.sys, w).pc.Call? {
        var line := CallAims(c, input, x.sys, w);
      }
      NothingSucceeds(c, input, x, w, NextWork(input, x, w));
    } else {
      EventIsWriterStep(c, input, x, Do(w, NextWork(input, x, w)), true);
    }
  }

  /** Without a probe and without a call that could succeed, nothing more is asked of the writer's steps. */
  lemma NothingSucceeds(c: Config, input: WriterInput, x: Shared, w: WorkerId, op: Op)
    requires EventOk(c, input, x, Act(Do(w, op), true)) && !At(x.sys, w).pc.Probe?
    requires At(x.sys, w).pc.Call? ==> var e := At(x.sys, w).pc.e; Executed(x.files, e.key, e.args, true).0.Err?
    ensures WriterStep(input, x.sys, Do(w, op))
  {
    hide CrashStopStep, WriterNext, WriterVerifies, Executed;
  }

  lemma EventRecords(c: Config, input: WriterInput, before: Files, x: Shared, w: WorkerId)
    requires Planned(c, input, x.sys) && Recorded(input, before, x)
    ensures Recorded(input, before, Happen(c, x, NextEvent(input, x, w)))
  {
    var a := Do(w, NextWork(input, x, w));
    hide Planned, KeyOf, EntriesOf;
    if IsCall(x.sys, a) {
      var e := At(x.sys, w).pc.e;
      var line := CallAims(c, input, x.sys, w);
      CallLogs(c, x.sys, a);
      hide Apply;
      var item := Applied(e.step, e.key, e.tool, e.args);
      EntriesSnoc(x.sys.world, item);
      assert EntryOf(item) == Entry(e.key, line);
    } else {
      WorldKept(c, x.sys, a);
    }
  }

  lemma EventFiles(c: Config, input: WriterInput, x: Shared, w: WorkerId)
    requires Planned(c, input, x.sys) && Filed(c, input, x) && EventOk(c, input, x, NextEvent(input, x, w))
    ensures Filed(c, input, Happen(c, x, NextEvent(input, x, w)))
  {
    hide Planned, Filed, Apply, CrashStopStep;
    if IsCall(x.sys, Do(w, NextWork(input, x, w))) {
      CallFiles(c, input, x, Do(w, NextWork(input, x, w)), true);
    } else {
      OtherFiles(c, input, x, NextEvent(input, x, w));
    }
  }

  lemma DoubtFree(c: Config, n: nat, tools: seq<string>, args: seq<Json>, s: Sys, w: WorkerId, op: Op)
    requires |tools| == |args| && IsNext(tools, args, s, w, op)
    requires NoDoubt(s, w) && !At(s, w).pc.Call?
    requires At(s, w).pc == Idle || PcGood(n, s.slice.goal, s.slice.effects, At(s, w).pc)
    ensures NoDoubt(Work(c, s, w, op), w) && Work(c, s, w, op).world == s.world
  {
    hide KeyOf;
    if At(s, w).pc.Intend? {
      IntendDoubtFree(c, s, w);
      hide NoDoubt, Work, PcGood;
    }
  }

  lemma IntendDoubtFree(c: Config, s: Sys, w: WorkerId)
    requires NoDoubt(s, w) && At(s, w).pc.Intend?
    ensures NoDoubt(Work(c, s, w, CommitIntent), w) && Work(c, s, w, CommitIntent).world == s.world
  {
    hide KeyOf;
  }

  lemma LonePc(c: Config, n: nat, s: Sys, w: WorkerId)
    requires Alone(c, n, s, w)
    ensures At(s, w).pc == Idle || (PcGood(n, s.slice.goal, s.slice.effects, At(s, w).pc)
                                    && (At(s, w).pc == Leave || HoldsLease(s, w)))
    ensures RowsGood(n, s.slice.effects)
  {
    hide Inv, GoalGood, RowsGood, DoubtOk, TurnsOk, ClaimsOk, PcGood;
  }

  lemma SteadyKeeps(c: Config, input: WriterInput, before: Files, x: Shared, w: WorkerId)
    requires Steady(c, input, before, x, w) && !Refused(input, x.sys, w)
    ensures Steady(c, input, before, Happen(c, x, NextEvent(input, x, w)), w)
  {
    var op := NextWork(input, x, w);
    NextIsNext(c, input, before, x, w);
    NextIsOk(c, input, x, w);
    NextIsWriterStep(c, input, before, x, w);
    PlanFits(input);
    LonePc(c, |input.lines|, x.sys, w);
    hide Planned, Filed, Recorded, Alone, Silent, NextWork, IsNext, WriterStep, EventOk, PcGood, NoDoubt;
    LoneStaysAlone(c, Tools(input), Args(input), x.sys, w, op);
    WorkStaysSilent(c, x.sys, w, op);
    ActionKeepsPlanned(c, input, x.sys, Do(w, op));
    EventFiles(c, input, x, w);
    EventRecords(c, input, before, x, w);
    if BadPath(input.file) {
      DoubtFree(c, |input.lines|, Tools(input), Args(input), x.sys, w, op);
    }
    hide Work;
  }

  // ---- how it ends --------------------------------------------------------------------------------------

  /** The goal is done and all its lines are written, or it failed and none is. */
  ghost predicate Ended(c: Config, input: WriterInput, before: Files, x: Shared, w: WorkerId) {
    && At(x.sys, w).pc == Idle
    && Recorded(input, before, x)
    && if input.lines == [] || !BadPath(input.file) then
         && x.sys.slice.goal.state == Done
         && |x.sys.world| == |input.lines|
         && forall i :: 0 <= i < |x.sys.world| ==> IsPlanEntry(c, input, input.lines, x.sys.world[i], i)
       else
         x.sys.slice.goal.state == State.Failed && x.sys.world == []
  }

  lemma DoneIsEnded(c: Config, input: WriterInput, before: Files, x: Shared, w: WorkerId)
    requires Steady(c, input, before, x, w) && Finished(x.sys, w)
    ensures Ended(c, input, before, x, w)
  {
    hide Planned, Filed, Recorded, Alone, PlanOf, IsPlanEntry, NoDoubt;
    var ctx := DonePlanned(c, input, x.sys);
    SilentPrefix(input, ctx.messages, x.sys.slice.messages);
  }

  /** The refused call is recorded as failed and fails the goal. */
  lemma RefusedFails(c: Config, input: WriterInput, before: Files, x: Shared, w: WorkerId) returns (evs: seq<Event>)
    requires Steady(c, input, before, x, w) && Refused(input, x.sys, w)
    ensures LoneWriter(c, input, x, w, evs) && SharedRun(c, input, x, evs)
    ensures Ended(c, input, before, After(c, x, evs), w)
  {
    RefusedRow(c, input, before, x, w);
    hide Steady, Recorded, LoneWriter, SharedRun, After, StillEmpty, Happen, NextEvent, EventOk;
    var x1 := CallRefused(c, input, before, x, w);
    var x2 := FailureRecorded(c, input, before, x1, w);
    var x3 := GoalFails(c, input, before, x2, w);
    var x4 := Leaves(c, input, before, x3, w);
    Nowhere(c, input, x4, w);
    evs := First(c, input, x3, w, x4, []);
    evs := First(c, input, x2, w, x3, evs);
    evs := First(c, input, x1, w, x2, evs);
    evs := First(c, input, x, w, x1, evs);
  }

  lemma Nowhere(c: Config, input: WriterInput, x: Shared, w: WorkerId)
    ensures LoneWriter(c, input, x, w, []) && SharedRun(c, input, x, []) && After(c, x, []) == x
  {
  }

  /** The worker's next event, before a run of its that goes on from there. */
  lemma First(c: Config, input: WriterInput, x: Shared, w: WorkerId, y: Shared, rest: seq<Event>)
    returns (evs: seq<Event>)
    requires y == Happen(c, x, NextEvent(input, x, w)) && EventOk(c, input, x, NextEvent(input, x, w))
    requires LoneWriter(c, input, y, w, rest) && SharedRun(c, input, y, rest)
    ensures evs == [NextEvent(input, x, w)] + rest
    ensures LoneWriter(c, input, x, w, evs) && SharedRun(c, input, x, evs) && After(c, x, evs) == After(c, y, rest)
  {
    hide Happen, NextEvent, EventOk;
    evs := [NextEvent(input, x, w)] + rest;
    assert evs[1..] == rest;
  }

  /** Nothing written, and the goal is executing under the worker's lease. */
  ghost predicate StillEmpty(c: Config, input: WriterInput, before: Files, x: Shared, w: WorkerId) {
    && Recorded(input, before, x) && x.sys.world == []
    && x.sys.slice.goal.state == Executing && HoldsLease(x.sys, w)
  }

  lemma RefusedRow(c: Config, input: WriterInput, before: Files, x: Shared, w: WorkerId)
    requires Steady(c, input, before, x, w) && Refused(input, x.sys, w)
    ensures var e := At(x.sys, w).pc.e;
            && StillEmpty(c, input, before, x, w)
            && e.step in x.sys.slice.effects && x.sys.slice.effects[e.step].status == Intent
            && x.sys.slice.effects[e.step].step == e.step
            && !Usable(e.args) && DecodeArgs(e.args).Some? && input.lines != []
  {
    LonePc(c, |input.lines|, x.sys, w);
    hide Planned, Filed, Recorded, Alone, Silent, NoDoubt;
    var line := CallAims(c, input, x.sys, w);
    DoubtRow(c, input, x.sys, w);
  }

  lemma CallRefused(c: Config, input: WriterInput, before: Files, x: Shared, w: WorkerId) returns (y: Shared)
    requires StillEmpty(c, input, before, x, w) && At(x.sys, w).pc.Call?
    requires var e := At(x.sys, w).pc.e;
             && e.step in x.sys.slice.effects && x.sys.slice.effects[e.step].status == Intent
             && x.sys.slice.effects[e.step].step == e.step
             && !Usable(e.args) && DecodeArgs(e.args).Some?
    ensures y == Happen(c, x, NextEvent(input, x, w)) && EventOk(c, input, x, NextEvent(input, x, w))
    ensures StillEmpty(c, input, before, y, w) && At(y.sys, w).pc.Learn? && At(y.sys, w).pc.outcome.Err?
    ensures var k := At(y.sys, w).pc.e.step;
            k in y.sys.slice.effects && y.sys.slice.effects[k].status == Intent && y.sys.slice.effects[k].step == k
  {
    y := Happen(c, x, NextEvent(input, x, w));
  }

  lemma FailureRecorded(c: Config, input: WriterInput, before: Files, x: Shared, w: WorkerId) returns (y: Shared)
    requires StillEmpty(c, input, before, x, w) && At(x.sys, w).pc.Learn? && At(x.sys, w).pc.outcome.Err?
    requires var k := At(x.sys, w).pc.e.step;
             k in x.sys.slice.effects && x.sys.slice.effects[k].status == Intent && x.sys.slice.effects[k].step == k
    ensures y == Happen(c, x, NextEvent(input, x, w)) && EventOk(c, input, x, NextEvent(input, x, w))
    ensures StillEmpty(c, input, before, y, w) && At(y.sys, w).pc == Fence(State.Failed, false)
  {
    hide ResultMessage;
    y := Happen(c, x, NextEvent(input, x, w));
  }

  lemma GoalFails(c: Config, input: WriterInput, before: Files, x: Shared, w: WorkerId) returns (y: Shared)
    requires StillEmpty(c, input, before, x, w) && At(x.sys, w).pc == Fence(State.Failed, false)
    ensures y == Happen(c, x, NextEvent(input, x, w)) && EventOk(c, input, x, NextEvent(input, x, w))
    ensures Recorded(input, before, y) && y.sys.world == [] && y.sys.slice.goal.state == State.Failed
    ensures At(y.sys, w).pc == Leave
  {
    y := Happen(c, x, NextEvent(input, x, w));
  }

  lemma Leaves(c: Config, input: WriterInput, before: Files, x: Shared, w: WorkerId) returns (y: Shared)
    requires Recorded(input, before, x) && x.sys.world == [] && x.sys.slice.goal.state == State.Failed
    requires At(x.sys, w).pc == Leave
    ensures y == Happen(c, x, NextEvent(input, x, w)) && EventOk(c, input, x, NextEvent(input, x, w))
    ensures Recorded(input, before, y) && y.sys.world == [] && y.sys.slice.goal.state == State.Failed
    ensures At(y.sys, w).pc == Idle
  {
    y := Happen(c, x, NextEvent(input, x, w));
  }

  lemma {:induction false} LoneEnds(c: Config, input: WriterInput, before: Files, x: Shared, w: WorkerId)
    returns (evs: seq<Event>)
    requires c.maxSteps > 0 && Steady(c, input, before, x, w)
    ensures LoneWriter(c, input, x, w, evs) && SharedRun(c, input, x, evs)
    ensures Ended(c, input, before, After(c, x, evs), w)
    decreases Distance(c, |input.lines|, x.sys, w)
  {
    if Finished(x.sys, w) {
      DoneIsEnded(c, input, before, x, w);
      Nowhere(c, input, x, w);
      evs := [];
    } else if Refused(input, x.sys, w) {
      evs := RefusedFails(c, input, before, x, w);
    } else {
      var y := Happen(c, x, NextEvent(input, x, w));
      Nearing(c, input, before, x, w);
      SteadyKeeps(c, input, before, x, w);
      hide Steady, Happen, NextEvent, Distance, EventOk, Ended, LoneWriter, SharedRun, After;
      var rest := LoneEnds(c, input, before, y, w);
      evs := First(c, input, x, w, y, rest);
    }
  }

  lemma Nearing(c: Config, input: WriterInput, before: Files, x: Shared, w: WorkerId)
    requires c.maxSteps > 0 && Steady(c, input, before, x, w) && !Refused(input, x.sys, w) && !Finished(x.sys, w)
    ensures var y := Happen(c, x, NextEvent(input, x, w));
            0 <= Distance(c, |input.lines|, x.sys, w)
            && Distance(c, |input.lines|, y.sys, w) < Distance(c, |input.lines|, x.sys, w)
    ensures EventOk(c, input, x, NextEvent(input, x, w))
  {
    NextIsNext(c, input, before, x, w);
    NextIsOk(c, input, x, w);
    PlanFits(input);
    hide Planned, Filed, Recorded, Alone, Silent, NextWork, IsNext, EventOk, NoDoubt, Distance, Finished;
    DistanceNatural(c, |input.lines|, x.sys, w);
    LoneDescends(c, Tools(input), Args(input), x.sys, w, NextWork(input, x, w));
  }

  lemma StartIsPlanned(c: Config, input: WriterInput)
    requires APPEND in c.probers
    ensures Planned(c, input, Start(c))
  {
    InitPlanned(c, input);
    hide Planned, PlanOf;
    assert WriterStep(input, INIT, Signal(Approved));
    hide WriterStep;
    ActionKeepsPlanned(c, input, INIT, Signal(Approved));
  }

  lemma StartsSteady(c: Config, input: WriterInput, files: Files, w: WorkerId)
    requires APPEND in c.probers && ValidGoalId(c.goal) && NoneOwned(c, files)
    ensures var x := Shared(INIT, files);
            && EventOk(c, input, x, Act(Signal(Approved), true))
            && Happen(c, x, Act(Signal(Approved), true)) == Shared(Start(c), files)
            && Steady(c, input, files, Shared(Start(c), files), w)
  {
    StartIsPlanned(c, input);
    LoneStart(c, |input.lines|, w);
    StartIsEmpty(c, w);
    hide Planned, Alone, Own, Start, Apply;
  }

  lemma StartIsEmpty(c: Config, w: WorkerId)
    ensures var s := Start(c);
            && s == Apply(c, INIT, Signal(Approved)) && s.slice.messages == [] && s.slice.effects == map[]
            && s.world == [] && At(s, w).pc == Idle
  {
  }

  /**
   Left alone, the worker ends the goal. It gets done if and only if there is nothing to write or the
   file's name is one the tool takes; and then the file has the input's lines added at its end, all of
   them, in order, each once, under the keys of steps 0, 1, 2, and so on, and no other file has changed.
   Otherwise it fails, and no file has changed. The run is the only one: each event is determined by the
   state and the files before it.
  */
  lemma WriterEnds(c: Config, input: WriterInput, files: Files, w: WorkerId)
    returns (lone: seq<Event>, added: seq<Entry>)
    requires c.maxSteps > 0 && APPEND in c.probers && ValidGoalId(c.goal) && NoneOwned(c, files)
    ensures LoneWriter(c, input, Shared(Start(c), files), w, lone)
    ensures SharedRun(c, input, Shared(INIT, files), [Act(Signal(Approved), true)] + lone)
    ensures var x := After(c, Shared(INIT, files), [Act(Signal(Approved), true)] + lone);
            && At(x.sys, w).pc == Idle
            && (x.sys.slice.goal.state == Done <==> input.lines == [] || !BadPath(input.file))
            && (x.sys.slice.goal.state != Done ==> x.sys.slice.goal.state == State.Failed && added == [])
            && (x.sys.slice.goal.state == Done ==>
                  && |added| == |input.lines|
                  && forall i :: 0 <= i < |added| ==> IsPlanLine(c, input, input.lines, added[i], i))
            && forall f :: LinesOf(x.files, f) == LinesOf(files, f) + if f == input.file then added else []
  {
    StartsSteady(c, input, files, w);
    hide Steady, Start, Happen, EventOk, LoneWriter;
    lone := LoneEnds(c, input, files, Shared(Start(c), files), w);
    var all := [Act(Signal(Approved), true)] + lone;
    assert all[1..] == lone;
    var x := After(c, Shared(INIT, files), all);
    assert x == After(c, Shared(Start(c), files), lone);
    hide After, SharedRun;
    added := EntriesOf(x.sys.world);
    AddedPlanned(c, input, files, x, w);
  }

  lemma AddedPlanned(c: Config, input: WriterInput, before: Files, x: Shared, w: WorkerId)
    requires Ended(c, input, before, x, w)
    ensures var added := EntriesOf(x.sys.world);
            && |added| == |x.sys.world|
            && (x.sys.slice.goal.state == Done ==>
                  forall i :: 0 <= i < |added| ==> IsPlanLine(c, input, input.lines, added[i], i))
  {
    EntriesAt(x.sys.world);
    hide KeyOf, LineArgs, Recorded;
    if x.sys.slice.goal.state == Done {
      forall i | 0 <= i < |x.sys.world| ensures IsPlanLine(c, input, input.lines, EntriesOf(x.sys.world)[i], i) {
        assert IsPlanEntry(c, input, input.lines, x.sys.world[i], i);
        LineUsable(input.file, input.lines[i]);
      }
    }
  }
}
