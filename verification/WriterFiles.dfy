/**
 demo.writer end to end, down to the files: its appends and probes are those of fs.append on a directory
 in which other goals write too. Hypotheses: crash-stop claims, files that can be read when they are
 probed, appends that write nothing when they fail, and nobody else writing under this goal's keys.
*/
module WriterFiles {
  import opened CrashStop
  import opened Demo
  import opened EndToEnd
  import opened CallCounts
  import opened Fsm
  import opened Goals
  import opened Guarantees
  import opened Invariants
  import opened Json
  import opened Key
  import opened Protocol
  import opened Safety
  import opened Wrappers

  /** One goal and the directory its tool writes to. */
  datatype Shared = Shared(sys: Sys, files: Files)

  datatype Event =
    | Act(a: Action, io: bool)               // an action on the goal; io: the file system is in order
    | Append(file: string, entry: Entry)     // somebody else's line

  /** The tool is about to be called. */
  predicate IsCall(s: Sys, a: Action) {
    a.Do? && a.op.CallTool? && At(s, a.w).pc.Call? && At(s, a.w).pc.e.step in s.slice.effects
  }

  function FilesAfter(x: Shared, a: Action, io: bool): Files {
    if IsCall(x.sys, a)
    then var e := At(x.sys, a.w).pc.e; Executed(x.files, e.key, e.args, io).1
    else x.files
  }

  function Happen(c: Config, x: Shared, ev: Event): Shared {
    match ev
    case Act(a, io) => Shared(Apply(c, x.sys, a), FilesAfter(x, a, io))
    case Append(file, entry) => x.(files := x.files[file := LinesOf(x.files, file) + [entry]])
  }

  function After(c: Config, x: Shared, evs: seq<Event>): Shared
    decreases |evs|
  {
    if evs == [] then x else After(c, Happen(c, x, evs[0]), evs[1..])
  }

  /** The key of some call of this goal. */
  ghost predicate OfGoal(goal: string, key: string) {
    exists tool: string, args: Json, n: nat :: WellFormed(args) && key == KeyOf(tool, args, goal, n)
  }

  /** Other goals' keys are not this one's. */
  lemma KeysApart(goal: string, other: string, key: string)
    requires ValidGoalId(goal) && ValidGoalId(other) && goal != other && OfGoal(other, key)
    ensures !OfGoal(goal, key)
  {
    hide KeyOf;
    if OfGoal(goal, key) {
      var tool: string, args: Json, n: nat :| WellFormed(args) && key == KeyOf(tool, args, goal, n);
      var tool': string, args': Json, n': nat :| WellFormed(args') && key == KeyOf(tool', args', other, n');
      KeyInjective(tool, args, goal, n, tool', args', other, n');
      assert false;
    }
  }

  /** The agent is demo.writer; tool and probe answer as fs.append does on these files. */
  predicate WriterActs(input: WriterInput, x: Shared, w: WorkerId, op: Op, io: bool) {
    match op
    case Decide(d) => At(x.sys, w).pc.Ask? ==> d == WriterNext(input, At(x.sys, w).pc.ctx)
    case Verify(ok) => At(x.sys, w).pc.Judge? ==> ok == WriterVerifies(input, At(x.sys, w).pc.ctx)
    case AskProbe(answer) =>
      At(x.sys, w).pc.Probe? ==> var e := At(x.sys, w).pc.e; io && answer == Probed(x.files, e.key, e.args, true)
    case CallTool(o, wrote) =>
      At(x.sys, w).pc.Call? ==>
        var e := At(x.sys, w).pc.e; o == Executed(x.files, e.key, e.args, io).0 && wrote == o.Ok?
    case _ => true
  }

  ghost predicate EventOk(c: Config, input: WriterInput, x: Shared, ev: Event) {
    match ev
    case Act(a, io) => CrashStopStep(x.sys, a) && (a.Do? ==> WriterActs(input, x, a.w, a.op, io))
    case Append(_, entry) => !OfGoal(c.goal, entry.key)
  }

  ghost predicate SharedRun(c: Config, input: WriterInput, x: Shared, evs: seq<Event>)
    decreases |evs|
  {
    evs == [] || (EventOk(c, input, x, evs[0]) && SharedRun(c, input, Happen(c, x, evs[0]), evs[1..]))
  }

  /** A new goal, in a directory that holds nothing of its own. */
  ghost predicate NoneOwned(c: Config, files: Files) { forall f :: Own(c.goal, LinesOf(files, f)) == [] }

  // ---- a goal's own lines -------------------------------------------------------------------------

  ghost function Own(goal: string, lines: seq<Entry>): seq<Entry> {
    if lines == [] then []
    else
      var last := lines[|lines| - 1];
      Own(goal, lines[..|lines| - 1]) + if OfGoal(goal, last.key) then [last] else []
  }

  lemma OwnSnoc(goal: string, lines: seq<Entry>, e: Entry)
    ensures Own(goal, lines + [e]) == Own(goal, lines) + if OfGoal(goal, e.key) then [e] else []
  {
    assert (lines + [e])[..|lines|] == lines;
  }

  lemma {:induction false} OwnTagged(goal: string, lines: seq<Entry>, key: string)
    requires OfGoal(goal, key)
    ensures Tagged(lines, key) <==> Tagged(Own(goal, lines), key)
  {
    hide OfGoal;
    if lines != [] {
      var init, last := lines[..|lines| - 1], lines[|lines| - 1];
      OwnTagged(goal, init, key);
      TaggedSnoc(init, last, key);
      assert lines == init + [last];
      TaggedSnoc(Own(goal, init), last, key);
      assert last.key == key ==> OfGoal(goal, last.key);
      if OfGoal(goal, last.key) {
        assert Own(goal, lines) == Own(goal, init) + [last];
      } else {
        assert Own(goal, lines) == Own(goal, init);
      }
    }
  }

  lemma TaggedSnoc(lines: seq<Entry>, e: Entry, key: string)
    ensures Tagged(lines + [e], key) <==> Tagged(lines, key) || e.key == key
  {
    var all := lines + [e];
    assert all[|lines|] == e;
    if Tagged(lines, key) {
      var i :| 0 <= i < |lines| && lines[i].key == key;
      assert all[i].key == key;
    }
  }

  /** The line an entry of the goal's log stands for. */
  function EntryOf(x: Applied): Entry {
    Entry(x.key, if DecodeArgs(x.args).Some? then DecodeArgs(x.args).value.1 else "")
  }

  function EntriesOf(world: seq<Applied>): seq<Entry> {
    if world == [] then [] else EntriesOf(world[..|world| - 1]) + [EntryOf(world[|world| - 1])]
  }

  lemma EntriesSnoc(world: seq<Applied>, x: Applied)
    ensures EntriesOf(world + [x]) == EntriesOf(world) + [EntryOf(x)]
  {
    assert (world + [x])[..|world|] == world;
  }

  lemma {:induction false} EntriesAt(world: seq<Applied>)
    ensures |EntriesOf(world)| == |world|
    ensures forall i :: 0 <= i < |world| ==> EntriesOf(world)[i] == EntryOf(world[i])
  {
    if world != [] {
      EntriesAt(world[..|world| - 1]);
    }
  }

  /** The goal's log of appends is what the files hold of it: in its one file, in this order, and nowhere else. */
  ghost predicate Filed(c: Config, input: WriterInput, x: Shared) {
    forall f :: Own(c.goal, LinesOf(x.files, f)) == if f == input.file then EntriesOf(x.sys.world) else []
  }

  // ---- one event ------------------------------------------------------------------------------------

  /** A call about to be made appends a line of the goal's file under the goal's key. */
  lemma CallAims(c: Config, input: WriterInput, s: Sys, w: WorkerId) returns (line: string)
    requires Planned(c, input, s) && (At(s, w).pc.Call? || At(s, w).pc.Probe?)
    ensures var e := At(s, w).pc.e;
            && e.step in s.slice.effects && SameCall(e, s.slice.effects[e.step])
            && DecodeArgs(e.args) == Some((input.file, line)) && OfGoal(c.goal, e.key)
            && e.key == KeyOf(e.tool, e.args, c.goal, e.step)
  {
    var e := At(s, w).pc.e;
    RowAims(c, input, s, w);
    hide Planned, PlanOf, KeyOf;
    line := PlanOf(input, s.slice.messages)[e.step];
    LineUsable(input.file, line);
    var tool, args, n := e.tool, e.args, e.step;
    assert WellFormed(args) && e.key == KeyOf(tool, args, c.goal, n);
  }

  lemma RowAims(c: Config, input: WriterInput, s: Sys, w: WorkerId)
    requires Planned(c, input, s) && (At(s, w).pc.Call? || At(s, w).pc.Probe?)
    ensures var e := At(s, w).pc.e;
            && e.step in s.slice.effects && SameCall(e, s.slice.effects[e.step])
            && PlannedCall(input, s.slice.messages, e.step, e.tool, e.args)
            && e.key == KeyOf(e.tool, e.args, c.goal, e.step)
  {
    hide PlanOf, KeyOf, CallsBound, ReturnsStored, ResultsDelivered, WritesOrdered, PcPlanned, CountsOk, LogsOk;
    CopyAgrees(c, s, w);
    hide LocalOk, InDoubtOk;
    assert Bound(c, At(s, w).pc.e.step, s.slice.effects[At(s, w).pc.e.step]);
  }

  lemma ProbeIsTrue(c: Config, input: WriterInput, x: Shared, w: WorkerId)
    requires Planned(c, input, x.sys) && Filed(c, input, x) && ValidGoalId(c.goal) && !BadPath(input.file)
    requires At(x.sys, w).pc.Probe?
    ensures var e := At(x.sys, w).pc.e;
            && !Probed(x.files, e.key, e.args, true).Broken?
            && (Probed(x.files, e.key, e.args, true).Happened? <==> Holding(x.sys.world, e.step))
  {
    var s, e := x.sys, At(x.sys, w).pc.e;
    var line := CallAims(c, input, s, w);
    var lines := LinesOf(x.files, input.file);
    OwnTagged(c.goal, lines, e.key);
    assert Own(c.goal, lines) == EntriesOf(s.world);
    hide Filed, Own, OfGoal, KeyOf;
    LoggedTagged(c, input, s, e.step, e);
  }

  /** The log holds an entry under the row's key exactly when it holds one for the row's step. */
  lemma LoggedTagged(c: Config, input: WriterInput, s: Sys, k: nat, e: Effect)
    requires Planned(c, input, s) && ValidGoalId(c.goal) && k in s.slice.effects && SameCall(e, s.slice.effects[k])
    ensures Tagged(EntriesOf(s.world), e.key) <==> Holding(s.world, k)
  {
    hide PlanOf, KeyOf, CallsBound, ReturnsStored, ResultsDelivered, WritesOrdered, PcPlanned, InDoubtOk;
    hide CountsOk, LogsOk, LocalOk, RowsPlanned;
    EntriesAt(s.world);
    InOrderHolding(s.world, s.slice.effects, k);
    assert Bound(c, k, s.slice.effects[k]);
    if Tagged(EntriesOf(s.world), e.key) {
      var i :| 0 <= i < |s.world| && EntriesOf(s.world)[i].key == e.key;
      assert IsEntryOf(s.world[i], i, s.slice.effects) && Bound(c, i, s.slice.effects[i]);
      var f := s.slice.effects[i];
      KeyInjective(f.tool, f.args, c.goal, i, e.tool, e.args, c.goal, k);
    }
    if Holding(s.world, k) {
      assert IsEntryOf(s.world[k], k, s.slice.effects);
      assert EntriesOf(s.world)[k].key == e.key;
    }
  }

  /** On these files the protocol-level hypotheses about the writer hold. */
  lemma EventIsWriterStep(c: Config, input: WriterInput, x: Shared, a: Action, io: bool)
    requires Planned(c, input, x.sys) && Filed(c, input, x) && ValidGoalId(c.goal) && !BadPath(input.file)
    requires EventOk(c, input, x, Act(a, io))
    ensures WriterStep(input, x.sys, a)
  {
    hide Planned, Filed, CrashStopStep, Holding, WriterNext, WriterVerifies;
    if a.Do? && a.op.AskProbe? && At(x.sys, a.w).pc.Probe? {
      ProbeIsTrue(c, input, x, a.w);
    } else if a.Do? && a.op.CallTool? && At(x.sys, a.w).pc.Call? {
      var line := CallAims(c, input, x.sys, a.w);
    }
  }

  /** One line more in the goal's file, one entry more in its log. */
  lemma LineFiled(goal: string, file: string, files: Files, world: seq<Applied>, item: Applied, line: string)
    requires forall f :: Own(goal, LinesOf(files, f)) == if f == file then EntriesOf(world) else []
    requires OfGoal(goal, item.key) && EntryOf(item) == Entry(item.key, line)
    ensures var files' := files[file := LinesOf(files, file) + [Entry(item.key, line)]];
            forall f :: Own(goal, LinesOf(files', f)) == if f == file then EntriesOf(world + [item]) else []
  {
    var files' := files[file := LinesOf(files, file) + [Entry(item.key, line)]];
    EntriesSnoc(world, item);
    OwnSnoc(goal, LinesOf(files, file), Entry(item.key, line));
    hide OfGoal, EntriesOf, EntryOf, Own;
    forall f ensures Own(goal, LinesOf(files', f)) == if f == file then EntriesOf(world + [item]) else [] {
      assert Own(goal, LinesOf(files, f)) == if f == file then EntriesOf(world) else [];
    }
  }

  lemma CallFiles(c: Config, input: WriterInput, x: Shared, a: Action, io: bool)
    requires Planned(c, input, x.sys) && Filed(c, input, x) && IsCall(x.sys, a)
    requires WriterActs(input, x, a.w, a.op, io)
    ensures Filed(c, input, Happen(c, x, Act(a, io)))
  {
    hide Planned, KeyOf, OfGoal, EntriesOf, Own, Apply;
    var e := At(x.sys, a.w).pc.e;
    var line := CallAims(c, input, x.sys, a.w);
    CallLogs(c, x.sys, a);
    if Executed(x.files, e.key, e.args, io).0.Ok? {
      LineFiled(c.goal, input.file, x.files, x.sys.world, Applied(e.step, e.key, e.tool, e.args), line);
    }
  }

  lemma CallLogs(c: Config, s: Sys, a: Action)
    requires IsCall(s, a)
    ensures var e := At(s, a.w).pc.e;
            Apply(c, s, a).world == if a.op.wrote then s.world + [Applied(e.step, e.key, e.tool, e.args)] else s.world
  {
  }

  lemma OtherFiles(c: Config, input: WriterInput, x: Shared, ev: Event)
    requires Filed(c, input, x) && EventOk(c, input, x, ev) && (ev.Act? ==> !IsCall(x.sys, ev.a))
    ensures Filed(c, input, Happen(c, x, ev))
  {
    hide OfGoal;
    match ev
    case Act(a, io) =>
      WorldKept(c, x.sys, a);
    case Append(file, entry) =>
      OwnSnoc(c.goal, LinesOf(x.files, file), entry);
      var y := Happen(c, x, ev);
      forall f ensures Own(c.goal, LinesOf(y.files, f)) == Own(c.goal, LinesOf(x.files, f)) {
      }
  }

  lemma WorldKept(c: Config, s: Sys, a: Action)
    requires !IsCall(s, a)
    ensures Apply(c, s, a).world == s.world
  {
    if a.Do? {
      WorkKeepsWorld(c, s, a.w, a.op);
    }
  }

  lemma WorkKeepsWorld(c: Config, s: Sys, w: WorkerId, op: Op)
    requires !IsCall(s, Do(w, op))
    ensures Work(c, s, w, op).world == s.world
  {
    hide KeyOf, ResultMessage;
  }

  lemma EventKeeps(c: Config, input: WriterInput, x: Shared, ev: Event)
    requires Planned(c, input, x.sys) && Filed(c, input, x) && ValidGoalId(c.goal) && !BadPath(input.file)
    requires EventOk(c, input, x, ev)
    ensures Planned(c, input, Happen(c, x, ev).sys) && Filed(c, input, Happen(c, x, ev))
  {
    hide Planned, Filed, WriterStep, Apply;
    if ev.Act? {
      EventIsWriterStep(c, input, x, ev.a, ev.io);
      ActionKeepsPlanned(c, input, x.sys, ev.a);
    }
    if ev.Act? && IsCall(x.sys, ev.a) {
      CallFiles(c, input, x, ev.a, ev.io);
    } else {
      OtherFiles(c, input, x, ev);
    }
  }

  // ---- every run --------------------------------------------------------------------------------------

  lemma {:induction false} RunKeepsFiles(c: Config, input: WriterInput, x: Shared, evs: seq<Event>)
    requires Planned(c, input, x.sys) && Filed(c, input, x) && ValidGoalId(c.goal) && !BadPath(input.file)
    requires SharedRun(c, input, x, evs)
    ensures var y := After(c, x, evs); Planned(c, input, y.sys) && Filed(c, input, y)
    decreases |evs|
  {
    hide Planned, Filed, EventOk, Happen;
    if evs != [] {
      EventKeeps(c, input, x, evs[0]);
      RunKeepsFiles(c, input, Happen(c, x, evs[0]), evs[1..]);
    }
  }

  /** The i-th line of the goal in its file is its plan's i-th, tagged with the key of step i. */
  predicate IsPlanLine(c: Config, input: WriterInput, plan: seq<string>, e: Entry, i: nat) {
    i < |plan| && e == Entry(KeyOf(APPEND, LineArgs(input.file, plan[i]), c.goal, i), plan[i])
  }

  lemma LinesArePlanned(c: Config, input: WriterInput, plan: seq<string>, x: Shared)
    requires Filed(c, input, x)
    requires forall i :: 0 <= i < |x.sys.world| ==> IsPlanEntry(c, input, plan, x.sys.world[i], i)
    ensures var own := Own(c.goal, LinesOf(x.files, input.file));
            && |own| == |x.sys.world|
            && forall i :: 0 <= i < |own| ==> IsPlanLine(c, input, plan, own[i], i)
  {
    EntriesAt(x.sys.world);
    hide KeyOf, LineArgs;
    forall i | 0 <= i < |x.sys.world| ensures IsPlanLine(c, input, plan, EntriesOf(x.sys.world)[i], i) {
      assert IsPlanEntry(c, input, plan, x.sys.world[i], i);
      LineUsable(input.file, plan[i]);
    }
  }

  /**
   At every point of every run, whatever crashed and was claimed again and whoever else wrote, this goal's
   lines in its file are exactly the plan's lines 0, 1, …, k-1 in order, each once, and k is the cursor or
   one more; in no other file has it any line.
  */
  lemma FileFollowsPlan(c: Config, input: WriterInput, files: Files, evs: seq<Event>)
    requires APPEND in c.probers && ValidGoalId(c.goal) && !BadPath(input.file) && NoneOwned(c, files)
    requires SharedRun(c, input, Shared(INIT, files), evs)
    ensures var x := After(c, Shared(INIT, files), evs);
            var own := Own(c.goal, LinesOf(x.files, input.file));
            && x.sys.slice.goal.cursor <= |own| <= x.sys.slice.goal.cursor + 1
            && (forall i :: 0 <= i < |own| ==> IsPlanLine(c, input, PlanOf(input, x.sys.slice.messages), own[i], i))
            && forall f :: f != input.file ==> Own(c.goal, LinesOf(x.files, f)) == []
  {
    StartFiled(c, input, files);
    RunKeepsFiles(c, input, Shared(INIT, files), evs);
    var x := After(c, Shared(INIT, files), evs);
    hide After, SharedRun, NoneOwned, PlanOf, IsPlanEntry, IsPlanLine;
    EntriesPlanned(c, input, x.sys);
    LinesArePlanned(c, input, PlanOf(input, x.sys.slice.messages), x);
  }

  lemma StartFiled(c: Config, input: WriterInput, files: Files)
    requires APPEND in c.probers && NoneOwned(c, files)
    ensures Planned(c, input, INIT) && Filed(c, input, Shared(INIT, files))
  {
    InitPlanned(c, input);
    hide Planned;
  }

  /**
   What CrashStop asks of probes, proved for this one: at every point of every run the scan says that the
   call happened exactly when the step's line was written, and it never breaks.
  */
  lemma ProbeTellsTruth(c: Config, input: WriterInput, files: Files, evs: seq<Event>, w: WorkerId)
    requires APPEND in c.probers && ValidGoalId(c.goal) && !BadPath(input.file) && NoneOwned(c, files)
    requires SharedRun(c, input, Shared(INIT, files), evs)
    requires At(After(c, Shared(INIT, files), evs).sys, w).pc.Probe?
    ensures var x := After(c, Shared(INIT, files), evs);
            var e := At(x.sys, w).pc.e;
            var answer := Probed(x.files, e.key, e.args, true);
            answer != Broken && (answer.Happened? <==> Holding(x.sys.world, e.step))
  {
    StartFiled(c, input, files);
    RunKeepsFiles(c, input, Shared(INIT, files), evs);
    hide After, SharedRun, NoneOwned, Planned;
    ProbeIsTrue(c, input, After(c, Shared(INIT, files), evs), w);
  }

  /** A goal that is done left exactly the plan that an accepted Verify had read: all its lines, nothing more. */
  lemma DoneMeansWholePlan(c: Config, input: WriterInput, files: Files, evs: seq<Event>) returns (ctx: Context)
    requires APPEND in c.probers && ValidGoalId(c.goal) && !BadPath(input.file) && NoneOwned(c, files)
    requires SharedRun(c, input, Shared(INIT, files), evs)
    requires After(c, Shared(INIT, files), evs).sys.slice.goal.state == Done
    ensures var x := After(c, Shared(INIT, files), evs);
            var own, plan := Own(c.goal, LinesOf(x.files, input.file)), PlanOf(input, ctx.messages);
            && ctx in x.sys.hist.verdicts && ctx.messages <= x.sys.slice.messages
            && |own| == |plan| && forall i :: 0 <= i < |own| ==> IsPlanLine(c, input, plan, own[i], i)
  {
    StartFiled(c, input, files);
    RunKeepsFiles(c, input, Shared(INIT, files), evs);
    var x := After(c, Shared(INIT, files), evs);
    hide After, SharedRun, NoneOwned, PlanOf, IsPlanEntry, IsPlanLine, Planned;
    ctx := DonePlanned(c, input, x.sys);
    LinesArePlanned(c, input, PlanOf(input, ctx.messages), x);
  }

  // ---- a file name the tool does not take -----------------------------------------------------------

  predicate Aimed(input: WriterInput, args: Json) {
    DecodeArgs(args).Some? && DecodeArgs(args).value.0 == input.file
  }

  predicate PcAimed(input: WriterInput, pc: Pc) {
    match pc
    case Intend(_, _, args) => Aimed(input, args)
    case Request(_, _, _) => false
    case _ => true
  }

  /** Every recorded or intended call is for the input's file. */
  ghost predicate AimOk(input: WriterInput, s: Sys) {
    && (forall k :: k in s.slice.effects ==> Aimed(input, s.slice.effects[k].args))
    && forall w: WorkerId :: PcAimed(input, At(s, w).pc)
  }

  lemma AimRows(c: Config, input: WriterInput, s: Sys, w: WorkerId, op: Op)
    requires Inv(c, s) && AimOk(input, s)
    ensures var t := Work(c, s, w, op); forall k :: k in t.slice.effects ==> Aimed(input, t.slice.effects[k].args)
  {
    hide KeyOf, ResultMessage, CallsBound, ReturnsStored, ResultsDelivered, WritesOrdered, LocalOk, Aimed;
    ActionKeepsInv(c, s, Do(w, op));
    var t := Work(c, s, w, op);
    assert PcAimed(input, At(s, w).pc);
    if op.CommitIntent? || op.AdvanceCursor? || op.Transition? {
      FencedRows(c, input, s, w, op);
    } else {
      OthersUnfenced(c, s, w, op);
      hide Work, Inv;
      assert t.slice.effects.Keys == s.slice.effects.Keys;
      assert forall k :: k in t.slice.effects ==>
        k in s.slice.effects && SameCall(s.slice.effects[k], t.slice.effects[k]);
    }
  }

  lemma FencedRows(c: Config, input: WriterInput, s: Sys, w: WorkerId, op: Op)
    requires AimOk(input, s) && PcAimed(input, At(s, w).pc)
    requires op.CommitIntent? || op.AdvanceCursor? || op.Transition?
    ensures var t := Work(c, s, w, op); forall k :: k in t.slice.effects ==> Aimed(input, t.slice.effects[k].args)
  {
    hide KeyOf, Aimed;
  }

  lemma AimPc(c: Config, input: WriterInput, x: Shared, w: WorkerId, op: Op, io: bool)
    requires AimOk(input, x.sys) && WriterActs(input, x, w, op, io)
    ensures PcAimed(input, At(Work(c, x.sys, w, op), w).pc)
  {
    var s := x.sys;
    hide KeyOf, ResultMessage, Aimed;
    assert PcAimed(input, At(s, w).pc);
    if op.Decide? {
      AimDecision(c, input, x, w, op.d, io);
    } else if op.LookUp? {
    } else {
      NoNewIntend(c, s, w, op);
      hide Work;
    }
  }

  lemma AimDecision(c: Config, input: WriterInput, x: Shared, w: WorkerId, d: Decision, io: bool)
    requires PcAimed(input, At(x.sys, w).pc) && WriterActs(input, x, w, Decide(d), io)
    ensures PcAimed(input, At(DoDecide(x.sys, w, d), w).pc)
  {
    if At(x.sys, w).pc.Ask? && d.Invoke? {
      var ctx := At(x.sys, w).pc.ctx;
      LineUsable(input.file, PlanOf(input, ctx.messages)[ctx.step]);
    }
  }

  lemma NoNewIntend(c: Config, s: Sys, w: WorkerId, op: Op)
    requires !op.Decide? && !op.LookUp?
    ensures var pc := At(Work(c, s, w, op), w).pc; pc.Intend? || pc.Request? ==> pc == At(s, w).pc
  {
    hide KeyOf, ResultMessage;
  }

  lemma EventAims(c: Config, input: WriterInput, x: Shared, ev: Event)
    requires Inv(c, x.sys) && AimOk(input, x.sys) && EventOk(c, input, x, ev)
    ensures Inv(c, Happen(c, x, ev).sys) && AimOk(input, Happen(c, x, ev).sys)
  {
    if ev.Act? {
      var s, t := x.sys, Apply(c, x.sys, ev.a);
      ActionKeepsInv(c, s, ev.a);
      if ev.a.Do? {
        var w, op := ev.a.w, ev.a.op;
        AimRows(c, input, s, w, op);
        AimPc(c, input, x, w, op, ev.io);
        WorkAlone(c, s, w, op);
        hide Work, Inv, Aimed, PcAimed;
        forall v: WorkerId ensures PcAimed(input, At(t, v).pc) {
          assert PcAimed(input, At(s, v).pc);
        }
      } else {
        OutsideAims(c, input, s, ev.a);
      }
    }
  }

  lemma OutsideAims(c: Config, input: WriterInput, s: Sys, a: Action)
    requires !a.Do? && AimOk(input, s) && Inv(c, s)
    ensures AimOk(input, Apply(c, s, a))
  {
    hide Inv, Aimed, PcAimed;
    assert Apply(c, s, a).workers == s.workers;
    assert forall v: WorkerId :: At(Apply(c, s, a), v) == At(s, v);
    if a.Resolve? && a.step in s.slice.effects {
      RowNamedInv(c, s, a.step);
    }
  }

  /** Nothing the goal does reaches a file. */
  lemma NothingWritten(c: Config, input: WriterInput, x: Shared, ev: Event)
    requires Inv(c, x.sys) && AimOk(input, x.sys) && BadPath(input.file) && EventOk(c, input, x, ev)
    requires x.sys.world == [] && NoneOwned(c, x.files)
    ensures Happen(c, x, ev).sys.world == [] && NoneOwned(c, Happen(c, x, ev).files)
  {
    hide Inv, AimOk, NoneOwned, CrashStopStep, Apply;
    if ev.Act? && IsCall(x.sys, ev.a) {
      RefusedCall(c, input, x, ev.a, ev.io);
    } else if ev.Act? {
      WorldKept(c, x.sys, ev.a);
    } else {
      StrangersLine(c, x, ev.file, ev.entry);
    }
  }

  lemma RefusedCall(c: Config, input: WriterInput, x: Shared, a: Action, io: bool)
    requires Inv(c, x.sys) && AimOk(input, x.sys) && BadPath(input.file)
    requires IsCall(x.sys, a) && WriterActs(input, x, a.w, a.op, io)
    ensures Apply(c, x.sys, a).world == x.sys.world && FilesAfter(x, a, io) == x.files
  {
    hide Inv, Apply;
    CopyAgrees(c, x.sys, a.w);
    CallLogs(c, x.sys, a);
  }

  lemma StrangersLine(c: Config, x: Shared, file: string, entry: Entry)
    requires NoneOwned(c, x.files) && !OfGoal(c.goal, entry.key)
    ensures NoneOwned(c, Happen(c, x, Append(file, entry)).files)
  {
    hide OfGoal;
    OwnSnoc(c.goal, LinesOf(x.files, file), entry);
    var y := Happen(c, x, Append(file, entry));
    forall f ensures Own(c.goal, LinesOf(y.files, f)) == [] {
      assert Own(c.goal, LinesOf(x.files, f)) == [];
    }
  }

  lemma {:induction false} NothingEver(c: Config, input: WriterInput, x: Shared, evs: seq<Event>)
    requires Inv(c, x.sys) && AimOk(input, x.sys) && BadPath(input.file) && SharedRun(c, input, x, evs)
    requires x.sys.world == [] && NoneOwned(c, x.files)
    ensures After(c, x, evs).sys.world == [] && NoneOwned(c, After(c, x, evs).files)
    decreases |evs|
  {
    hide Inv, AimOk, EventOk, Happen, NoneOwned;
    if evs != [] {
      EventAims(c, input, x, evs[0]);
      NothingWritten(c, input, x, evs[0]);
      NothingEver(c, input, Happen(c, x, evs[0]), evs[1..]);
    }
  }

  /** With a file name the tool does not take, no run ever writes a line, however it goes on. */
  lemma BadFileWritesNothing(c: Config, input: WriterInput, files: Files, evs: seq<Event>)
    requires BadPath(input.file) && NoneOwned(c, files) && SharedRun(c, input, Shared(INIT, files), evs)
    ensures NoneOwned(c, After(c, Shared(INIT, files), evs).files)
  {
    InitInv(c);
    NothingEver(c, input, Shared(INIT, files), evs);
  }
}
