/**
 The goal / lease / effect protocol as a transition system, for one goal and any number of workers.

 Every database transaction and every call of a tool, probe, agent or authoriser is one atomic
 action; between two of them a worker's position and local copies are kept in its `Local`.
 `Apply` is total: an action that is not enabled changes nothing, so a run is any sequence of actions.
*/
module Protocol {
  import opened Fsm
  import opened Goals
  import opened Json
  import opened Key
  import opened Wrappers

  /** The goal's id, the driver's iteration bound and the tools that have a probe. */
  datatype Config = Config(goal: string, maxSteps: nat, probers: set<string>)

  // ---- worker-local state ---------------------------------------------------------------

  /** What the agent sees: the loaded cursor, the committed steps and the messages. */
  datatype Context = Context(step: nat, history: map<nat, StepRow>, messages: seq<Message>)

  datatype Decision =
    | Refuse                                 // Next failed, or the action says to fail
    | Finish
    | Approval(tool: string, args: Json)     // record for review, never invoke
    | Invoke(tool: string, args: Json)

  /** Where a worker stands: the transaction or call it is about to make. */
  datatype Pc =
    | Idle
    | Head                                               // drive: load the goal
    | Look(step: nat)                                    // step: read the cursor's effect row
    | ReadSteps(step: nat, verify: bool)
    | ReadMessages(step: nat, history: map<nat, StepRow>, verify: bool)
    | Ask(ctx: Context)                                  // agent.Next
    | Judge(ctx: Context)                                // agent.Verify
    | Intend(step: nat, tool: string, args: Json)        // Run: commit the intent
    | Request(step: nat, tool: string, args: Json)       // RequestApproval: commit the intent
    | Flag(e: Effect)                                    // mark needs_review
    | Probe(e: Effect)
    | Authorize(e: Effect)
    | Mark(e: Effect)                                    // count the attempt
    | Call(e: Effect)                                    // invoke the tool
    | Learn(e: Effect, outcome: Outcome)                 // commit the result
    | Advance(e: Effect)                                 // commit the step
    | Fence(to: State, again: bool)                      // fenced transition, then loop or leave
    | Leave                                              // release the lease

  datatype Local = Local(epoch: nat, iter: nat, pc: Pc)

  // ---- history ----------------------------------------------------------------------------

  datatype FencedWrite = FencedWrite(epoch: nat, worker: WorkerId)
  datatype Invocation = Invocation(step: nat, key: string, tool: string, args: Json, status: Status)
  datatype RunOk = RunOk(step: nat, result: Option<Json>)
  datatype Applied = Applied(step: nat, key: string, tool: string, args: Json)

  datatype History = History(
    grants: seq<WorkerId>,           // grants[e - 1] is the worker that claimed epoch e
    writes: seq<FencedWrite>,        // accepted fenced writes: intent created, step committed, transition
    calls: seq<Invocation>,          // tool invocations, with the row's status at the time
    retries: map<nat, nat>,          // operator "retry" resolutions per step
    successes: seq<RunOk>,          // successful returns of Run
    delivered: map<nat, nat>,        // step -> index of the tool_result message its result delivered
    settledByOperator: set<nat>,     // steps whose committed status came from a resolution
    posted: nat,                     // messages posted from outside
    approved: bool,                  // some transition to approved happened
    verdicts: seq<Context>,          // contexts the agent's Verify accepted
    loads: nat,                      // iterations of the driver loop that found the lease held
    crashes: nat)

  datatype Sys = Sys(
    slice: Slice,
    workers: map<WorkerId, Local>,
    resumes: set<State>,             // targets read by resume handlers that have not written yet
    world: seq<Applied>,             // side effects that reached the outside
    hist: History)

  const NEW_HISTORY := History([], [], [], map[], [], map[], {}, 0, false, [], 0, 0)
  const INIT := Sys(NEW_SLICE, map[], {}, [], NEW_HISTORY)

  // ---- actions ------------------------------------------------------------------------------

  datatype ProbeAnswer = Broken | Missing | Happened(result: Option<Json>)

  datatype Op =
    | Claim
    | Heartbeat
    | Load(known: bool)              // known: the goal's agent is registered
    | LookUp
    | ReadHistory
    | ReadMail
    | Decide(d: Decision)
    | Verify(ok: bool)
    | CommitIntent
    | FlagReview(why: string)
    | AskProbe(answer: ProbeAnswer)
    | Authorise(allow: bool)
    | MarkAttempt
    | CallTool(outcome: Outcome, wrote: bool)
    | RecordResult
    | AdvanceCursor
    | Transition
    | Release
    | Fault                          // a database error, a cancelled context, an unknown tool
    | Crash                          // the process dies and comes back empty

  datatype Action =
    | Do(w: WorkerId, op: Op)
    | Signal(to: State)              // API: approve, pause, cancel
    | ResumeRead
    | ResumeWrite(to: State)
    | Resolve(step: nat, how: Resolution, result: Option<Json>)
    | Post(source: Source, body: Json)
    | Expire                         // the lease's time runs out

  function At(s: Sys, w: WorkerId): Local {
    if w in s.workers then s.workers[w] else Local(0, 0, Idle)
  }

  function Go(s: Sys, w: WorkerId, pc: Pc): Sys {
    s.(workers := s.workers[w := At(s, w).(pc := pc)])
  }

  function Next(s: Sys, w: WorkerId): Sys {
    s.(workers := s.workers[w := At(s, w).(pc := Head, iter := At(s, w).iter + 1)])
  }

  predicate HoldsLease(s: Sys, w: WorkerId) { Holds(s.slice.goal, w, At(s, w).epoch) }

  function LogWrite(s: Sys, w: WorkerId): Sys {
    s.(hist := s.hist.(writes := s.hist.writes + [FencedWrite(At(s, w).epoch, w)]))
  }

  /** Transition under the fsm's table; `approved` remembers that it happened. */
  function Transit(s: Sys, to: State): Sys
  {
    s.(slice := WithGoal(s.slice, Moved(s.slice.goal, to)),
       hist := s.hist.(approved := s.hist.approved || to == Approved))
  }

  function FailFrom(from: State): State { if from == Approved then Cancelled else State.Failed }

  /** How an effect row that already existed is handled. */
  function Settle(c: Config, e: Effect): Pc {
    match e.status
    case Committed => Advance(e)
    case Failed => Fence(State.Failed, false)
    case NeedsReview => Fence(Paused, false)
    case Intent =>
      if e.attempts == 0 then Authorize(e)
      else if e.tool in c.probers then Probe(e)
      else Flag(e)
  }

  function SettleFinal(e: Effect): Pc {
    match e.status
    case Committed => Advance(e)
    case Failed => Fence(State.Failed, false)
    case _ => Fence(Paused, false)
  }

  /** Moves on to `pc`; reaching Advance is a successful return of Run. */
  function Proceed(s: Sys, w: WorkerId, pc: Pc): Sys {
    var s' := Go(s, w, pc);
    if pc.Advance?
    then s'.(hist := s'.hist.(successes := s'.hist.successes + [RunOk(pc.e.step, pc.e.result)]))
    else s'
  }

  // ---- worker operations --------------------------------------------------------------------

  function DoClaim(s: Sys, w: WorkerId): Sys {
    if At(s, w).pc != Idle || !Claimable(s.slice.goal) then s
    else
      var g := Claimed(s.slice.goal, w);
      s.(slice := WithGoal(s.slice, g),
         workers := s.workers[w := Local(g.epoch, 0, Head)],
         hist := s.hist.(grants := s.hist.grants + [w]))
  }

  function DoLoad(c: Config, s: Sys, w: WorkerId, known: bool): Sys {
    var g := s.slice.goal;
    if At(s, w).pc != Head then s
    else if At(s, w).iter >= c.maxSteps || !HoldsLease(s, w) then Go(s, w, Leave)
    else
      var s' := s.(hist := s.hist.(loads := s.hist.loads + 1));
      if !known then Go(s', w, Fence(FailFrom(g.state), false))
      else if g.state == Approved then Go(s', w, Fence(Executing, true))
      else if g.state == Executing then Go(s', w, Look(g.cursor))
      else if g.state == Verifying then Go(s', w, ReadSteps(g.cursor, true))
      else Go(s', w, Leave)
  }

  function DoLookUp(s: Sys, w: WorkerId): Sys {
    match At(s, w).pc
    case Look(k) =>
      if k in s.slice.effects then Go(s, w, Intend(k, s.slice.effects[k].tool, s.slice.effects[k].args))
      else Go(s, w, ReadSteps(k, false))
    case _ => s
  }

  function DoRead(s: Sys, w: WorkerId): Sys {
    match At(s, w).pc
    case ReadSteps(k, verify) => Go(s, w, ReadMessages(k, s.slice.steps, verify))
    case _ => s
  }

  function DoReadMail(s: Sys, w: WorkerId): Sys {
    match At(s, w).pc
    case ReadMessages(k, h, verify) =>
      var ctx := Context(k, h, s.slice.messages);
      Go(s, w, if verify then Judge(ctx) else Ask(ctx))
    case _ => s
  }

  function DoDecide(s: Sys, w: WorkerId, d: Decision): Sys {
    match At(s, w).pc
    case Ask(ctx) =>
      (match d
       case Refuse => Go(s, w, Fence(State.Failed, false))
       case Finish => Go(s, w, Fence(Verifying, true))
       case Approval(tool, args) => if WellFormed(args) then Go(s, w, Request(ctx.step, tool, args)) else s
       case Invoke(tool, args) => if WellFormed(args) then Go(s, w, Intend(ctx.step, tool, args)) else s)
    case _ => s
  }

  function DoVerify(s: Sys, w: WorkerId, ok: bool): Sys {
    match At(s, w).pc
    case Judge(ctx) =>
      if ok then Go(s.(hist := s.hist.(verdicts := s.hist.verdicts + [ctx])), w, Fence(Done, false))
      else Go(s, w, Fence(State.Failed, false))
    case _ => s
  }

  function InsertIntent(c: Config, s: Sys, w: WorkerId, k: nat, tool: string, args: Json): Sys {
    LogWrite(s, w).(slice := WithEffect(s.slice, NewEffect(KeyOf(tool, args, c.goal, k), k, tool, args)))
  }

  function DoCommitIntent(c: Config, s: Sys, w: WorkerId): Sys {
    match At(s, w).pc
    case Intend(k, tool, args) =>
      if !HoldsLease(s, w) then Go(s, w, Leave)
      else if k !in s.slice.effects then
        var s' := InsertIntent(c, s, w, k, tool, args);
        Go(s', w, Authorize(s'.slice.effects[k]))
      else
        var e := s.slice.effects[k];
        if e.key != KeyOf(tool, args, c.goal, k) then Go(s, w, Leave)   // bound to a different call
        else Proceed(s, w, Settle(c, e))
    case Request(k, tool, args) =>
      if !HoldsLease(s, w) then Go(s, w, Leave)
      else if k !in s.slice.effects then
        var s' := InsertIntent(c, s, w, k, tool, args);
        Go(s', w, Flag(s'.slice.effects[k]))
      else Go(s, w, Fence(Paused, false))
    case _ => s
  }

  function DoFlag(s: Sys, w: WorkerId, why: string): Sys {
    match At(s, w).pc
    case Flag(e) =>
      if e.step !in s.slice.effects then s
      else Go(s.(slice := WithEffect(s.slice, Flagged(s.slice.effects[e.step], why))), w, Fence(Paused, false))
    case _ => s
  }

  function DoProbe(s: Sys, w: WorkerId, answer: ProbeAnswer): Sys {
    match At(s, w).pc
    case Probe(e) =>
      (match answer
       case Broken => Go(s, w, Flag(e))
       case Missing => Go(s, w, Authorize(e))
       case Happened(r) => Go(s, w, Learn(e, Ok(r))))
    case _ => s
  }

  function DoAuthorise(s: Sys, w: WorkerId, allow: bool): Sys {
    match At(s, w).pc
    case Authorize(e) => Go(s, w, if allow then Mark(e) else Fence(Paused, false))
    case _ => s
  }

  function DoMark(s: Sys, w: WorkerId): Sys {
    match At(s, w).pc
    case Mark(e) =>
      if e.step !in s.slice.effects then s
      else Go(s.(slice := WithEffect(s.slice, Attempted(s.slice.effects[e.step]))), w, Call(e))
    case _ => s
  }

  function DoCall(s: Sys, w: WorkerId, o: Outcome, wrote: bool): Sys {
    match At(s, w).pc
    case Call(e) =>
      if e.step !in s.slice.effects then s
      else
        var call := Invocation(e.step, e.key, e.tool, e.args, s.slice.effects[e.step].status);
        Go(s.(world := if wrote then s.world + [Applied(e.step, e.key, e.tool, e.args)] else s.world,
              hist := s.hist.(calls := s.hist.calls + [call])),
           w, Learn(e, o))
    case _ => s
  }

  function DoRecord(s: Sys, w: WorkerId): Sys {
    match At(s, w).pc
    case Learn(e, o) =>
      if e.step !in s.slice.effects then s
      else
        var slice' := CommitResult(s.slice, e.step, o);
        var first := s.slice.effects[e.step].status == Intent && o.Ok?;
        var hist' := if first then s.hist.(delivered := s.hist.delivered[e.step := |s.slice.messages|]) else s.hist;
        Proceed(s.(slice := slice', hist := hist'), w, SettleFinal(slice'.effects[e.step]))
    case _ => s
  }

  function DoAdvance(s: Sys, w: WorkerId): Sys {
    match At(s, w).pc
    case Advance(e) =>
      if !HoldsLease(s, w) || s.slice.goal.cursor != e.step || e.step in s.slice.steps then Go(s, w, Leave)
      else Next(LogWrite(s, w).(slice := CommitStep(s.slice, e)), w)
    case _ => s
  }

  function DoTransition(s: Sys, w: WorkerId): Sys {
    match At(s, w).pc
    case Fence(to, again) =>
      if !HoldsLease(s, w) || !CanTransition(s.slice.goal.state, to) then Go(s, w, Leave)
      else
        var s' := Transit(LogWrite(s, w), to);
        if again then Next(s', w) else Go(s', w, Leave)
    case _ => s
  }

  function DoRelease(s: Sys, w: WorkerId): Sys {
    if At(s, w).pc != Leave then s
    else Go(s.(slice := WithGoal(s.slice, Released(s.slice.goal, w, At(s, w).epoch))), w, Idle)
  }

  function DoHeartbeat(s: Sys, w: WorkerId): Sys {
    if At(s, w).pc == Idle then s
    else s.(slice := WithGoal(s.slice, Beaten(s.slice.goal, w, At(s, w).epoch)))
  }

  function DoFault(s: Sys, w: WorkerId): Sys {
    if At(s, w).pc == Idle then s else Go(s, w, Leave)
  }

  function DoCrash(s: Sys, w: WorkerId): Sys {
    if At(s, w).pc == Idle then s
    else Go(s.(hist := s.hist.(crashes := s.hist.crashes + 1)), w, Idle)
  }

  function Work(c: Config, s: Sys, w: WorkerId, op: Op): Sys {
    match op
    case Claim => DoClaim(s, w)
    case Heartbeat => DoHeartbeat(s, w)
    case Load(known) => DoLoad(c, s, w, known)
    case LookUp => DoLookUp(s, w)
    case ReadHistory => DoRead(s, w)
    case ReadMail => DoReadMail(s, w)
    case Decide(d) => DoDecide(s, w, d)
    case Verify(ok) => DoVerify(s, w, ok)
    case CommitIntent => DoCommitIntent(c, s, w)
    case FlagReview(why) => DoFlag(s, w, why)
    case AskProbe(answer) => DoProbe(s, w, answer)
    case Authorise(allow) => DoAuthorise(s, w, allow)
    case MarkAttempt => DoMark(s, w)
    case CallTool(o, wrote) => DoCall(s, w, o, wrote)
    case RecordResult => DoRecord(s, w)
    case AdvanceCursor => DoAdvance(s, w)
    case Transition => DoTransition(s, w)
    case Release => DoRelease(s, w)
    case Fault => DoFault(s, w)
    case Crash => DoCrash(s, w)
  }

  // ---- operators, the clock and other senders -----------------------------------------------

  function DoSignal(s: Sys, to: State): Sys {
    if (to == Approved || to == Paused || to == Cancelled) && CanTransition(s.slice.goal.state, to)
    then Transit(s, to) else s
  }

  function DoResumeRead(s: Sys): Sys {
    if s.slice.goal.state == Paused && s.slice.goal.pausedFrom.Some?
    then s.(resumes := s.resumes + {s.slice.goal.pausedFrom.value}) else s
  }

  function DoResumeWrite(s: Sys, to: State): Sys {
    if to in s.resumes && CanTransition(s.slice.goal.state, to) then Transit(s, to) else s
  }

  function DoResolve(s: Sys, k: nat, how: Resolution, r: Option<Json>): Sys {
    if k !in s.slice.effects || s.slice.effects[k].status != NeedsReview then s
    else
      var retried := if k in s.hist.retries then s.hist.retries[k] else 0;
      s.(slice := WithEffect(s.slice, Resolved(s.slice.effects[k], how, r)),
         hist := s.hist.(
           retries := if how == Retry then s.hist.retries[k := retried + 1] else s.hist.retries,
           settledByOperator :=
             if how == AsCommitted then s.hist.settledByOperator + {k} else s.hist.settledByOperator))
  }

  function DoPost(s: Sys, source: Source, body: Json): Sys {
    s.(slice := Posted(s.slice, source, body), hist := s.hist.(posted := s.hist.posted + 1))
  }

  function DoExpire(s: Sys): Sys {
    if s.slice.goal.owner.None? then s else s.(slice := WithGoal(s.slice, s.slice.goal.(expired := true)))
  }

  function Apply(c: Config, s: Sys, a: Action): Sys {
    match a
    case Do(w, op) => Work(c, s, w, op)
    case Signal(to) => DoSignal(s, to)
    case ResumeRead => DoResumeRead(s)
    case ResumeWrite(to) => DoResumeWrite(s, to)
    case Resolve(k, how, r) => DoResolve(s, k, how, r)
    case Post(source, body) => DoPost(s, source, body)
    case Expire => DoExpire(s)
  }

  /** The state after a sequence of actions. */
  function Run(c: Config, s: Sys, acts: seq<Action>): Sys
    decreases |acts|
  {
    if acts == [] then s else Run(c, Apply(c, s, acts[0]), acts[1..])
  }
}
