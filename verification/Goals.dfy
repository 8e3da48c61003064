/**
 What each database transaction does to one goal: its row in `goals` and its rows in `effects`,
 `steps` and `messages`. The store's methods are proved against these functions and the protocol
 takes them as its atomic steps.
*/
module Goals {
  import opened Fsm
  import opened Json
  import opened Key
  import opened Wrappers

  type WorkerId = nat

  datatype Goal = Goal(
    state: State, pausedFrom: Option<State>, cursor: nat,
    owner: Option<WorkerId>, epoch: nat, expired: bool)

  datatype Status = Intent | Committed | Failed | NeedsReview

  datatype Effect = Effect(
    key: string, step: nat, tool: string, args: Json,
    status: Status, result: Option<Json>, error: string, attempts: nat)

  datatype StepRow = StepRow(tool: string, args: Json, result: Option<Json>, key: string)

  datatype Source = Operator | PeerAgent | Scheduler | ToolResult | RetrievedDocument

  datatype Message = Message(source: Source, trusted: bool, body: Json)

  datatype Slice = Slice(goal: Goal, effects: map<nat, Effect>, steps: map<nat, StepRow>, messages: seq<Message>)

  /** What a tool call or a probe found out. */
  datatype Outcome = Ok(result: Option<Json>) | Err(msg: string)

  datatype Resolution = Retry | AsCommitted | AsFailed

  const NEW_GOAL := Goal(Proposed, None, 0, None, 0, false)
  const NEW_SLICE := Slice(NEW_GOAL, map[], map[], [])

  // ---- goal row ---------------------------------------------------------------------------

  predicate Holds(g: Goal, w: WorkerId, epoch: nat) { g.owner == Some(w) && g.epoch == epoch }

  predicate Claimable(g: Goal) { Runnable(g.state) && (g.owner.None? || g.expired) }

  function Claimed(g: Goal, w: WorkerId): Goal {
    g.(owner := Some(w), epoch := g.epoch + 1, expired := false)
  }

  function Beaten(g: Goal, w: WorkerId, epoch: nat): Goal {
    if Holds(g, w, epoch) then g.(expired := false) else g
  }

  function Released(g: Goal, w: WorkerId, epoch: nat): Goal {
    if Holds(g, w, epoch) then g.(owner := None, expired := false) else g
  }

  /** A legal transition: pausing remembers the state left, pausing and ending drop the lease. */
  function Moved(g: Goal, to: State): Goal {
    var drop := to == Paused || Terminal(to);
    g.(state := to,
       pausedFrom := if to == Paused then Some(g.state) else None,
       owner := if drop then None else g.owner,
       expired := if drop then false else g.expired)
  }

  // ---- effect rows ------------------------------------------------------------------------

  predicate SameCall(e: Effect, f: Effect) {
    e.key == f.key && e.step == f.step && e.tool == f.tool && e.args == f.args
  }

  predicate Final(e: Effect) { e.status == Committed || e.status == Status.Failed }

  function NewEffect(key: string, step: nat, tool: string, args: Json): Effect {
    Effect(key, step, tool, args, Intent, None, "", 0)
  }

  function Attempted(e: Effect): Effect {
    if e.status == Intent then e.(attempts := e.attempts + 1) else e
  }

  function Flagged(e: Effect, why: string): Effect {
    if e.status == Intent then e.(status := NeedsReview, error := why) else e
  }

  /** The first result recorded wins: a row that is no longer in intent is returned unchanged. */
  function Settled(e: Effect, o: Outcome): Effect {
    if e.status != Intent then e
    else
      match o
      case Ok(r) => e.(status := Committed, result := r, error := "")
      case Err(msg) => e.(status := Status.Failed, result := None, error := msg)
  }

  function Resolved(e: Effect, how: Resolution, r: Option<Json>): Effect {
    match how
    case Retry => e.(status := Intent, result := r, error := "", attempts := 0)
    case AsCommitted => e.(status := Committed, result := r, error := "")
    case AsFailed => e.(status := Status.Failed, result := r, error := "operator marked failed")
  }

  /** The row stores this outcome. */
  predicate Stores(e: Effect, o: Outcome) {
    match o
    case Ok(r) => e.status == Committed && e.result == r && e.error == ""
    case Err(msg) => e.status == Status.Failed && e.result == None && e.error == msg
  }

  /** An outcome recorded on a row in intent is stored; on any other row nothing changes. */
  predicate FirstWins(was: Effect, o: Outcome, now: Effect) {
    && SameCall(was, now) && now.attempts == was.attempts
    && if was.status == Intent then Stores(now, o) else now == was
  }

  /** The body of the tool_result message a committed effect delivers to the agent. */
  function ResultMessage(e: Effect): Message {
    Message(ToolResult, false,
            Obj(map["tool" := Str(e.tool), "step" := Num(Decimal(e.step)),
                    "result" := if e.result.Some? then e.result.value else Null]))
  }

  /** The message tells the agent of a result: an object with the call's tool and step, and the result or null. */
  predicate Delivers(m: Message, e: Effect, result: Option<Json>) {
    && m.source == ToolResult && !m.trusted && m.body.Obj?
    && m.body.members.Keys == {"tool", "step", "result"}
    && m.body.members["tool"] == Str(e.tool)
    && m.body.members["step"] == Num(Decimal(e.step))
    && m.body.members["result"] == match result case Some(x) => x case None => Null
  }

  // ---- transactions on a slice ----------------------------------------------------------

  function WithGoal(s: Slice, g: Goal): Slice { s.(goal := g) }

  function WithEffect(s: Slice, e: Effect): Slice { s.(effects := s.effects[e.step := e]) }

  function CommitResult(s: Slice, step: nat, o: Outcome): Slice
    requires step in s.effects
  {
    var e := s.effects[step];
    var e' := Settled(e, o);
    s.(effects := s.effects[step := e'],
       messages := if e.status == Intent && o.Ok? then s.messages + [ResultMessage(e')] else s.messages)
  }

  /** Advances the cursor past a committed effect. */
  function CommitStep(s: Slice, e: Effect): Slice {
    s.(steps := s.steps[e.step := StepRow(e.tool, e.args, e.result, e.key)],
       goal := s.goal.(cursor := s.goal.cursor + 1))
  }

  /** A message posted from outside is trusted exactly when the operator sent it. */
  function Posted(s: Slice, source: Source, body: Json): Slice {
    s.(messages := s.messages + [Message(source, source == Operator, body)])
  }
}
