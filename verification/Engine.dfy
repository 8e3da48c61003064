/**
 The pluggable engine: one exactly-once contract and its two implementations, the lock-based Fake and
 the row-based Postgres. Each is proved against the contract, so they answer every sequence of calls
 alike; the one place where they differ is the text of a refused Resolve.
*/
module Engine {
  import opened Json
  import opened Wrappers

  // ---- the contract -----------------------------------------------------------------------------

  /** What calling the step's function gives; a crash leaves the attempt unresolved. */
  datatype FnReply = Fine(result: Option<Json>) | Crashed(msg: string) | Bad(msg: string)

  datatype ProbeReply = Found(result: Option<Json>) | NotFound | ProbeError(msg: string)

  datatype Reply = Value(result: Option<Json>) | ToolFailed(msg: string) | InReview | Crash(msg: string)

  /** What is durably known about a key. */
  datatype Phase = Absent | Open(attempts: nat) | Done(result: Option<Json>) | Broken(error: string) | Review

  datatype Scheduled = Scheduled(phase: Phase, reply: Reply, runs: nat, probes: nat)

  function Ran(attempts: nat, fn: FnReply, probes: nat): Scheduled {
    match fn
    case Fine(r) => Scheduled(Done(r), Value(r), 1, probes)
    case Crashed(m) => Scheduled(Open(attempts + 1), Crash(m), 1, probes)
    case Bad(m) => Scheduled(Broken(m), ToolFailed(m), 1, probes)
  }

  /** One uninterrupted call of ScheduleStep. */
  function Schedule(p: Phase, fn: FnReply, probe: Option<ProbeReply>): Scheduled {
    match p
    case Done(r) => Scheduled(p, Value(r), 0, 0)
    case Broken(m) => Scheduled(p, ToolFailed(m), 0, 0)
    case Review => Scheduled(p, InReview, 0, 0)
    case Absent => Ran(0, fn, 0)
    case Open(n) =>
      if n == 0 then Ran(0, fn, 0)
      else
        match probe
        case None => Scheduled(Review, InReview, 0, 0)
        case Some(Found(r)) => Scheduled(Done(r), Value(r), 0, 1)
        case Some(_) => Ran(n, fn, 1)
  }

  // ---- what a caller is promised --------------------------------------------------------------

  /** The function is to run: for a new key, one never attempted, or one whose probe finds nothing. */
  predicate MustRun(p: Phase, probe: Option<ProbeReply>) {
    p == Absent || p == Open(0) || (p.Open? && probe.Some? && !probe.value.Found?)
  }

  /** The function ran: its result or failure is the answer and is kept; a crash settles nothing. */
  predicate Kept(fn: FnReply, r: Reply, after: Phase) {
    match fn
    case Fine(v) => r == Value(v) && after == Done(v)
    case Bad(m) => r == ToolFailed(m) && after == Broken(m)
    case Crashed(m) => r == Crash(m) && after.Open? && after.attempts > 0
  }

  /** It did not run: a settled key answers as settled, an attempted one as its probe found, or goes to review. */
  predicate Known(before: Phase, probe: Option<ProbeReply>, r: Reply, after: Phase) {
    match before
    case Done(v) => r == Value(v) && after == before
    case Broken(m) => r == ToolFailed(m) && after == before
    case Review => r == InReview && after == before
    case _ =>
      if probe.None? then r == InReview && after == Review
      else probe.value.Found? && r == Value(probe.value.result) && after == Done(probe.value.result)
  }

  predicate KnownAction(action: string) { action == "retry" || action == "committed" || action == "failed" }

  /** An operator's resolution of a key under review. */
  function Resolved(action: string, result: Option<Json>): Phase
    requires KnownAction(action)
  {
    if action == "retry" then Open(0)
    else if action == "committed" then Done(result)
    else Broken("operator marked failed")
  }

  function Resolve(p: Phase, action: string, result: Option<Json>): Phase {
    if p == Review && KnownAction(action) then Resolved(action, result) else p
  }

  // ---- the functions a caller passes ------------------------------------------------------------

  class StepFunc {
    const reply: FnReply
    var runs: nat

    constructor (reply: FnReply)
      ensures this.reply == reply && runs == 0
    {
      this.reply, runs := reply, 0;
    }

    method Call() returns (r: FnReply)
      modifies this
      ensures r == reply && runs == old(runs) + 1
    {
      runs := runs + 1;
      return reply;
    }
  }

  class Prober {
    const reply: ProbeReply
    var runs: nat

    constructor (reply: ProbeReply)
      ensures this.reply == reply && runs == 0
    {
      this.reply, runs := reply, 0;
    }

    method Call() returns (r: ProbeReply)
      modifies this
      ensures r == reply && runs == old(runs) + 1
    {
      runs := runs + 1;
      return reply;
    }
  }

  function ReplyOf(probe: Prober?): Option<ProbeReply> { if probe == null then None else Some(probe.reply) }

  function RunsOf(probe: Prober?): nat
    reads probe
  {
    if probe == null then 0 else probe.runs
  }

  function Footprint(probe: Prober?): set<object> { if probe == null then {} else {probe} }

  // ---- the lock-based engine ----------------------------------------------------------------------

  datatype Status = New | Intent | Committed | Failed | NeedsReview

  datatype FakeStep = FakeStep(status: Status, result: Option<Json>, errMsg: string, attempts: nat)

  class Fake {
    var steps: map<string, FakeStep>

    constructor ()
      ensures Valid() && steps == map[]
    {
      steps := map[];
    }

    /** Between calls no step is without a status. */
    ghost predicate Valid()
      reads this
    {
      forall k :: k in steps ==> steps[k].status != New
    }

    function PhaseOf(key: string): Phase
      reads this
    {
      if key !in steps then Absent
      else
        match steps[key].status
        case New => Absent
        case Intent => Open(steps[key].attempts)
        case Committed => Done(steps[key].result)
        case Failed => Broken(steps[key].errMsg)
        case NeedsReview => Review
    }

    /** The key's lock is held throughout, so this is one uninterrupted call. */
    method ScheduleStep(key: string, fn: StepFunc, probe: Prober?) returns (r: Reply)
      requires Valid()
      modifies this, fn, Footprint(probe)
      ensures Valid()
      ensures var s := Schedule(old(PhaseOf(key)), fn.reply, ReplyOf(probe));
              && r == s.reply && PhaseOf(key) == s.phase
              && fn.runs == old(fn.runs) + s.runs && RunsOf(probe) == old(RunsOf(probe)) + s.probes
      ensures fn.runs - old(fn.runs) == if MustRun(old(PhaseOf(key)), ReplyOf(probe)) then 1 else 0
      ensures RunsOf(probe) - old(RunsOf(probe)) ==
        if probe != null && old(PhaseOf(key)).Open? && old(PhaseOf(key)).attempts > 0 then 1 else 0
      ensures if fn.runs > old(fn.runs) then Kept(fn.reply, r, PhaseOf(key))
              else Known(old(PhaseOf(key)), ReplyOf(probe), r, PhaseOf(key))
      ensures forall k :: k != key ==> PhaseOf(k) == old(PhaseOf(k))
    {
      var s := if key in steps then steps[key] else FakeStep(New, None, "", 0);
      match s.status {
        case Committed => return Value(s.result);
        case Failed => return ToolFailed(s.errMsg);
        case NeedsReview => return InReview;
        case Intent =>
          if s.attempts > 0 {
            if probe == null {
              steps := steps[key := s.(status := NeedsReview, errMsg := "in-doubt after crash; no probe")];
              return InReview;
            }
            var answer := probe.Call();
            if answer.Found? {
              steps := steps[key := s.(status := Committed, result := answer.result)];
              return Value(answer.result);
            }
          }
        case New =>
      }
      r := Execute(key, s, fn);
    }

    /** Counts the attempt, calls the function and keeps what it returned. */
    method Execute(key: string, before: FakeStep, fn: StepFunc) returns (r: Reply)
      requires Valid() && before.status in {New, Intent}
      requires before == if key in steps then steps[key] else FakeStep(New, None, "", 0)
      modifies this, fn
      ensures Valid()
      ensures var s := Ran(before.attempts, fn.reply, 0); r == s.reply && PhaseOf(key) == s.phase
      ensures Kept(fn.reply, r, PhaseOf(key))
      ensures fn.runs == old(fn.runs) + 1
      ensures forall k :: k != key ==> PhaseOf(k) == old(PhaseOf(k))
    {
      var s := before.(status := Intent, attempts := before.attempts + 1);
      steps := steps[key := s];
      var res := fn.Call();
      match res {
        case Crashed(m) => return Crash(m);
        case Bad(m) =>
          steps := steps[key := s.(status := Failed, errMsg := m)];
          return ToolFailed(m);
        case Fine(v) =>
          steps := steps[key := s.(status := Committed, result := v)];
          return Value(v);
      }
    }

    /** Settles a key under review; otherwise says why not. */
    method ResolveKey(key: string, action: string, result: Option<Json>) returns (error: Option<string>)
      requires Valid()
      modifies this
      ensures Valid()
      ensures PhaseOf(key) == Resolve(old(PhaseOf(key)), action, result)
      ensures forall k :: k != key ==> PhaseOf(k) == old(PhaseOf(k))
      ensures error.None? <==> old(PhaseOf(key)) == Review && KnownAction(action)
      ensures error.None? <==>
        old(PhaseOf(key)) == Review && (action == "retry" || action == "committed" || action == "failed")
      ensures error.None? && action == "retry" ==> PhaseOf(key) == Open(0)
      ensures error.None? && action == "committed" ==> PhaseOf(key) == Done(result)
      ensures error.None? && action == "failed" ==> PhaseOf(key) == Broken("operator marked failed")
      ensures error.Some? ==> PhaseOf(key) == old(PhaseOf(key))
      ensures error.Some? ==> error.value == FakeRefusal(key, old(PhaseOf(key)))
    {
      if key !in steps {
        return Some(UNKNOWN + Quote(key));
      }
      var s := steps[key];
      if s.status != NeedsReview {
        return Some(NOT_IN_REVIEW + StatusText(PhaseOf(key)) + ")");
      }
      if action == "retry" {
        s := s.(status := Intent, attempts := 0, errMsg := "");
      } else if action == "committed" {
        s := s.(status := Committed, result := result, errMsg := "");
      } else if action == "failed" {
        s := s.(status := Failed, errMsg := "operator marked failed");
      } else {
        return Some(BAD_ACTION);
      }
      steps := steps[key := s];
      return None;
    }
  }

  const UNKNOWN := "unknown key "
  const NOT_IN_REVIEW := "not in needs_review (status="
  const BAD_ACTION := "action must be retry|committed|failed"

  function Quote(key: string): string { "\"" + key + "\"" }

  function StatusText(p: Phase): string {
    match p
    case Absent => ""
    case Open(_) => "intent"
    case Done(_) => "committed"
    case Broken(_) => "failed"
    case Review => "needs_review"
  }

  /** Why Fake refuses to resolve a key. */
  function FakeRefusal(key: string, p: Phase): string {
    match p
    case Absent => UNKNOWN + Quote(key)
    case Review => BAD_ACTION
    case _ => NOT_IN_REVIEW + StatusText(p) + ")"
  }

  /** Why Postgres refuses to. */
  function RowRefusal(key: string, action: string): string {
    if KnownAction(action) then "key " + Quote(key) + " is not in needs_review" else BAD_ACTION
  }

  // ---- the row-based engine -----------------------------------------------------------------------

  datatype Row = Row(status: Status, result: Option<Json>, error: string, attempts: nat)

  datatype Action = Run | ReturnCommitted | ReturnFailed | ReviewNow | Reconcile

  function RowPhase(rows: map<string, Row>, key: string): Phase {
    if key !in rows then Absent
    else
      match rows[key].status
      case New => Absent
      case Intent => Open(rows[key].attempts)
      case Committed => Done(rows[key].result)
      case Failed => Broken(rows[key].error)
      case NeedsReview => Review
  }

  /** The row a claim inserts for a new key. */
  function Inserted(p: Phase): Phase { if p == Absent then Open(0) else p }

  class Postgres {
    var rows: map<string, Row>

    constructor ()
      ensures Valid() && rows == map[]
    {
      rows := map[];
    }

    ghost predicate Valid()
      reads this
    {
      forall k :: k in rows ==> rows[k].status != New
    }

    function PhaseOf(key: string): Phase
      reads this
    {
      RowPhase(rows, key)
    }

    /** Decides under the row lock what to do next, and lets go of the lock. */
    method Claim(key: string) returns (a: Action)
      requires Valid()
      modifies this
      ensures Valid() && PhaseOf(key) == Inserted(old(PhaseOf(key)))
      ensures PhaseOf(key) == if old(PhaseOf(key)) == Absent then Open(0) else old(PhaseOf(key))
      ensures forall k :: k != key ==> PhaseOf(k) == old(PhaseOf(k))
      ensures a == match PhaseOf(key)
        case Done(_) => ReturnCommitted
        case Broken(_) => ReturnFailed
        case Review => ReviewNow
        case Open(n) => if n == 0 then Run else Reconcile
        case Absent => Run
    {
      if key !in rows {
        rows := rows[key := Row(Intent, None, "", 0)];
        return Run;
      }
      var row := rows[key];
      match row.status {
        case Committed => return ReturnCommitted;
        case Failed => return ReturnFailed;
        case NeedsReview => return ReviewNow;
        case _ => return if row.attempts == 0 then Run else Reconcile;
      }
    }

    method Commit(key: string, status: Status, result: Option<Json>, error: string)
      requires Valid() && (status == Committed || status == Failed)
      modifies this
      ensures Valid()
      ensures PhaseOf(key) ==
        if !old(PhaseOf(key)).Open? then old(PhaseOf(key))
        else if status == Committed then Done(result)
        else Broken(error)
      ensures forall k :: k != key ==> PhaseOf(k) == old(PhaseOf(k))
    {
      if key in rows && rows[key].status == Intent {
        rows := rows[key := rows[key].(status := status, result := result, error := error)];
      }
    }

    method MarkNeedsReview(key: string, why: string)
      requires Valid()
      modifies this
      ensures Valid()
      ensures PhaseOf(key) == if old(PhaseOf(key)).Open? then Review else old(PhaseOf(key))
      ensures forall k :: k != key ==> PhaseOf(k) == old(PhaseOf(k))
    {
      if key in rows && rows[key].status == Intent {
        rows := rows[key := rows[key].(status := NeedsReview, error := why)];
      }
    }

    /** Marks the attempt, calls the function and records what it returned. */
    method Attempt(key: string, fn: StepFunc) returns (r: Reply)
      requires Valid() && PhaseOf(key).Open?
      modifies this, fn
      ensures Valid()
      ensures var s := Ran(old(PhaseOf(key)).attempts, fn.reply, 0); r == s.reply && PhaseOf(key) == s.phase
      ensures Kept(fn.reply, r, PhaseOf(key))
      ensures fn.runs == old(fn.runs) + 1
      ensures forall k :: k != key ==> PhaseOf(k) == old(PhaseOf(k))
    {
      rows := rows[key := rows[key].(attempts := rows[key].attempts + 1)];
      var res := fn.Call();
      match res {
        case Crashed(m) => return Crash(m);
        case Bad(m) =>
          Commit(key, Failed, None, m);
          return ToolFailed(m);
        case Fine(v) =>
          Commit(key, Committed, v, "");
          return Value(v);
      }
    }

    method ScheduleStep(key: string, fn: StepFunc, probe: Prober?) returns (r: Reply)
      requires Valid()
      modifies this, fn, Footprint(probe)
      ensures Valid()
      ensures var s := Schedule(old(PhaseOf(key)), fn.reply, ReplyOf(probe));
              && r == s.reply && PhaseOf(key) == s.phase
              && fn.runs == old(fn.runs) + s.runs && RunsOf(probe) == old(RunsOf(probe)) + s.probes
      ensures fn.runs - old(fn.runs) == if MustRun(old(PhaseOf(key)), ReplyOf(probe)) then 1 else 0
      ensures RunsOf(probe) - old(RunsOf(probe)) ==
        if probe != null && old(PhaseOf(key)).Open? && old(PhaseOf(key)).attempts > 0 then 1 else 0
      ensures if fn.runs > old(fn.runs) then Kept(fn.reply, r, PhaseOf(key))
              else Known(old(PhaseOf(key)), ReplyOf(probe), r, PhaseOf(key))
      ensures forall k :: k != key ==> PhaseOf(k) == old(PhaseOf(k))
    {
      var a := Claim(key);
      match a {
        case ReturnCommitted => return Value(rows[key].result);
        case ReturnFailed => return ToolFailed(rows[key].error);
        case ReviewNow => return InReview;
        case Run => r := Attempt(key, fn);
        case Reconcile =>
          if probe == null {
            MarkNeedsReview(key, "in-doubt after crash; no probe");
            return InReview;
          }
          var answer := probe.Call();
          if answer.Found? {
            Commit(key, Committed, answer.result, "");
            return Value(answer.result);
          }
          r := Attempt(key, fn);
      }
    }

    method ResolveKey(key: string, action: string, result: Option<Json>) returns (error: Option<string>)
      requires Valid()
      modifies this
      ensures Valid()
      ensures PhaseOf(key) == Resolve(old(PhaseOf(key)), action, result)
      ensures forall k :: k != key ==> PhaseOf(k) == old(PhaseOf(k))
      ensures error.None? <==> old(PhaseOf(key)) == Review && KnownAction(action)
      ensures error.None? <==>
        old(PhaseOf(key)) == Review && (action == "retry" || action == "committed" || action == "failed")
      ensures error.None? && action == "retry" ==> PhaseOf(key) == Open(0)
      ensures error.None? && action == "committed" ==> PhaseOf(key) == Done(result)
      ensures error.None? && action == "failed" ==> PhaseOf(key) == Broken("operator marked failed")
      ensures error.Some? ==> PhaseOf(key) == old(PhaseOf(key))
      ensures error.Some? ==> error.value == RowRefusal(key, action)
    {
      if !KnownAction(action) {
        return Some(BAD_ACTION);
      }
      if key !in rows || rows[key].status != NeedsReview {
        return Some("key " + Quote(key) + " is not in needs_review");
      }
      var row := rows[key].(result := result, error := "");
      if action == "retry" {
        row := row.(status := Intent, attempts := 0);
      } else if action == "committed" {
        row := row.(status := Committed);
      } else {
        row := row.(status := Failed, error := "operator marked failed");
      }
      rows := rows[key := row];
      return None;
    }
  }

  // ---- the two engines are equivalent -------------------------------------------------------------

  datatype Call =
    | ScheduleCall(key: string, fn: FnReply, probe: Option<ProbeReply>)
    | ResolveCall(key: string, action: string, result: Option<Json>)

  datatype Answer = Scheduling(reply: Reply, runs: nat, probes: nat) | Resolving(error: Option<string>)

  /** Same outcome and the same calls; a refused Resolve has the same text exactly for a key under review. */
  predicate Agree(before: Phase, a: Answer, b: Answer) {
    match (a, b)
    case (Scheduling(_, _, _), Scheduling(_, _, _)) => a == b
    case (Resolving(e), Resolving(f)) =>
      (e.None? <==> f.None?) && (e.Some? ==> (e.value == f.value <==> before == Review))
    case _ => false
  }

  method AskFake(e: Fake, call: Call) returns (a: Answer)
    requires e.Valid()
    modifies e
    ensures e.Valid() && forall k :: k != call.key ==> e.PhaseOf(k) == old(e.PhaseOf(k))
    ensures Answers(old(e.PhaseOf(call.key)), call, e.PhaseOf(call.key), a)
    ensures a.Resolving? && a.error.Some? ==> a.error.value == FakeRefusal(call.key, old(e.PhaseOf(call.key)))
  {
    match call {
      case ScheduleCall(key, reply, answer) =>
        var fn := new StepFunc(reply);
        var probe := null;
        if answer.Some? {
          probe := new Prober(answer.value);
        }
        var r := e.ScheduleStep(key, fn, probe);
        return Scheduling(r, fn.runs, RunsOf(probe));
      case ResolveCall(key, action, result) =>
        var error := e.ResolveKey(key, action, result);
        return Resolving(error);
    }
  }

  method AskPostgres(e: Postgres, call: Call) returns (a: Answer)
    requires e.Valid()
    modifies e
    ensures e.Valid() && forall k :: k != call.key ==> e.PhaseOf(k) == old(e.PhaseOf(k))
    ensures Answers(old(e.PhaseOf(call.key)), call, e.PhaseOf(call.key), a)
    ensures a.Resolving? && a.error.Some? ==> a.error.value == RowRefusal(call.key, call.action)
  {
    match call {
      case ScheduleCall(key, reply, answer) =>
        var fn := new StepFunc(reply);
        var probe := null;
        if answer.Some? {
          probe := new Prober(answer.value);
        }
        var r := e.ScheduleStep(key, fn, probe);
        return Scheduling(r, fn.runs, RunsOf(probe));
      case ResolveCall(key, action, result) =>
        var error := e.ResolveKey(key, action, result);
        return Resolving(error);
    }
  }

  /** What the contract lets an engine answer. */
  predicate Answers(before: Phase, call: Call, after: Phase, a: Answer) {
    match call
    case ScheduleCall(_, fn, probe) =>
      var s := Schedule(before, fn, probe);
      after == s.phase && a == Scheduling(s.reply, s.runs, s.probes)
    case ResolveCall(_, action, result) =>
      && after == Resolve(before, action, result)
      && a.Resolving? && (a.error.None? <==> before == Review && KnownAction(action))
  }

  /** Both engines refuse in the same words exactly where the key is under review. */
  lemma RefusalTexts(key: string, p: Phase, action: string)
    requires !(p == Review && KnownAction(action))
    ensures FakeRefusal(key, p) == RowRefusal(key, action) <==> p == Review
  {
    assert (UNKNOWN + Quote(key))[0] == 'u';
    assert (NOT_IN_REVIEW + StatusText(p) + ")")[0] == 'n';
    assert BAD_ACTION[0] == 'a';
    assert ("key " + Quote(key) + " is not in needs_review")[0] == 'k';
  }

  /** What is known about a key after these calls. */
  function After(calls: seq<Call>, key: string): Phase {
    if calls == [] then Absent
    else
      var before, call := After(calls[..|calls| - 1], key), calls[|calls| - 1];
      if call.key != key then before
      else if call.ScheduleCall? then Schedule(before, call.fn, call.probe).phase
      else Resolve(before, call.action, call.result)
  }

  /** The i-th call was answered by both engines as the contract says. */
  predicate Conforms(calls: seq<Call>, i: nat, a: Answer, b: Answer)
    requires i < |calls|
  {
    && Answers(After(calls[..i], calls[i].key), calls[i], After(calls[..i + 1], calls[i].key), a)
    && Agree(After(calls[..i], calls[i].key), a, b)
  }

  /**
   Any sequence of calls on any keys, put to both engines from empty: every answer of each is the
   contract's, so outcomes and numbers of calls of the function and the probe are the same.
  */
  method Compare(calls: seq<Call>) returns (a: seq<Answer>, b: seq<Answer>)
    ensures |a| == |b| == |calls|
    ensures forall i :: 0 <= i < |calls| ==> Conforms(calls, i, a[i], b[i])
  {
    hide Conforms, After;
    var fake := new Fake();
    var postgres := new Postgres();
    a, b := [], [];
    NothingYet();
    for i := 0 to |calls|
      invariant |a| == |b| == i
      invariant fresh(fake) && fresh(postgres) && fake.Valid() && postgres.Valid()
      invariant forall k :: fake.PhaseOf(k) == postgres.PhaseOf(k) == After(calls[..i], k)
      invariant forall j :: 0 <= j < i ==> Conforms(calls, j, a[j], b[j])
    {
      var x, y := AskBoth(fake, postgres, calls[i]);
      AfterCall(calls, i, fake.PhaseOf(calls[i].key), x, y);
      a, b := a + [x], b + [y];
    }
  }

  lemma NothingYet()
    ensures forall k :: After([], k) == Absent
  {
  }

  lemma AfterCall(calls: seq<Call>, i: nat, now: Phase, x: Answer, y: Answer)
    requires i < |calls|
    requires Answers(After(calls[..i], calls[i].key), calls[i], now, x) && Agree(After(calls[..i], calls[i].key), x, y)
    ensures forall k :: k != calls[i].key ==> After(calls[..i + 1], k) == After(calls[..i], k)
    ensures now == After(calls[..i + 1], calls[i].key)
    ensures Conforms(calls, i, x, y)
  {
    assert calls[..i + 1][..i] == calls[..i];
  }

  method AskBoth(fake: Fake, postgres: Postgres, call: Call) returns (a: Answer, b: Answer)
    requires fake.Valid() && postgres.Valid() && fake.PhaseOf(call.key) == postgres.PhaseOf(call.key)
    modifies fake, postgres
    ensures fake.Valid() && postgres.Valid() && fake.PhaseOf(call.key) == postgres.PhaseOf(call.key)
    ensures forall k :: k != call.key ==>
      fake.PhaseOf(k) == old(fake.PhaseOf(k)) && postgres.PhaseOf(k) == old(postgres.PhaseOf(k))
    ensures Answers(old(fake.PhaseOf(call.key)), call, fake.PhaseOf(call.key), a)
    ensures Agree(old(fake.PhaseOf(call.key)), a, b)
  {
    a := AskFake(fake, call);
    b := AskPostgres(postgres, call);
    if call.ResolveCall? && a.error.Some? {
      RefusalTexts(call.key, old(fake.PhaseOf(call.key)), call.action);
    }
  }
}
