/**
 The two engines under concurrent callers. Fake holds the key's lock while it works and meets the
 contract under every schedule. Postgres lets go of the row between its statements: its bound on calls
 holds when no caller claims a key that another has been told to run and has not yet attempted. The rest
 of the contract needs more; SerialClaims says what.
*/
module Contention {
  import opened Engine
  import opened Json
  import opened Wrappers

  datatype Event =
    | Called(key: string, probed: bool)      // the step's function is invoked
    | Returned(key: string, reply: Reply)
    | Retried(key: string)                   // an operator's successful "retry"

  type Caller = nat

  function Unprobed(log: seq<Event>, key: string): nat {
    if log == [] then 0
    else Unprobed(log[..|log| - 1], key) + if log[|log| - 1] == Called(key, false) then 1 else 0
  }

  function Retries(log: seq<Event>, key: string): nat {
    if log == [] then 0
    else Retries(log[..|log| - 1], key) + if log[|log| - 1] == Retried(key) then 1 else 0
  }

  lemma Logged(log: seq<Event>, e: Event, key: string)
    ensures Unprobed(log + [e], key) == Unprobed(log, key) + if e == Called(key, false) then 1 else 0
    ensures Retries(log + [e], key) == Retries(log, key) + if e == Retried(key) then 1 else 0
  {
    assert (log + [e])[..|log|] == log;
  }

  function PhaseAt(phases: map<string, Phase>, key: string): Phase { if key in phases then phases[key] else Absent }

  predicate Settled(r: Reply) { r.Value? || r.ToolFailed? }

  /** The phase that answers with this reply for ever. */
  function PhaseOfReply(r: Reply): Phase
    requires Settled(r)
  {
    match r case Value(v) => Done(v) case ToolFailed(m) => Broken(m)
  }

  function RetriedBy(p: Phase, key: string, action: string): seq<Event> {
    if p == Review && action == "retry" then [Retried(key)] else []
  }

  // ---- Fake -----------------------------------------------------------------------------------------

  datatype FakeSys = FakeSys(phases: map<string, Phase>, running: map<string, Caller>, log: seq<Event>)

  datatype FakeAction =
    | Begin(c: Caller, key: string, probe: Option<ProbeReply>)   // up to the call of the function
    | End(c: Caller, key: string, fn: FnReply)                   // from its return to the unlock
    | FakeResolve(key: string, action: string, result: Option<Json>)

  const FAKE_INIT := FakeSys(map[], map[], [])

  function Answer(s: FakeSys, key: string, p: Phase, r: Reply): FakeSys {
    s.(phases := s.phases[key := p], log := s.log + [Returned(key, r)])
  }

  function Start(s: FakeSys, c: Caller, key: string, attempts: nat, probed: bool): FakeSys {
    FakeSys(s.phases[key := Open(attempts + 1)], s.running[key := c], s.log + [Called(key, probed)])
  }

  function DoBegin(s: FakeSys, c: Caller, key: string, probe: Option<ProbeReply>): FakeSys {
    if key in s.running then s
    else
      match PhaseAt(s.phases, key)
      case Done(r) => Answer(s, key, Done(r), Value(r))
      case Broken(m) => Answer(s, key, Broken(m), ToolFailed(m))
      case Review => Answer(s, key, Review, InReview)
      case Absent => Start(s, c, key, 0, false)
      case Open(n) =>
        if n == 0 then Start(s, c, key, 0, false)
        else
          match probe
          case None => Answer(s, key, Review, InReview)
          case Some(Found(r)) => Answer(s, key, Done(r), Value(r))
          case Some(_) => Start(s, c, key, n, true)
  }

  function DoEnd(s: FakeSys, c: Caller, key: string, fn: FnReply): FakeSys {
    if key !in s.running || s.running[key] != c then s
    else
      var s' := s.(running := s.running - {key});
      match fn
      case Fine(r) => Answer(s', key, Done(r), Value(r))
      case Crashed(m) => s'.(log := s.log + [Returned(key, Crash(m))])
      case Bad(m) => Answer(s', key, Broken(m), ToolFailed(m))
  }

  function DoFakeResolve(s: FakeSys, key: string, action: string, result: Option<Json>): FakeSys {
    if key in s.running then s
    else
      var p := PhaseAt(s.phases, key);
      if p == Absent then s
      else s.(phases := s.phases[key := Resolve(p, action, result)], log := s.log + RetriedBy(p, key, action))
  }

  function FakeApply(s: FakeSys, a: FakeAction): FakeSys {
    match a
    case Begin(c, key, probe) => DoBegin(s, c, key, probe)
    case End(c, key, fn) => DoEnd(s, c, key, fn)
    case FakeResolve(key, action, result) => DoFakeResolve(s, key, action, result)
  }

  function FakeRun(s: FakeSys, acts: seq<FakeAction>): FakeSys
    decreases |acts|
  {
    if acts == [] then s else FakeRun(FakeApply(s, acts[0]), acts[1..])
  }

  /** Alone, the two halves are the uninterrupted call the class is proved to make. */
  lemma HalvesMakeACall(s: FakeSys, c: Caller, key: string, fn: FnReply, probe: Option<ProbeReply>)
    requires key !in s.running
    ensures var t, call := DoEnd(DoBegin(s, c, key, probe), c, key, fn), Schedule(PhaseAt(s.phases, key), fn, probe);
            && PhaseAt(t.phases, key) == call.phase
            && |t.log| == |s.log| + call.runs + 1 && t.log[|t.log| - 1] == Returned(key, call.reply)
  {
  }

  /** Once a settled answer was returned, the function is not called again and every answer is that one. */
  ghost predicate Stable(log: seq<Event>, key: string, p: Phase) {
    && (forall i :: 0 <= i < |log| && IsSettled(log[i], key) ==> p == PhaseOfReply(log[i].reply))
    && (forall i, j :: 0 <= i < j < |log| && IsSettled(log[i], key) ==> Follows(log[i], log[j], key))
  }

  predicate IsSettled(e: Event, key: string) { e.Returned? && e.key == key && Settled(e.reply) }

  predicate Follows(first: Event, later: Event, key: string)
    requires IsSettled(first, key)
  {
    later.key == key ==> later == first
  }

  ghost predicate FakeOk(s: FakeSys, key: string) {
    var p := PhaseAt(s.phases, key);
    && Unprobed(s.log, key) <= 1 + Retries(s.log, key)
    && (p == Absent || p == Open(0) ==> Unprobed(s.log, key) <= Retries(s.log, key))
    && (key in s.running ==> p.Open? && p.attempts > 0)
    && Stable(s.log, key, p)
  }

  /** One event for the key, in a phase that allows it. */
  lemma StableSnoc(log: seq<Event>, key: string, p: Phase, e: Event, q: Phase)
    requires Stable(log, key, p)
    requires e.key != key ==> q == p
    requires e.key == key ==>
      if p.Done? || p.Broken? then q == p && e.Returned? && Settled(e.reply) && PhaseOfReply(e.reply) == p
      else IsSettled(e, key) ==> q == PhaseOfReply(e.reply)
    ensures Stable(log + [e], key, q)
  {
    var log' := log + [e];
    forall i, j | 0 <= i < j < |log'| && IsSettled(log'[i], key) ensures Follows(log'[i], log'[j], key) {
      assert log'[i] == log[i];
      if j < |log| {
        assert Follows(log[i], log[j], key);
      }
    }
  }

  /** What a step of Fake does to one key: nothing, or one event and a phase that goes with it. */
  predicate OneEvent(s: FakeSys, t: FakeSys, key: string) {
    var p, q := PhaseAt(s.phases, key), PhaseAt(t.phases, key);
    |t.log| == |s.log| + 1 && t.log == s.log + [t.log[|s.log|]] &&
    var e := t.log[|s.log|];
    && (e.key != key ==> q == p && (key in t.running <==> key in s.running))
    && (e.key == key ==>
          match e
          case Called(_, probed) =>
            key in t.running && q.Open? && q.attempts > 0
            && (if probed then p.Open? && p.attempts > 0 else p == Absent || p == Open(0))
          case Returned(_, r) =>
            && key !in t.running && q != Absent && q != Open(0)
            && (if p.Done? || p.Broken? then q == p && Settled(r) && PhaseOfReply(r) == p
                else Settled(r) ==> q == PhaseOfReply(r))
          case Retried(_) => p == Review && q == Open(0) && key !in t.running)
  }

  predicate NoEvent(s: FakeSys, t: FakeSys, key: string) {
    var p, q := PhaseAt(s.phases, key), PhaseAt(t.phases, key);
    && t.log == s.log && (key in t.running <==> key in s.running)
    && (q == p || (p == Review && key !in s.running && q != Absent && q != Open(0)))
  }

  /** While a key is locked its function is running. */
  predicate RunningOpen(s: FakeSys) {
    forall k :: k in s.running ==> PhaseAt(s.phases, k).Open? && PhaseAt(s.phases, k).attempts > 0
  }

  lemma BeginMoves(s: FakeSys, c: Caller, k: string, probe: Option<ProbeReply>, key: string)
    ensures var t := DoBegin(s, c, k, probe); OneEvent(s, t, key) || NoEvent(s, t, key)
  {
    hide OneEvent;
    if k !in s.running {
      var p := PhaseAt(s.phases, k);
      if p.Absent? || (p.Open? && (p.attempts == 0 || (probe.Some? && !probe.value.Found?))) {
        StartMoves(s, c, k, if p.Absent? then 0 else p.attempts, p.Open? && p.attempts > 0, key);
      } else {
        var t := DoBegin(s, c, k, probe);
        AnswerMoves(s, k, PhaseAt(t.phases, k), t.log[|s.log|].reply, key);
      }
    }
  }

  lemma StartMoves(s: FakeSys, c: Caller, k: string, n: nat, probed: bool, key: string)
    requires k !in s.running && if probed then PhaseAt(s.phases, k) == Open(n) && n > 0 else n == 0
    requires !probed ==> PhaseAt(s.phases, k) == Absent || PhaseAt(s.phases, k) == Open(0)
    ensures OneEvent(s, Start(s, c, k, n, probed), key)
  {
  }

  lemma AnswerMoves(s: FakeSys, k: string, q: Phase, r: Reply, key: string)
    requires k !in s.running && q != Absent && q != Open(0)
    requires var p := PhaseAt(s.phases, k);
      if p.Done? || p.Broken? then q == p && Settled(r) && PhaseOfReply(r) == p else Settled(r) ==> q == PhaseOfReply(r)
    ensures OneEvent(s, Answer(s, k, q, r), key)
  {
  }

  lemma EndMoves(s: FakeSys, c: Caller, k: string, fn: FnReply, key: string)
    requires RunningOpen(s)
    ensures var t := DoEnd(s, c, k, fn); OneEvent(s, t, key) || NoEvent(s, t, key)
  {
  }

  lemma FakeMoves(s: FakeSys, a: FakeAction, key: string)
    requires RunningOpen(s)
    ensures OneEvent(s, FakeApply(s, a), key) || NoEvent(s, FakeApply(s, a), key)
  {
    match a
    case Begin(c, k, probe) => hide OneEvent, NoEvent, DoBegin; BeginMoves(s, c, k, probe, key);
    case End(c, k, fn) => hide OneEvent, NoEvent, DoEnd; EndMoves(s, c, k, fn, key);
    case FakeResolve(k, action, result) =>
  }

  lemma FakeStep(s: FakeSys, a: FakeAction, key: string)
    requires FakeOk(s, key)
    requires RunningOpen(s)
    ensures FakeOk(FakeApply(s, a), key)
  {
    FakeMoves(s, a, key);
    hide Stable, FakeApply;
    var t := FakeApply(s, a);
    if OneEvent(s, t, key) {
      var e := t.log[|s.log|];
      Logged(s.log, e, key);
      StableSnoc(s.log, key, PhaseAt(s.phases, key), e, PhaseAt(t.phases, key));
    } else if PhaseAt(t.phases, key) != PhaseAt(s.phases, key) {
      StableReview(s.log, key, PhaseAt(t.phases, key));
    }
  }

  /** A key under review never had a settled answer. */
  lemma StableReview(log: seq<Event>, key: string, q: Phase)
    requires Stable(log, key, Review)
    ensures Stable(log, key, q)
  {
  }

  lemma {:induction false} FakeRunOk(s: FakeSys, acts: seq<FakeAction>, key: string)
    requires forall k :: FakeOk(s, k)
    ensures FakeOk(FakeRun(s, acts), key)
    decreases |acts|
  {
    assert forall k :: FakeOk(s, k) && k in s.running ==>
      PhaseAt(s.phases, k).Open? && PhaseAt(s.phases, k).attempts > 0;
    hide FakeOk, FakeApply;
    if acts != [] {
      forall k ensures FakeOk(FakeApply(s, acts[0]), k) { FakeStep(s, acts[0], k); }
      FakeRunOk(FakeApply(s, acts[0]), acts[1..], key);
    }
  }

  /**
   Fake, any schedule: the function is called without a probe at most once plus once per retry, and
   after a committed result or a failure was returned it is never called again and every later call
   returns the same.
  */
  lemma FakeMeetsContract(acts: seq<FakeAction>, key: string)
    ensures var log := FakeRun(FAKE_INIT, acts).log;
            && Unprobed(log, key) <= 1 + Retries(log, key)
            && forall i, j :: 0 <= i < j < |log| && IsSettled(log[i], key) && log[j].key == key ==> log[j] == log[i]
  {
    FakeRunOk(FAKE_INIT, acts, key);
    var log := FakeRun(FAKE_INIT, acts).log;
    assert forall i, j :: 0 <= i < j < |log| && IsSettled(log[i], key) ==> Follows(log[i], log[j], key);
  }

  // ---- Postgres -------------------------------------------------------------------------------------

  /** Where a caller of ScheduleStep stands between its statements. */
  datatype Stage =
    | Chosen(key: string)               // told to run, not yet attempted
    | InDoubt(key: string)              // told to reconcile
    | Missed(key: string)               // its probe found nothing
    | Working(key: string)              // its function is running

  datatype RowSys = RowSys(phases: map<string, Phase>, callers: map<Caller, Stage>, log: seq<Event>)

  datatype RowAction =
    | ClaimRow(c: Caller, key: string)
    | GiveToReview(c: Caller)
    | AskProbe(c: Caller, reply: ProbeReply)
    | Try(c: Caller)                    // mark the attempt and invoke the function
    | Finish(c: Caller, fn: FnReply)
    | Die(c: Caller)
    | RowResolve(key: string, action: string, result: Option<Json>)

  const ROW_INIT := RowSys(map[], map[], [])

  function Reply(s: RowSys, c: Caller, key: string, p: Phase, r: Reply): RowSys {
    RowSys(s.phases[key := p], s.callers - {c}, s.log + [Returned(key, r)])
  }

  function Stand(s: RowSys, c: Caller, stage: Stage): RowSys { s.(callers := s.callers[c := stage]) }

  /** An update guarded by status = 'intent'. */
  function IfOpen(p: Phase, q: Phase): Phase { if p.Open? then q else p }

  function DoClaim(s: RowSys, c: Caller, key: string): RowSys {
    if c in s.callers then s
    else
      var p := Inserted(PhaseAt(s.phases, key));
      var s' := s.(phases := s.phases[key := p]);
      match p
      case Done(r) => Reply(s', c, key, p, Value(r))
      case Broken(m) => Reply(s', c, key, p, ToolFailed(m))
      case Review => Reply(s', c, key, p, InReview)
      case Open(n) => Stand(s', c, if n == 0 then Chosen(key) else InDoubt(key))
      case Absent => s
  }

  function DoTry(s: RowSys, c: Caller): RowSys {
    if c !in s.callers || !(s.callers[c].Chosen? || s.callers[c].Missed?) then s
    else
      var key := s.callers[c].key;
      var p := PhaseAt(s.phases, key);
      RowSys(s.phases[key := if p.Open? then Open(p.attempts + 1) else p],
             s.callers[c := Working(key)], s.log + [Called(key, s.callers[c].Missed?)])
  }

  function DoFinish(s: RowSys, c: Caller, fn: FnReply): RowSys {
    if c !in s.callers || !s.callers[c].Working? then s
    else
      var key := s.callers[c].key;
      var p := PhaseAt(s.phases, key);
      match fn
      case Fine(r) => Reply(s, c, key, IfOpen(p, Done(r)), Value(r))
      case Crashed(m) => Reply(s, c, key, p, Crash(m))
      case Bad(m) => Reply(s, c, key, IfOpen(p, Broken(m)), ToolFailed(m))
  }

  function DoReconcile(s: RowSys, c: Caller, probe: Option<ProbeReply>): RowSys {
    if c !in s.callers || !s.callers[c].InDoubt? then s
    else
      var key := s.callers[c].key;
      var p := PhaseAt(s.phases, key);
      match probe
      case None => Reply(s, c, key, IfOpen(p, Review), InReview)
      case Some(Found(r)) => Reply(s, c, key, IfOpen(p, Done(r)), Value(r))
      case Some(_) => Stand(s, c, Missed(key))
  }

  function RowApply(s: RowSys, a: RowAction): RowSys {
    match a
    case ClaimRow(c, key) => DoClaim(s, c, key)
    case GiveToReview(c) => DoReconcile(s, c, None)
    case AskProbe(c, reply) => DoReconcile(s, c, Some(reply))
    case Try(c) => DoTry(s, c)
    case Finish(c, fn) => DoFinish(s, c, fn)
    case Die(c) => s.(callers := s.callers - {c})
    case RowResolve(key, action, result) =>
      var p := PhaseAt(s.phases, key);
      s.(phases := if p == Absent then s.phases else s.phases[key := Resolve(p, action, result)],
         log := s.log + RetriedBy(p, key, action))
  }

  function RowRun(s: RowSys, acts: seq<RowAction>): RowSys
    decreases |acts|
  {
    if acts == [] then s else RowRun(RowApply(s, acts[0]), acts[1..])
  }

  predicate Pending(callers: map<Caller, Stage>, key: string) {
    exists c :: c in callers && callers[c] == Chosen(key)
  }

  /** No claim of a key while a caller was told to run it and has not yet marked the attempt. */
  predicate ClaimsApart(s: RowSys, a: RowAction) { a.ClaimRow? ==> !Pending(s.callers, a.key) }

  ghost predicate ApartRun(s: RowSys, acts: seq<RowAction>)
    decreases |acts|
  {
    acts == [] || (ClaimsApart(s, acts[0]) && ApartRun(RowApply(s, acts[0]), acts[1..]))
  }

  ghost predicate OnePending(callers: map<Caller, Stage>, key: string) {
    forall c, d :: c in callers && d in callers && callers[c] == Chosen(key) && callers[d] == Chosen(key) ==> c == d
  }

  ghost predicate RowOk(s: RowSys, key: string) {
    && OnePending(s.callers, key)
    && CountsOk(PhaseAt(s.phases, key), Pending(s.callers, key), Unprobed(s.log, key), Retries(s.log, key))
  }

  predicate CountsOk(p: Phase, pending: bool, calls: nat, retries: nat) {
    && calls <= 1 + retries
    && (pending ==> calls <= retries && p != Absent)
    && (!pending && (p == Absent || p == Open(0)) ==> calls <= retries)
  }

  /** Nobody but `c` moved, and `c` is not told to run the key. */
  lemma PendingKept(callers: map<Caller, Stage>, c: Caller, stage: Option<Stage>, key: string)
    requires OnePending(callers, key) && stage != Some(Chosen(key))
    ensures var now := if stage.Some? then callers[c := stage.value] else callers - {c};
            && OnePending(now, key)
            && (Pending(now, key) <==> Pending(callers, key) && !(c in callers && callers[c] == Chosen(key)))
  {
    var now := if stage.Some? then callers[c := stage.value] else callers - {c};
    if d :| d in callers && callers[d] == Chosen(key) && !(c in callers && callers[c] == Chosen(key)) {
      assert d in now && now[d] == Chosen(key);
    }
    if d :| d in now && now[d] == Chosen(key) {
      assert d in callers && callers[d] == Chosen(key);
    }
  }

  lemma ClaimStep(s: RowSys, c: Caller, k: string, key: string)
    requires RowOk(s, key) && (key == k ==> !Pending(s.callers, key))
    ensures RowOk(DoClaim(s, c, k), key)
  {
    var t := DoClaim(s, c, k);
    if c !in s.callers {
      var p := Inserted(PhaseAt(s.phases, k));
      if t.log != s.log {
        Logged(s.log, t.log[|s.log|], key);
        PendingKept(s.callers, c, None, key);
      } else if p == Open(0) && k == key {
        assert t.callers[c] == Chosen(key);
        assert Pending(t.callers, key);
      } else {
        PendingKept(s.callers, c, Some(t.callers[c]), key);
      }
    }
  }

  lemma ReconcileStep(s: RowSys, c: Caller, probe: Option<ProbeReply>, key: string)
    requires RowOk(s, key)
    ensures RowOk(DoReconcile(s, c, probe), key)
  {
    var t := DoReconcile(s, c, probe);
    if c in s.callers && s.callers[c].InDoubt? {
      if t.log != s.log {
        Logged(s.log, t.log[|s.log|], key);
        PendingKept(s.callers, c, None, key);
      } else {
        PendingKept(s.callers, c, Some(t.callers[c]), key);
      }
    }
  }

  lemma TryStep(s: RowSys, c: Caller, key: string)
    requires RowOk(s, key)
    ensures RowOk(DoTry(s, c), key)
  {
    var t := DoTry(s, c);
    if t != s {
      Logged(s.log, t.log[|s.log|], key);
      PendingKept(s.callers, c, Some(t.callers[c]), key);
    }
  }

  lemma FinishStep(s: RowSys, c: Caller, fn: FnReply, key: string)
    requires RowOk(s, key)
    ensures RowOk(DoFinish(s, c, fn), key)
  {
    var t := DoFinish(s, c, fn);
    if c in s.callers && s.callers[c].Working? {
      Logged(s.log, t.log[|s.log|], key);
      PendingKept(s.callers, c, None, key);
    }
  }

  lemma RowStep(s: RowSys, a: RowAction, key: string)
    requires RowOk(s, key) && ClaimsApart(s, a)
    ensures RowOk(RowApply(s, a), key)
  {
    match a
    case ClaimRow(c, k) => ClaimStep(s, c, k, key);
    case GiveToReview(c) => ReconcileStep(s, c, None, key);
    case AskProbe(c, reply) => ReconcileStep(s, c, Some(reply), key);
    case Try(c) => TryStep(s, c, key);
    case Finish(c, fn) => FinishStep(s, c, fn, key);
    case Die(c) => PendingKept(s.callers, c, None, key);
    case RowResolve(k, action, result) => ResolveStep(s, k, action, result, key);
  }

  lemma ResolveStep(s: RowSys, k: string, action: string, result: Option<Json>, key: string)
    requires RowOk(s, key)
    ensures RowOk(RowApply(s, RowResolve(k, action, result)), key)
  {
    var t := RowApply(s, RowResolve(k, action, result));
    if t.log != s.log {
      Logged(s.log, Retried(k), key);
    }
  }

  lemma {:induction false} RowRunOk(s: RowSys, acts: seq<RowAction>, key: string)
    requires RowOk(s, key) && ApartRun(s, acts)
    ensures RowOk(RowRun(s, acts), key)
    decreases |acts|
  {
    hide RowOk, RowApply, ClaimsApart;
    if acts != [] {
      RowStep(s, acts[0], key);
      RowRunOk(RowApply(s, acts[0]), acts[1..], key);
    }
  }

  /**
   Postgres keeps the bound on calls, and no more than that, as long as no claim falls between another
   caller's claim and its attempt mark.
  */
  lemma PostgresOnceWhenApart(acts: seq<RowAction>, key: string)
    requires ApartRun(ROW_INIT, acts)
    ensures var log := RowRun(ROW_INIT, acts).log; Unprobed(log, key) <= 1 + Retries(log, key)
  {
    RowRunOk(ROW_INIT, acts, key);
  }

  /**
   A claim that does fall there, with the bound used up, breaks it: both callers invoke the function.
   So for the bound the condition above cannot be weakened for keys at their bound.
  */
  lemma OverlapBreaks(s: RowSys, key: string, c: Caller, d: Caller)
    requires c in s.callers && s.callers[c] == Chosen(key) && d !in s.callers
    requires PhaseAt(s.phases, key) == Open(0) && Unprobed(s.log, key) == Retries(s.log, key)
    ensures var log := RowRun(s, [ClaimRow(d, key), Try(c), Try(d)]).log;
            Unprobed(log, key) == 2 + Retries(log, key) && Retries(log, key) == Retries(s.log, key)
  {
    var s1 := RowApply(s, ClaimRow(d, key));
    var s2 := RowApply(s1, Try(c));
    var s3 := RowApply(s2, Try(d));
    Logged(s.log, Called(key, false), key);
    Logged(s.log + [Called(key, false)], Called(key, false), key);
    var acts := [ClaimRow(d, key), Try(c), Try(d)];
    assert acts[1..] == [Try(c), Try(d)] && acts[1..][1..] == [Try(d)] && acts[1..][1..][1..] == [];
    hide RowApply, Unprobed, Retries;
    assert RowRun(s, acts) == RowRun(s1, [Try(c), Try(d)]);
    assert RowRun(s1, [Try(c), Try(d)]) == RowRun(s2, [Try(d)]);
    assert RowRun(s2, [Try(d)]) == RowRun(s3, []);
  }

  /** Two first callers of one key: the function runs twice, with no crash and no retry. */
  lemma TwoCallersRunTwice(key: string)
    ensures var log := RowRun(ROW_INIT, [ClaimRow(1, key), ClaimRow(2, key), Try(1), Try(2)]).log;
            Unprobed(log, key) == 2 && Retries(log, key) == 0
  {
    var acts := [ClaimRow(1, key), ClaimRow(2, key), Try(1), Try(2)];
    var s := RowApply(ROW_INIT, ClaimRow(1, key));
    assert acts[1..] == [ClaimRow(2, key), Try(1), Try(2)];
    OverlapBreaks(s, key, 1, 2);
  }
}
