/**
 The whole contract for the row-based engine. It is met when a key is claimed only while no caller stands
 at any stage for it, and every claim that falls otherwise can be followed by two functions in flight and
 two different answers.
*/
module SerialClaims {
  import opened Contention
  import opened Engine
  import opened Json
  import opened Wrappers

  /** Some caller was told to run or reconcile the key and has not answered yet. */
  predicate Busy(callers: map<Caller, Stage>, key: string) {
    exists c :: c in callers && callers[c].key == key
  }

  predicate SerialStep(s: RowSys, a: RowAction) { a.ClaimRow? ==> !Busy(s.callers, a.key) }

  ghost predicate SerialRun(s: RowSys, acts: seq<RowAction>)
    decreases |acts|
  {
    acts == [] || (SerialStep(s, acts[0]) && SerialRun(RowApply(s, acts[0]), acts[1..]))
  }

  /** The contract: the bound on calls, and a settled answer that is the key's last word. */
  ghost predicate Contract(log: seq<Event>, key: string) {
    && Unprobed(log, key) <= 1 + Retries(log, key)
    && forall i, j :: 0 <= i < j < |log| && IsSettled(log[i], key) && log[j].key == key ==> log[j] == log[i]
  }

  /** At most one function for the key is in flight. */
  ghost predicate OneInFlight(callers: map<Caller, Stage>, key: string) {
    forall c, d :: c in callers && d in callers && callers[c] == Working(key) && callers[d] == Working(key) ==> c == d
  }

  // ---- the invariant ------------------------------------------------------------------------------

  ghost predicate OneCaller(callers: map<Caller, Stage>, key: string) {
    forall c, d :: c in callers && d in callers && callers[c].key == key && callers[d].key == key ==> c == d
  }

  /** Where a caller may stand while its key's row is in phase `p`. */
  predicate StageOk(stage: Stage, p: Phase) { p.Open? && (stage.Chosen? <==> p.attempts == 0) }

  ghost predicate StagesOk(callers: map<Caller, Stage>, key: string, p: Phase) {
    forall c :: c in callers && callers[c].key == key ==> StageOk(callers[c], p)
  }

  predicate Bounded(p: Phase, calls: nat, retries: nat) {
    calls <= if p == Absent || p == Open(0) then retries else 1 + retries
  }

  ghost predicate SerialOk(s: RowSys, key: string) {
    var p := PhaseAt(s.phases, key);
    && OneCaller(s.callers, key)
    && StagesOk(s.callers, key, p)
    && Bounded(p, Unprobed(s.log, key), Retries(s.log, key))
    && Stable(s.log, key, p)
  }

  /** The caller leaves, and something about its key is logged. */
  lemma ReplyKeeps(s: RowSys, c: Caller, k: string, q: Phase, r: Reply, key: string)
    requires SerialOk(s, key)
    requires k == key ==>
      && (forall d :: d in s.callers && s.callers[d].key == key ==> d == c)
      && (var p := PhaseAt(s.phases, key);
          && q != Absent && q != Open(0)
          && (if p.Done? || p.Broken? then q == p && Settled(r) && PhaseOfReply(r) == p
              else Settled(r) ==> q == PhaseOfReply(r)))
    ensures SerialOk(Contention.Reply(s, c, k, q, r), key)
  {
    var t := Contention.Reply(s, c, k, q, r);
    Logged(s.log, Returned(k, r), key);
    StableSnoc(s.log, key, PhaseAt(s.phases, key), Returned(k, r), PhaseAt(t.phases, key));
  }

  lemma ClaimKeeps(s: RowSys, c: Caller, k: string, key: string)
    requires SerialOk(s, key) && (k == key ==> !Busy(s.callers, key))
    ensures SerialOk(DoClaim(s, c, k), key)
  {
    if c !in s.callers {
      var p := PhaseAt(s.phases, k);
      hide Stable;
      match p
      case Done(r) => ReplyKeeps(s.(phases := s.phases[k := p]), c, k, p, Value(r), key);
      case Broken(m) => ReplyKeeps(s.(phases := s.phases[k := p]), c, k, p, Reply.ToolFailed(m), key);
      case Review => ReplyKeeps(s.(phases := s.phases[k := p]), c, k, p, InReview, key);
      case _ => StandKeeps(s, c, k, key);
    }
  }

  lemma StandKeeps(s: RowSys, c: Caller, k: string, key: string)
    requires SerialOk(s, key) && (k == key ==> !Busy(s.callers, key)) && c !in s.callers
    requires PhaseAt(s.phases, k).Absent? || PhaseAt(s.phases, k).Open?
    ensures SerialOk(DoClaim(s, c, k), key)
  {
  }

  lemma TryKeeps(s: RowSys, c: Caller, key: string)
    requires SerialOk(s, key)
    ensures SerialOk(DoTry(s, c), key)
  {
    var t := DoTry(s, c);
    if t != s {
      var e := t.log[|s.log|];
      assert t.log == s.log + [e];
      Logged(s.log, e, key);
      StableSnoc(s.log, key, PhaseAt(s.phases, key), e, PhaseAt(t.phases, key));
    }
  }

  lemma FinishKeeps(s: RowSys, c: Caller, fn: FnReply, key: string)
    requires SerialOk(s, key)
    ensures SerialOk(DoFinish(s, c, fn), key)
  {
    if c in s.callers && s.callers[c].Working? {
      var k := s.callers[c].key;
      var p := PhaseAt(s.phases, k);
      hide Stable;
      match fn
      case Fine(r) => ReplyKeeps(s, c, k, IfOpen(p, Done(r)), Value(r), key);
      case Crashed(m) => ReplyKeeps(s, c, k, p, Reply.Crash(m), key);
      case Bad(m) => ReplyKeeps(s, c, k, IfOpen(p, Broken(m)), Reply.ToolFailed(m), key);
    }
  }

  lemma ReconcileKeeps(s: RowSys, c: Caller, probe: Option<ProbeReply>, key: string)
    requires SerialOk(s, key)
    ensures SerialOk(DoReconcile(s, c, probe), key)
  {
    if c in s.callers && s.callers[c].InDoubt? {
      var k := s.callers[c].key;
      var p := PhaseAt(s.phases, k);
      hide Stable;
      match probe
      case None => ReplyKeeps(s, c, k, IfOpen(p, Review), InReview, key);
      case Some(Found(r)) => ReplyKeeps(s, c, k, IfOpen(p, Done(r)), Value(r), key);
      case Some(_) =>
    }
  }

  lemma ResolveKeeps(s: RowSys, k: string, action: string, result: Option<Json>, key: string)
    requires SerialOk(s, key)
    ensures SerialOk(RowApply(s, RowResolve(k, action, result)), key)
  {
    var p, t := PhaseAt(s.phases, k), RowApply(s, RowResolve(k, action, result));
    if k == key && PhaseAt(t.phases, key) != p {
      StableReview(s.log, key, PhaseAt(t.phases, key));
    }
    if t.log != s.log {
      Logged(s.log, Retried(k), key);
      StableSnoc(s.log, key, PhaseAt(s.phases, key), Retried(k), PhaseAt(t.phases, key));
    }
  }

  lemma SerialKeeps(s: RowSys, a: RowAction, key: string)
    requires SerialOk(s, key) && SerialStep(s, a)
    ensures SerialOk(RowApply(s, a), key)
  {
    hide SerialOk, DoClaim, DoTry, DoFinish, DoReconcile;
    match a
    case ClaimRow(c, k) => ClaimKeeps(s, c, k, key);
    case GiveToReview(c) => ReconcileKeeps(s, c, None, key);
    case AskProbe(c, reply) => ReconcileKeeps(s, c, Some(reply), key);
    case Try(c) => TryKeeps(s, c, key);
    case Finish(c, fn) => FinishKeeps(s, c, fn, key);
    case Die(c) => DieKeeps(s, c, key);
    case RowResolve(k, action, result) => ResolveKeeps(s, k, action, result, key);
  }

  lemma DieKeeps(s: RowSys, c: Caller, key: string)
    requires SerialOk(s, key)
    ensures SerialOk(s.(callers := s.callers - {c}), key)
  {
    hide Stable;
  }

  lemma {:induction false} SerialRunOk(s: RowSys, acts: seq<RowAction>, key: string)
    requires SerialOk(s, key) && SerialRun(s, acts)
    ensures SerialOk(RowRun(s, acts), key)
    decreases |acts|
  {
    hide SerialOk, RowApply, SerialStep;
    if acts != [] {
      SerialKeeps(s, acts[0], key);
      SerialRunOk(RowApply(s, acts[0]), acts[1..], key);
    }
  }

  /** Claims that wait their turn: the row-based engine meets the contract in full. */
  lemma PostgresMeetsContract(acts: seq<RowAction>, key: string)
    requires SerialRun(ROW_INIT, acts)
    ensures var s := RowRun(ROW_INIT, acts); Contract(s.log, key) && OneInFlight(s.callers, key)
  {
    SerialRunOk(ROW_INIT, acts, key);
    hide RowRun;
    var s := RowRun(ROW_INIT, acts);
    assert forall i, j :: 0 <= i < j < |s.log| && IsSettled(s.log[i], key) ==> Follows(s.log[i], s.log[j], key);
  }

  // ---- any other claim can break it -----------------------------------------------------------------

  lemma {:induction false} RunConcat(s: RowSys, a: seq<RowAction>, b: seq<RowAction>)
    ensures RowRun(s, a + b) == RowRun(RowRun(s, a), b)
    decreases |a|
  {
    hide RowApply;
    if a == [] {
      assert a + b == b;
    } else {
      assert (a + b)[1..] == a[1..] + b;
      RunConcat(RowApply(s, a[0]), a[1..], b);
    }
  }

  lemma Walk(s0: RowSys, acts: seq<RowAction>, s: RowSys, a: RowAction) returns (acts': seq<RowAction>, s': RowSys)
    requires s == RowRun(s0, acts)
    ensures acts' == acts + [a] && s' == RowRun(s0, acts') && s' == RowApply(s, a)
  {
    hide RowApply;
    acts', s' := acts + [a], RowApply(s, a);
    RunConcat(s0, acts, [a]);
    assert [a][1..] == [];
  }

  /** A caller at any stage for the key gets its function going, whatever stands in the row's phase. */
  lemma GetsGoing(s0: RowSys, acts: seq<RowAction>, s: RowSys, c: Caller, key: string)
    returns (acts': seq<RowAction>, s': RowSys)
    requires s == RowRun(s0, acts) && c in s.callers && s.callers[c].key == key && PhaseAt(s.phases, key).Open?
    ensures acts <= acts' && s' == RowRun(s0, acts') && c in s'.callers && s'.callers[c] == Working(key)
    ensures forall d :: d != c && d in s.callers ==> d in s'.callers && s'.callers[d] == s.callers[d]
    ensures PhaseAt(s'.phases, key).Open? && s.log <= s'.log
  {
    hide RowRun;
    acts', s' := acts, s;
    if s'.callers[c].InDoubt? {
      acts', s' := Walk(s0, acts', s', AskProbe(c, NotFound));
    }
    if !s'.callers[c].Working? {
      acts', s' := Walk(s0, acts', s', Try(c));
    }
  }

  /** Both functions return, each with a result of its own. */
  lemma BothAnswer(s0: RowSys, acts: seq<RowAction>, s: RowSys, c: Caller, d: Caller, key: string)
    returns (acts': seq<RowAction>)
    requires s == RowRun(s0, acts) && c != d && c in s.callers && d in s.callers
    requires s.callers[c] == Working(key) && s.callers[d] == Working(key)
    ensures acts <= acts' && !Contract(RowRun(s0, acts').log, key)
  {
    hide RowRun;
    var s1, s2;
    acts', s1 := Walk(s0, acts, s, Finish(c, Fine(None)));
    acts', s2 := Walk(s0, acts', s1, Finish(d, Fine(Some(Null))));
    var n := |s.log|;
    assert s2.log == s.log + [Returned(key, Value(None))] + [Returned(key, Value(Some(Null)))];
    assert IsSettled(s2.log[n], key) && s2.log[n + 1].key == key && s2.log[n + 1] != s2.log[n];
  }

  /**
   From any state in which some caller stands for an open key, a claim by another caller can be followed
   by both functions being in flight at once and by two answers that differ.
  */
  lemma OverlapForks(s: RowSys, key: string, c: Caller, d: Caller) returns (both: seq<RowAction>, acts: seq<RowAction>)
    requires c in s.callers && s.callers[c].key == key && d !in s.callers && PhaseAt(s.phases, key).Open?
    ensures [ClaimRow(d, key)] <= both <= acts
    ensures !OneInFlight(RowRun(s, both).callers, key)
    ensures !Contract(RowRun(s, acts).log, key)
  {
    var t;
    assert RowRun(s, []) == s;
    both, t := Walk(s, [], s, ClaimRow(d, key));
    hide RowRun;
    both, t := GetsGoing(s, both, t, c, key);
    both, t := GetsGoing(s, both, t, d, key);
    acts := BothAnswer(s, both, t, c, d, key);
  }

  /** So after a serial run no weaker condition on the next claim will do. */
  lemma SerialIsNeeded(acts: seq<RowAction>, key: string, d: Caller)
    returns (both: seq<RowAction>, more: seq<RowAction>)
    requires SerialRun(ROW_INIT, acts)
    requires var s := RowRun(ROW_INIT, acts); d !in s.callers && !SerialStep(s, ClaimRow(d, key))
    ensures [ClaimRow(d, key)] <= both <= more
    ensures !OneInFlight(RowRun(ROW_INIT, acts + both).callers, key)
    ensures !Contract(RowRun(ROW_INIT, acts + more).log, key)
  {
    var s := RowRun(ROW_INIT, acts);
    SerialRunOk(ROW_INIT, acts, key);
    hide RowRun;
    var c :| c in s.callers && s.callers[c].key == key;
    assert StageOk(s.callers[c], PhaseAt(s.phases, key));
    both, more := OverlapForks(s, key, c, d);
    RunConcat(ROW_INIT, acts, both);
    RunConcat(ROW_INIT, acts, more);
  }

  lemma {:induction false} ApartSnoc(s: RowSys, acts: seq<RowAction>, a: RowAction)
    requires ApartRun(s, acts) && ClaimsApart(RowRun(s, acts), a)
    ensures ApartRun(s, acts + [a])
    decreases |acts|
  {
    hide RowApply, ClaimsApart;
    if acts == [] {
      assert acts + [a] == [a] && [a][1..] == [];
    } else {
      ApartSnoc(RowApply(s, acts[0]), acts[1..], a);
      assert (acts + [a])[1..] == acts[1..] + [a];
    }
  }

  /** One caller's function is running when another claims the key. */
  lemma SecondDoubts(key: string) returns (acts: seq<RowAction>, s: RowSys)
    ensures ApartRun(ROW_INIT, acts) && s == RowRun(ROW_INIT, acts)
    ensures s == RowSys(map[key := Open(1)], map[1 := Working(key), 2 := InDoubt(key)], [Called(key, false)])
  {
    acts, s := [], ROW_INIT;
    assert ApartRun(s, acts) && RowRun(s, acts) == s;
    hide ApartRun, RowRun;
    ApartSnoc(ROW_INIT, acts, ClaimRow(1, key));
    acts, s := Walk(ROW_INIT, acts, s, ClaimRow(1, key));
    ApartSnoc(ROW_INIT, acts, Try(1));
    acts, s := Walk(ROW_INIT, acts, s, Try(1));
    ApartSnoc(ROW_INIT, acts, ClaimRow(2, key));
    acts, s := Walk(ROW_INIT, acts, s, ClaimRow(2, key));
  }

  /**
   Keeping claims apart only until the attempt mark is not enough for the answers: the second caller
   probes while the first one's function runs, and one key is answered in two ways.
  */
  lemma TwoAnswers(key: string) returns (acts: seq<RowAction>)
    ensures ApartRun(ROW_INIT, acts)
    ensures RowRun(ROW_INIT, acts).log ==
      [Called(key, false), Returned(key, Value(Some(Null))), Returned(key, Value(None))]
    ensures !Contract(RowRun(ROW_INIT, acts).log, key)
  {
    var s;
    acts, s := SecondDoubts(key);
    hide ApartRun, RowRun;
    ApartSnoc(ROW_INIT, acts, RowAction.AskProbe(2, Found(Some(Null))));
    acts, s := Walk(ROW_INIT, acts, s, RowAction.AskProbe(2, Found(Some(Null))));
    ApartSnoc(ROW_INIT, acts, Finish(1, Fine(None)));
    acts, s := Walk(ROW_INIT, acts, s, Finish(1, Fine(None)));
    assert IsSettled(s.log[1], key) && s.log[2].key == key && s.log[2] != s.log[1];
  }
}
