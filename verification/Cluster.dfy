/**
 A store shared by any number of workers. Every action of the protocol is carried out by the store's
 methods, one transaction each, so what is proved of the protocol's runs holds of the tables.
*/
module Cluster {
  import opened Fsm
  import opened Goals
  import opened Guarantees
  import opened Invariants
  import opened Json
  import opened Key
  import opened Protocol
  import opened Safety
  import opened Store
  import opened Wrappers

  /** Somebody else's action leaves a worker's position alone. */
  lemma NotMine(c: Config, s: Sys, a: Action, w: WorkerId)
    requires !(a.Do? && a.w == w)
    ensures At(Apply(c, s, a), w) == At(s, w)
  {
    hide KeyOf, ResultMessage;
    if a.Do? {
      OnlyMover(c, s, a.w, a.op, w);
    }
  }

  lemma OnlyMover(c: Config, s: Sys, v: WorkerId, op: Op, w: WorkerId)
    requires v != w
    ensures At(Work(c, s, v, op), w) == At(s, w)
  {
    hide KeyOf, ResultMessage;
  }

  // ---- keys never clash -------------------------------------------------------------------------

  /** A key bound to one goal and step is never the key of another row. */
  lemma FreshKey(c: Config, tool: string, args: Json, step: nat, d: Config, t: Sys, k: nat)
    requires Inv(d, t) && ValidGoalId(c.goal) && ValidGoalId(d.goal) && WellFormed(args)
    requires k in t.slice.effects && t.slice.effects[k].key == KeyOf(tool, args, c.goal, step)
    ensures c.goal == d.goal && step == k
  {
    hide KeyOf, CallsBound, ReturnsStored, ResultsDelivered, WritesOrdered, LocalOk;
    var f := t.slice.effects[k];
    assert Bound(d, k, f);
    KeyInjective(tool, args, c.goal, step, f.tool, f.args, d.goal, k);
  }

  /** A goal as the cluster knows it: the protocol's state and every action taken on the goal so far. */
  datatype Entry = Entry(state: Sys, trail: seq<Action>)

  /** The state is what the protocol makes of the trail, and its rows are those in the tables. */
  ghost predicate Tracked(c: Config, e: Entry, rows: Slice) {
    ValidGoalId(c.goal) && e.state.slice == rows && e.state == Run(c, INIT, e.trail)
  }

  predicate LeadsTo(c: Config, s: Sys, a: Action, rows: Slice) { Apply(c, s, a).slice == rows }

  /** All goals after an action on one of them. */
  function Acted(entries: map<string, Entry>, c: Config, a: Action): map<string, Entry> {
    if c.goal in entries
    then entries[c.goal := Entry(Apply(c, entries[c.goal].state, a), entries[c.goal].trail + [a])]
    else entries
  }

  /** All goals after everybody's actions. */
  function ActedAll(
    entries: map<string, Entry>, maxSteps: nat, probers: set<string>, acts: seq<(string, Action)>): map<string, Entry>
  {
    if acts == [] then entries
    else
      var (g, a) := acts[|acts| - 1];
      Acted(ActedAll(entries, maxSteps, probers, acts[..|acts| - 1]), Config(g, maxSteps, probers), a)
  }

  /** No goal comes or goes, and a resume that was read stays pending. */
  lemma {:induction false} AllKept(
    entries: map<string, Entry>, maxSteps: nat, probers: set<string>, acts: seq<(string, Action)>)
    ensures var now := ActedAll(entries, maxSteps, probers, acts);
            && now.Keys == entries.Keys
            && forall g :: g in entries ==> entries[g].state.resumes <= now[g].state.resumes
    decreases |acts|
  {
    hide Apply;
    if acts != [] {
      var (g, a) := acts[|acts| - 1];
      AllKept(entries, maxSteps, probers, acts[..|acts| - 1]);
      var before := ActedAll(entries, maxSteps, probers, acts[..|acts| - 1]);
      if g in before {
        ResumesKept(Config(g, maxSteps, probers), before[g].state, a);
      }
    }
  }

  function Added(entries: map<string, Entry>, g: string): map<string, Entry> { entries[g := Entry(INIT, [])] }

  lemma TrackedInv(c: Config, e: Entry, rows: Slice)
    requires Tracked(c, e, rows)
    ensures Inv(c, e.state)
  {
    hide Inv, Run;
    InitInv(c);
    RunKeepsInv(c, INIT, e.trail);
  }

  lemma AddedTracked(entries: map<string, Entry>, c: Config)
    requires ValidGoalId(c.goal)
    ensures var now := Added(entries, c.goal);
            && now.Keys == entries.Keys + {c.goal}
            && Tracked(c, now[c.goal], NEW_SLICE)
            && forall h :: h in entries && h != c.goal ==> now[h] == entries[h]
  {
  }

  lemma ActionTracked(entries: map<string, Entry>, c: Config, a: Action, rows: Slice)
    requires c.goal in entries && Tracked(c, entries[c.goal], entries[c.goal].state.slice)
    requires LeadsTo(c, entries[c.goal].state, a, rows)
    ensures var now := Acted(entries, c, a);
            && now.Keys == entries.Keys
            && Tracked(c, now[c.goal], rows)
            && forall h :: h in entries && h != c.goal ==> now[h] == entries[h]
  {
    hide Apply, Run;
    Snoc(c, INIT, entries[c.goal].trail, a);
  }

  class Cluster {
    const store: Store
    const maxSteps: nat
    const probers: set<string>
    var entries: map<string, Entry>

    constructor (store: Store, maxSteps: nat, probers: set<string>)
      requires store.goals == map[] && store.effects == map[] && store.steps == map[] && store.messages == []
      ensures Valid() && this.store == store && entries == map[] && this.maxSteps == maxSteps && this.probers == probers
    {
      this.store, this.maxSteps, this.probers, entries := store, maxSteps, probers, map[];
    }

    function ConfigOf(g: string): Config { Config(g, maxSteps, probers) }

    function State(g: string): Sys
      reads this
      requires g in entries
    {
      entries[g].state
    }

    ghost predicate Valid()
      reads this, store
    {
      && store.Valid()
      && entries.Keys == store.goals.Keys
      && forall g :: g in entries ==> Tracked(ConfigOf(g), entries[g], store.Slice(g))
    }

    /** Notes an action whose effect on the tables has been made. */
    method Note(g: string, a: Action)
      requires store.Valid() && entries.Keys == store.goals.Keys && g in entries
      requires forall h :: h in entries && h != g ==> Tracked(ConfigOf(h), entries[h], store.Slice(h))
      requires Tracked(ConfigOf(g), entries[g], State(g).slice) && LeadsTo(ConfigOf(g), State(g), a, store.Slice(g))
      modifies this
      ensures Valid() && entries == Acted(old(entries), ConfigOf(g), a)
    {
      hide Tracked, Acted, LeadsTo, EffectsOf, StepsOf, MessagesOf;
      ActionTracked(entries, ConfigOf(g), a, store.Slice(g));
      entries := Acted(entries, ConfigOf(g), a);
    }

    method Create(g: string) returns (ok: bool)
      requires Valid()
      modifies this, store
      ensures Valid()
      ensures ok <==> ValidGoalId(g) && g !in old(entries)
      ensures ok ==> entries == Added(old(entries), g)
      ensures !ok ==> entries == old(entries)
    {
      hide Tracked, EffectsOf, StepsOf, MessagesOf, Added;
      ok := ValidGoalId(g);
      if ok {
        ok := store.Create(g);
      }
      if ok {
        AddedTracked(entries, ConfigOf(g));
        entries := Added(entries, g);
      }
    }

    // ---- a worker's transactions ------------------------------------------------------------------

    /** The lease under which a worker acts on a goal. */
    function LeaseOf(g: string, w: WorkerId): Lease
      reads this
      requires g in entries
    {
      Lease(g, w, At(State(g), w).epoch)
    }

    method Claim(w: WorkerId, order: seq<string>, locked: set<string>) returns (r: Option<Lease>)
      requires Valid() && forall g :: g in entries ==> At(State(g), w).pc == Idle
      modifies this, store
      ensures Valid()
      ensures r.None? ==> entries == old(entries)
      ensures r.Some? ==>
        var g := r.value.goal;
        && g in old(entries) && g in entries && g in order && g !in locked
        && entries == Acted(old(entries), ConfigOf(g), Do(w, Op.Claim)) && r.value == LeaseOf(g, w)
        && At(State(g), w) == Local(r.value.epoch, 0, Head)
    {
      hide Run;
      r := store.Claim(w, order, locked);
      if r.Some? {
        Note(r.value.goal, Do(w, Op.Claim));
      }
    }

    /** Another worker claims this goal, if it can. */
    method ClaimOne(w: WorkerId, g: string)
      requires Valid() && g in entries && At(State(g), w).pc == Idle
      modifies this, store
      ensures Valid() && entries == Acted(old(entries), ConfigOf(g), Do(w, Op.Claim))
    {
      hide Run;
      var r := store.Claim(w, [g], {});
      assert [g][0] == g;
      Note(g, Do(w, Op.Claim));
    }

    /** Everybody's actions, in order. */
    method PerformAll(acts: seq<(string, Action)>)
      requires Valid()
      modifies this, store
      ensures Valid() && entries == ActedAll(old(entries), maxSteps, probers, acts)
    {
      hide Valid, Apply;
      assert acts[..|acts|] == acts;
      for i := 0 to |acts|
        invariant Valid() && entries.Keys == old(entries).Keys
        invariant entries == ActedAll(old(entries), maxSteps, probers, acts[..i])
      {
        assert acts[..i + 1][..i] == acts[..i];
        var (g, a) := acts[i];
        if g in entries {
          Perform(g, a);
        }
        AllKept(old(entries), maxSteps, probers, acts[..i + 1]);
      }
    }

    /**
     Resume as the code makes it: one transaction reads the state paused from, anything may happen, and
     another one writes that state. It is refused when the goal was not paused, or when it has meanwhile
     left every state that the target can be reached from.
    */
    method Resume(g: string, between: seq<(string, Action)>) returns (r: Result<State, StoreError>)
      requires Valid() && g in entries
      modifies this, store
      ensures Valid() && g in entries
      ensures r.Success? ==>
        old(State(g)).slice.goal.state == Paused && old(State(g)).slice.goal.pausedFrom == Some(r.value)
      ensures old(State(g)).slice.goal.state == Paused ==>
        var to := old(State(g)).slice.goal.pausedFrom;
        var met := ActedAll(Acted(old(entries), ConfigOf(g), ResumeRead), maxSteps, probers, between);
        && to.Some? && g in met && entries == Acted(met, ConfigOf(g), ResumeWrite(to.value))
        && (r.Success? <==> CanTransition(met[g].state.slice.goal.state, to.value))
      ensures old(State(g)).slice.goal.state != Paused ==> r.Failure? && entries == old(entries)
    {
      hide Valid, ActedAll, Apply;
      r := ReadTarget(g);
      if r.Failure? {
        return;
      }
      ghost var read := entries;
      PerformAll(between);
      AllKept(read, maxSteps, probers, between);
      r := WriteTarget(g, r.value);
    }

    method ReadTarget(g: string) returns (r: Result<State, StoreError>)
      requires Valid() && g in entries
      modifies this, store
      ensures Valid() && g in entries
      ensures r.Success? <==> old(State(g)).slice.goal.state == Paused
      ensures r.Success? ==> old(State(g)).slice.goal.pausedFrom == Some(r.value) && r.value in State(g).resumes
      ensures entries == if r.Success? then Acted(old(entries), ConfigOf(g), ResumeRead) else old(entries)
    {
      hide Run, Inv, LeadsTo, EffectsOf, StepsOf, MessagesOf;
      TrackedInv(ConfigOf(g), entries[g], store.Slice(g));
      PausedRemembers(ConfigOf(g), State(g));
      r := store.ResumeTarget(g);
      if r.Success? {
        ResumeReadLeads(ConfigOf(g), State(g));
        Note(g, ResumeRead);
      }
    }

    method WriteTarget(g: string, to: State) returns (r: Result<State, StoreError>)
      requires Valid() && g in entries && to in State(g).resumes
      modifies this, store
      ensures Valid() && entries == Acted(old(entries), ConfigOf(g), ResumeWrite(to))
      ensures r.Success? <==> CanTransition(old(State(g)).slice.goal.state, to)
      ensures r.Success? ==> r.value == to
    {
      hide Run, Acted, LeadsTo, EffectsOf, StepsOf, MessagesOf, Moved, CanTransition;
      ResumeWriteLeads(ConfigOf(g), State(g), to);
      var moved := store.Transition(g, to);
      Note(g, ResumeWrite(to));
      return if moved.Success? then Success(to) else Failure(moved.error);
    }

    method Heartbeat(g: string, w: WorkerId) returns (ok: bool)
      requires Valid() && g in entries && At(State(g), w).pc != Idle
      modifies this, store
      ensures Valid() && entries == Acted(old(entries), ConfigOf(g), Do(w, Op.Heartbeat))
      ensures ok <==> HoldsLease(old(State(g)), w)
    {
      hide Run, Acted, LeadsTo, EffectsOf, StepsOf, MessagesOf;
      HeartbeatLeads(ConfigOf(g), State(g), w);
      ok := store.Heartbeat(LeaseOf(g, w));
      Note(g, Do(w, Op.Heartbeat));
    }

    /**
     Records the intent, or finds the row already there. No other goal's row can carry the key, so the
     row found is always the step's own.
    */
    method CommitIntent(g: string, w: WorkerId, key: string, step: nat, tool: string, args: Json)
      returns (r: Result<(Effect, bool), StoreError>)
      requires Valid() && g in entries && key == KeyOf(tool, args, g, step)
      requires At(State(g), w).pc == Intend(step, tool, args) || At(State(g), w).pc == Request(step, tool, args)
      modifies this, store
      ensures Valid() && entries == Acted(old(entries), ConfigOf(g), Do(w, Op.CommitIntent))
      ensures r.Success? <==> HoldsLease(old(State(g)), w)
      ensures r.Success? ==> (r.value.1 <==> step !in old(State(g)).slice.effects)
      ensures r.Success? && r.value.1 ==> r.value.0 == NewEffect(key, step, tool, args)
      ensures r.Success? && !r.value.1 ==> r.value.0 == old(State(g)).slice.effects[step]
    {
      hide Run, Acted, LeadsTo, EffectsOf, StepsOf, MessagesOf, KeyOf;
      IntentLeads(ConfigOf(g), State(g), w);
      store.RowOf(g, step);
      assert Tracked(ConfigOf(g), entries[g], store.Slice(g));
      KeyIsFree(g, w);
      var answer := store.CommitIntent(LeaseOf(g, w), key, step, tool, args);
      if answer.Failure? {
        Note(g, Do(w, Op.CommitIntent));
        return Failure(answer.error);
      }
      var (p, created) := answer.value;
      assert p == (g, step);
      store.RowOf(g, step);
      Note(g, Do(w, Op.CommitIntent));
      return Success((store.effects[p], created));
    }

    method FlagReview(g: string, w: WorkerId, e: Effect, why: string)
      requires Valid() && g in entries && At(State(g), w).pc == Flag(e) && e.step in State(g).slice.effects
      modifies this, store
      ensures Valid() && entries == Acted(old(entries), ConfigOf(g), Do(w, Op.FlagReview(why)))
    {
      hide Run, Acted, LeadsTo, EffectsOf, StepsOf, MessagesOf, Flagged;
      FlagLeads(ConfigOf(g), State(g), w, why);
      store.RowOf(g, e.step);
      store.MarkNeedsReview((g, e.step), why);
      Note(g, Do(w, Op.FlagReview(why)));
    }

    method MarkAttempt(g: string, w: WorkerId, e: Effect)
      requires Valid() && g in entries && At(State(g), w).pc == Mark(e) && e.step in State(g).slice.effects
      modifies this, store
      ensures Valid() && entries == Acted(old(entries), ConfigOf(g), Do(w, Op.MarkAttempt))
    {
      hide Run, Acted, LeadsTo, EffectsOf, StepsOf, MessagesOf, Attempted;
      MarkLeads(ConfigOf(g), State(g), w);
      store.RowOf(g, e.step);
      store.MarkAttempt((g, e.step));
      Note(g, Do(w, Op.MarkAttempt));
    }

    method RecordResult(g: string, w: WorkerId, e: Effect, o: Outcome) returns (r: Effect)
      requires Valid() && g in entries && At(State(g), w).pc == Learn(e, o) && e.step in State(g).slice.effects
      modifies this, store
      ensures Valid() && entries == Acted(old(entries), ConfigOf(g), Do(w, Op.RecordResult))
      ensures r == Settled(old(State(g)).slice.effects[e.step], o)
    {
      hide Run, Acted, LeadsTo, EffectsOf, StepsOf, MessagesOf, Settled, Goals.CommitResult;
      RecordLeads(ConfigOf(g), State(g), w);
      store.RowOf(g, e.step);
      var answer := store.CommitResult((g, e.step), o);
      Note(g, Do(w, Op.RecordResult));
      return answer.value;
    }

    method CommitStep(g: string, w: WorkerId, e: Effect) returns (ok: bool)
      requires Valid() && g in entries && At(State(g), w).pc == Advance(e)
      modifies this, store
      ensures Valid() && entries == Acted(old(entries), ConfigOf(g), Do(w, Op.AdvanceCursor))
      ensures ok <==>
        && HoldsLease(old(State(g)), w) && old(State(g)).slice.goal.cursor == e.step
        && e.step !in old(State(g)).slice.steps
    {
      hide Run, Acted, LeadsTo, EffectsOf, StepsOf, MessagesOf, Goals.CommitStep;
      AdvanceLeads(ConfigOf(g), State(g), w);
      store.RowOf(g, e.step);
      var error := store.CommitStep(LeaseOf(g, w), e);
      Note(g, Do(w, Op.AdvanceCursor));
      return error.None?;
    }

    method TransitionFenced(g: string, w: WorkerId, to: State) returns (ok: bool)
      requires Valid() && g in entries && At(State(g), w).pc.Fence? && At(State(g), w).pc.to == to
      modifies this, store
      ensures Valid() && entries == Acted(old(entries), ConfigOf(g), Do(w, Op.Transition))
      ensures ok <==> HoldsLease(old(State(g)), w) && CanTransition(old(State(g)).slice.goal.state, to)
    {
      hide Run, Acted, LeadsTo, EffectsOf, StepsOf, MessagesOf, Moved, CanTransition;
      FenceLeads(ConfigOf(g), State(g), w);
      var r := store.TransitionFenced(LeaseOf(g, w), to);
      Note(g, Do(w, Op.Transition));
      return r.Success?;
    }

    method Release(g: string, w: WorkerId)
      requires Valid() && g in entries && At(State(g), w).pc == Leave
      modifies this, store
      ensures Valid() && entries == Acted(old(entries), ConfigOf(g), Do(w, Op.Release))
    {
      hide Run, Acted, LeadsTo, EffectsOf, StepsOf, MessagesOf, Released;
      ReleaseLeads(ConfigOf(g), State(g), w);
      store.Release(LeaseOf(g, w));
      Note(g, Do(w, Op.Release));
    }

    /**
     In the tables of every cluster, whoever wrote them: a goal's step rows are exactly those below its
     cursor, each a copy of a committed effect row, and every effect row is at or below the cursor under
     the key of its own goal and step.
    */
    lemma TablesAgree(g: string, k: nat)
      requires Valid() && g in entries
      ensures (g, k) in store.steps <==> k < store.goals[g].cursor
      ensures (g, k) in store.steps ==> (g, k) in store.effects && Copies(store.steps[(g, k)], store.effects[(g, k)])
      ensures (g, k) in store.effects ==>
        k <= store.goals[g].cursor && Bound(ConfigOf(g), k, store.effects[(g, k)])
    {
      hide Run, KeyOf, LocalOk, CallsBound, ReturnsStored, ResultsDelivered, WritesOrdered;
      TrackedInv(ConfigOf(g), entries[g], store.Slice(g));
      store.RowOf(g, k);
      assert (g, k) in store.steps ==> store.steps[(g, k)] == store.Slice(g).steps[k];
    }

    // ---- what a worker reads ------------------------------------------------------------------------

    method LoadFenced(g: string, w: WorkerId) returns (r: Option<Goal>)
      requires Valid() && g in entries
      ensures r.Some? <==> HoldsLease(State(g), w)
      ensures r.Some? ==> r.value == State(g).slice.goal
    {
      hide Run, EffectsOf, StepsOf, MessagesOf;
      var row := store.LoadFenced(LeaseOf(g, w));
      return if row.Success? then Some(row.value) else None;
    }

    method EffectByStep(g: string, k: nat) returns (r: Option<Effect>)
      requires Valid() && g in entries
      ensures r.Some? <==> k in State(g).slice.effects
      ensures r.Some? ==> r.value == State(g).slice.effects[k]
    {
      hide Run, EffectsOf, StepsOf, MessagesOf;
      store.RowOf(g, k);
      var row := store.EffectByStep(g, k);
      return if row.Success? then Some(row.value) else None;
    }

    method Steps(g: string) returns (h: map<nat, StepRow>)
      requires Valid() && g in entries
      ensures h == State(g).slice.steps
    {
      hide Run, EffectsOf, StepsOf, MessagesOf;
      h := StepsOf(store.steps, g);
    }

    method Messages(g: string) returns (ms: seq<Message>)
      requires Valid() && g in entries
      ensures ms == State(g).slice.messages
    {
      hide Run, EffectsOf, StepsOf, MessagesOf;
      ms := MessagesOf(store.messages, g);
    }

    // ---- anybody's action -------------------------------------------------------------------------

    /** Carries out any action of the protocol on the tables. */
    method Perform(g: string, a: Action)
      requires Valid() && g in entries
      modifies this, store
      ensures Valid() && entries == Acted(old(entries), ConfigOf(g), a)
    {
      hide Run, Acted, LeadsTo, EffectsOf, StepsOf, MessagesOf;
      match a {
        case Do(w, op) => PerformWork(g, w, op);
        case Signal(to) =>
          SignalLeads(ConfigOf(g), State(g), to);
          if to == Approved || to == Paused || to == Cancelled {
            var _ := store.Transition(g, to);
          }
          Note(g, a);
        case ResumeRead =>
          ResumeReadLeads(ConfigOf(g), State(g));
          Note(g, a);
        case ResumeWrite(to) =>
          ResumeWriteLeads(ConfigOf(g), State(g), to);
          if to in State(g).resumes {
            var _ := store.Transition(g, to);
          }
          Note(g, a);
        case Resolve(k, how, result) =>
          ResolveLeads(ConfigOf(g), State(g), k, how, result);
          store.RowOf(g, k);
          var _ := store.ResolveReview((g, k), how, result);
          Note(g, a);
        case Post(source, body) =>
          var _ := store.AddMessage(g, source, body);
          PostLeads(ConfigOf(g), State(g), source, body);
          Note(g, a);
        case Expire =>
          ExpireLeads(ConfigOf(g), State(g));
          store.Expire(g);
          Note(g, a);
      }
    }

    method PerformWork(g: string, w: WorkerId, op: Op)
      requires Valid() && g in entries
      modifies this, store
      ensures Valid() && entries == Acted(old(entries), ConfigOf(g), Do(w, op))
    {
      hide Run, Acted, LeadsTo, EffectsOf, StepsOf, MessagesOf, KeyOf;
      var pc := At(State(g), w).pc;
      TrackedInv(ConfigOf(g), entries[g], store.Slice(g));
      CopiesNamed(ConfigOf(g), State(g), w);
      if op.Claim? && pc == Idle {
        ClaimOne(w, g);
      } else if op.Heartbeat? && pc != Idle {
        var _ := Heartbeat(g, w);
      } else if op.CommitIntent? && (pc.Intend? || pc.Request?) {
        var _ := CommitIntent(g, w, KeyOf(pc.tool, pc.args, g, pc.step), pc.step, pc.tool, pc.args);
      } else if op.FlagReview? && pc.Flag? {
        FlagReview(g, w, pc.e, op.why);
      } else if op.MarkAttempt? && pc.Mark? {
        MarkAttempt(g, w, pc.e);
      } else if op.RecordResult? && pc.Learn? {
        var _ := RecordResult(g, w, pc.e, pc.outcome);
      } else if op.AdvanceCursor? && pc.Advance? {
        var _ := CommitStep(g, w, pc.e);
      } else if op.Transition? && pc.Fence? {
        var _ := TransitionFenced(g, w, pc.to);
      } else if op.Release? && pc == Leave {
        Release(g, w);
      } else {
        OtherLeads(ConfigOf(g), State(g), w, op);
        Note(g, Do(w, op));
      }
    }

    /** A key a worker is about to record is carried by its own step's row or by none. */
    lemma KeyIsFree(g: string, w: WorkerId)
      requires Valid() && g in entries && (At(State(g), w).pc.Intend? || At(State(g), w).pc.Request?)
      ensures var pc := At(State(g), w).pc;
        forall p :: p in store.effects && store.effects[p].key == KeyOf(pc.tool, pc.args, g, pc.step) ==>
          p == (g, pc.step)
    {
      hide Inv, Run, KeyOf, EffectsOf, StepsOf, MessagesOf;
      var pc := At(State(g), w).pc;
      TrackedInv(ConfigOf(g), entries[g], store.Slice(g));
      IntentWellFormed(ConfigOf(g), State(g), w);
      forall p | p in store.effects && store.effects[p].key == KeyOf(pc.tool, pc.args, g, pc.step)
        ensures p == (g, pc.step)
      {
        store.RowOf(p.0, p.1);
        assert Tracked(ConfigOf(p.0), entries[p.0], store.Slice(p.0));
        TrackedInv(ConfigOf(p.0), entries[p.0], store.Slice(p.0));
        FreshKey(ConfigOf(g), pc.tool, pc.args, pc.step, ConfigOf(p.0), State(p.0), p.1);
      }
    }
  }

  lemma PausedRemembers(c: Config, s: Sys)
    requires Inv(c, s)
    ensures s.slice.goal.state == Paused <==> s.slice.goal.pausedFrom.Some?
    ensures s.slice.goal.state == Paused ==> s.slice.goal.pausedFrom.value in Apply(c, s, ResumeRead).resumes
  {
    hide RowsAgree, CallsBound, ReturnsStored, ResultsDelivered, WritesOrdered, LocalOk;
  }

  // ---- what each transaction does to the goal's rows ----------------------------------------------

  lemma HeartbeatLeads(c: Config, s: Sys, w: WorkerId)
    requires At(s, w).pc != Idle
    ensures LeadsTo(c, s, Do(w, Op.Heartbeat), WithGoal(s.slice, Beaten(s.slice.goal, w, At(s, w).epoch)))
  {
  }

  lemma IntentLeads(c: Config, s: Sys, w: WorkerId)
    requires At(s, w).pc.Intend? || At(s, w).pc.Request?
    ensures var pc := At(s, w).pc;
      LeadsTo(c, s, Do(w, Op.CommitIntent),
        if HoldsLease(s, w) && pc.step !in s.slice.effects
        then WithEffect(s.slice, NewEffect(KeyOf(pc.tool, pc.args, c.goal, pc.step), pc.step, pc.tool, pc.args))
        else s.slice)
  {
    hide KeyOf;
  }

  lemma IntentWellFormed(c: Config, s: Sys, w: WorkerId)
    requires Inv(c, s) && (At(s, w).pc.Intend? || At(s, w).pc.Request?)
    ensures WellFormed(At(s, w).pc.args)
  {
    hide GlobalOk;
    assert LocalOk(s, w);
  }

  lemma FlagLeads(c: Config, s: Sys, w: WorkerId, why: string)
    requires At(s, w).pc.Flag? && At(s, w).pc.e.step in s.slice.effects
    ensures LeadsTo(c, s, Do(w, Op.FlagReview(why)),
      WithEffect(s.slice, Flagged(s.slice.effects[At(s, w).pc.e.step], why)))
  {
  }

  lemma MarkLeads(c: Config, s: Sys, w: WorkerId)
    requires At(s, w).pc.Mark? && At(s, w).pc.e.step in s.slice.effects
    ensures LeadsTo(c, s, Do(w, Op.MarkAttempt), WithEffect(s.slice, Attempted(s.slice.effects[At(s, w).pc.e.step])))
  {
  }

  lemma RecordLeads(c: Config, s: Sys, w: WorkerId)
    requires At(s, w).pc.Learn? && At(s, w).pc.e.step in s.slice.effects
    ensures LeadsTo(c, s, Do(w, Op.RecordResult), Goals.CommitResult(s.slice, At(s, w).pc.e.step, At(s, w).pc.outcome))
  {
    hide ResultMessage;
  }

  lemma AdvanceLeads(c: Config, s: Sys, w: WorkerId)
    requires At(s, w).pc.Advance?
    ensures var e := At(s, w).pc.e;
      LeadsTo(c, s, Do(w, Op.AdvanceCursor),
        if HoldsLease(s, w) && s.slice.goal.cursor == e.step && e.step !in s.slice.steps
        then Goals.CommitStep(s.slice, e) else s.slice)
  {
  }

  lemma FenceLeads(c: Config, s: Sys, w: WorkerId)
    requires At(s, w).pc.Fence?
    ensures var to := At(s, w).pc.to;
      LeadsTo(c, s, Do(w, Op.Transition),
        if HoldsLease(s, w) && CanTransition(s.slice.goal.state, to)
        then WithGoal(s.slice, Moved(s.slice.goal, to)) else s.slice)
  {
  }

  lemma ReleaseLeads(c: Config, s: Sys, w: WorkerId)
    requires At(s, w).pc == Leave
    ensures LeadsTo(c, s, Do(w, Op.Release), WithGoal(s.slice, Released(s.slice.goal, w, At(s, w).epoch)))
  {
  }

  lemma OtherLeads(c: Config, s: Sys, w: WorkerId, op: Op)
    requires !(op.Claim? && At(s, w).pc == Idle) && !(op.Heartbeat? && At(s, w).pc != Idle)
    requires !(op.CommitIntent? && (At(s, w).pc.Intend? || At(s, w).pc.Request?))
    requires !(op.FlagReview? && At(s, w).pc.Flag?) && !(op.MarkAttempt? && At(s, w).pc.Mark?)
    requires !(op.RecordResult? && At(s, w).pc.Learn?) && !(op.AdvanceCursor? && At(s, w).pc.Advance?)
    requires !(op.Transition? && At(s, w).pc.Fence?) && !(op.Release? && At(s, w).pc == Leave)
    ensures LeadsTo(c, s, Do(w, op), s.slice)
  {
    hide KeyOf, ResultMessage;
  }

  lemma SignalLeads(c: Config, s: Sys, to: State)
    ensures LeadsTo(c, s, Signal(to),
      if (to == Approved || to == Paused || to == Cancelled) && CanTransition(s.slice.goal.state, to)
      then WithGoal(s.slice, Moved(s.slice.goal, to)) else s.slice)
  {
  }

  lemma ResumeReadLeads(c: Config, s: Sys)
    ensures LeadsTo(c, s, ResumeRead, s.slice)
  {
  }

  lemma ResumeWriteLeads(c: Config, s: Sys, to: State)
    ensures LeadsTo(c, s, ResumeWrite(to),
      if to in s.resumes && CanTransition(s.slice.goal.state, to) then WithGoal(s.slice, Moved(s.slice.goal, to))
      else s.slice)
  {
  }

  lemma ResolveLeads(c: Config, s: Sys, k: nat, how: Resolution, r: Option<Json>)
    ensures LeadsTo(c, s, Action.Resolve(k, how, r),
      if k in s.slice.effects && s.slice.effects[k].status == NeedsReview
      then WithEffect(s.slice, Resolved(s.slice.effects[k], how, r)) else s.slice)
  {
  }

  lemma PostLeads(c: Config, s: Sys, source: Source, body: Json)
    ensures LeadsTo(c, s, Post(source, body), Posted(s.slice, source, body))
  {
  }

  lemma ExpireLeads(c: Config, s: Sys)
    ensures LeadsTo(c, s, Expire,
      WithGoal(s.slice, s.slice.goal.(expired := s.slice.goal.owner.Some? || s.slice.goal.expired)))
  {
  }

  /** The rows a worker's copies name exist. */
  lemma CopiesNamed(c: Config, s: Sys, w: WorkerId)
    requires Inv(c, s)
    ensures var pc := At(s, w).pc; pc.Flag? || pc.Mark? || pc.Learn? || pc.Call? || pc.Probe? || pc.Authorize? ==>
      pc.e.step in s.slice.effects
  {
    hide GlobalOk;
    assert LocalOk(s, w);
  }
}
