/**
 The store: the four tables and one method per database transaction. Each method is proved against
 the slice function that specifies it, and leaves every other goal's rows alone.

 An effect's serial id is represented by the pair (goal, step), which is unique by schema.
*/
module Store {
  import opened Fsm
  import opened Goals
  import opened Json
  import opened Wrappers

  type EffectId = (string, nat)

  datatype Lease = Lease(goal: string, worker: WorkerId, epoch: nat)

  datatype StoreError =
    | NotFound
    | LeaseLost
    | Illegal(from: State, to: State)
    | NotPaused(from: State)
    | CursorMismatch
    | Duplicate
    | NotInReview

  // ---- rows of one goal -------------------------------------------------------------------------

  function EffectsOf(effects: map<EffectId, Effect>, g: string): map<nat, Effect> {
    map p | p in effects && p.0 == g :: p.1 := effects[p]
  }

  function StepsOf(steps: map<EffectId, StepRow>, g: string): map<nat, StepRow> {
    map p | p in steps && p.0 == g :: p.1 := steps[p]
  }

  function MessagesOf(messages: seq<(string, Message)>, g: string): seq<Message> {
    if messages == [] then []
    else
      var last := messages[|messages| - 1];
      MessagesOf(messages[..|messages| - 1], g) + if last.0 == g then [last.1] else []
  }

  lemma EffectSet(effects: map<EffectId, Effect>, g: string, k: nat, e: Effect, h: string)
    ensures EffectsOf(effects[(g, k) := e], h) ==
            if h == g then EffectsOf(effects, g)[k := e] else EffectsOf(effects, h)
  {
    assert forall j: nat :: j in EffectsOf(effects, h) <==> (h, j) in effects;
    assert forall j: nat :: j in EffectsOf(effects[(g, k) := e], h) <==> (h, j) in effects[(g, k) := e];
  }

  lemma StepSet(steps: map<EffectId, StepRow>, g: string, k: nat, r: StepRow, h: string)
    ensures StepsOf(steps[(g, k) := r], h) == if h == g then StepsOf(steps, g)[k := r] else StepsOf(steps, h)
  {
    assert forall j: nat :: j in StepsOf(steps, h) <==> (h, j) in steps;
    assert forall j: nat :: j in StepsOf(steps[(g, k) := r], h) <==> (h, j) in steps[(g, k) := r];
  }

  lemma MessageAdded(messages: seq<(string, Message)>, g: string, m: Message, h: string)
    ensures MessagesOf(messages + [(g, m)], h) == MessagesOf(messages, h) + if h == g then [m] else []
  {
    assert (messages + [(g, m)])[..|messages|] == messages;
  }

  /** No goal in `order` is claimable but those whose row is locked. */
  predicate NoneFree(goals: map<string, Goal>, order: seq<string>, locked: set<string>) {
    forall i :: 0 <= i < |order| && order[i] in goals && order[i] !in locked ==> !Claimable(goals[order[i]])
  }

  class Store {
    var goals: map<string, Goal>
    var effects: map<EffectId, Effect>
    var steps: map<EffectId, StepRow>
    var messages: seq<(string, Message)>

    constructor ()
      ensures goals == map[] && effects == map[] && steps == map[] && messages == []
    {
      goals, effects, steps, messages := map[], map[], map[], [];
    }

    /** The keys of different rows differ. */
    ghost predicate KeysUnique()
      reads this
    {
      forall p, q :: p in effects && q in effects && effects[p].key == effects[q].key ==> p == q
    }

    /** The schema: rows reference goals that exist and carry their own step, and no two share a key. */
    ghost predicate Valid()
      reads this
    {
      && KeysUnique()
      && (forall p :: p in effects ==> p.0 in goals && effects[p].step == p.1)
      && (forall p :: p in steps ==> p.0 in goals)
      && (forall i :: 0 <= i < |messages| ==> messages[i].0 in goals)
    }

    function Slice(g: string): Slice
      reads this
      requires g in goals
    {
      Goals.Slice(goals[g], EffectsOf(effects, g), StepsOf(steps, g), MessagesOf(messages, g))
    }

    lemma RowOf(g: string, k: nat)
      requires g in goals
      ensures (g, k) in effects <==> k in Slice(g).effects
      ensures (g, k) in effects ==> effects[(g, k)] == Slice(g).effects[k]
      ensures (g, k) in steps <==> k in Slice(g).steps
    {
    }

    /** Every goal's rows but `g`'s are as they were. */
    twostate predicate OnlyTouches(g: string)
      reads this
    {
      && goals.Keys == old(goals.Keys)
      && forall h :: h in goals && h != g ==> Slice(h) == old(Slice(h))
    }

    twostate predicate Unchanged()
      reads this
    {
      goals == old(goals) && effects == old(effects) && steps == old(steps) && messages == old(messages)
    }

    predicate HoldsLease(l: Lease)
      reads this
    {
      l.goal in goals && Holds(goals[l.goal], l.worker, l.epoch)
    }

    // ---- goals ------------------------------------------------------------------------------------

    /** A new goal starts as an empty proposed slice. */
    method Create(g: string) returns (ok: bool)
      requires Valid()
      modifies this
      ensures Valid()
      ensures ok <==> g !in old(goals)
      ensures ok ==> goals == old(goals)[g := NEW_GOAL] && Slice(g) == NEW_SLICE
      ensures !ok ==> Unchanged()
      ensures forall h :: h in old(goals) ==> h in goals && Slice(h) == old(Slice(h))
    {
      if g in goals {
        return false;
      }
      NoMessages(messages, g);
      goals := goals[g := NEW_GOAL];
      assert EffectsOf(effects, g) == map[] && StepsOf(steps, g) == map[];
      return true;
    }

    method Load(g: string) returns (r: Result<Goal, StoreError>)
      ensures r == if g in goals then Success(goals[g]) else Failure(NotFound)
    {
      return if g in goals then Success(goals[g]) else Failure(NotFound);
    }

    /** Moves a goal along a legal edge; pausing and ending drop the lease. */
    method Transition(g: string, to: State) returns (r: Result<Goal, StoreError>)
      requires Valid()
      modifies this`goals
      ensures Valid()
      ensures g !in old(goals) ==> r == Failure(NotFound)
      ensures g in old(goals) && !CanTransition(old(goals[g].state), to) ==>
        r == Failure(Illegal(old(goals[g].state), to))
      ensures r.Success? <==> g in old(goals) && CanTransition(old(goals[g].state), to)
      ensures r.Success? ==>
        OnlyTouches(g) && Slice(g) == WithGoal(old(Slice(g)), Moved(old(goals[g]), to)) && r.value == goals[g]
      ensures r.Success? ==>
        var was, now := old(goals)[g], goals[g];
        && now.state == to && now.pausedFrom == (if to == Paused then Some(was.state) else None)
        && now.owner ==
           (if to == Paused || to == Done || to == State.Failed || to == Cancelled then None else was.owner)
        && now.epoch == was.epoch && now.cursor == was.cursor
      ensures r.Failure? ==> Unchanged()
    {
      if g !in goals {
        return Failure(NotFound);
      }
      var row := goals[g];
      var from := row.state;
      if !CanTransition(from, to) {
        return Failure(Illegal(from, to));
      }
      var pausedFrom := None;
      if to == Paused {
        pausedFrom := Some(from);
      }
      var drop := to == Paused || Terminal(to);
      row := row.(state := to, pausedFrom := pausedFrom);
      if drop {
        row := row.(owner := None, expired := false);
      }
      goals := goals[g := row];
      return Success(row);
    }

    /** What Resume reads in its first transaction: the state a paused goal was paused from. */
    method ResumeTarget(g: string) returns (r: Result<State, StoreError>)
      ensures r.Success? <==> g in goals && goals[g].state == Paused && goals[g].pausedFrom.Some?
      ensures r.Success? ==> goals[g].pausedFrom == Some(r.value)
    {
      if g !in goals {
        return Failure(NotFound);
      }
      var row := goals[g];
      if row.state != Paused || row.pausedFrom.None? {
        return Failure(NotPaused(row.state));
      }
      return Success(row.pausedFrom.value);
    }

    /**
     Takes the first goal in `order`, the goals by the time they last changed, that is claimable and whose
     row no other transaction holds locked.
    */
    method Claim(worker: WorkerId, order: seq<string>, locked: set<string>) returns (r: Option<Lease>)
      requires Valid()
      modifies this`goals
      ensures Valid()
      ensures r.None? <==> NoneFree(old(goals), order, locked)
      ensures r.None? ==> Unchanged()
      ensures r.Some? ==>
        var g := r.value.goal;
        && g in order && g in old(goals) && g !in locked && Claimable(old(goals)[g])
        && OnlyTouches(g)
        && Slice(g) == WithGoal(old(Slice(g)), Claimed(old(goals)[g], worker))
        && r.value == Lease(g, worker, goals[g].epoch)
      ensures r.Some? ==>
        var was, now := old(goals)[r.value.goal], goals[r.value.goal];
        && (was.state == Approved || was.state == Executing || was.state == Verifying)
        && (was.owner.None? || was.expired)
        && now == was.(owner := Some(worker), epoch := was.epoch + 1, expired := false)
      ensures r.Some? ==>
        exists i :: 0 <= i < |order| && order[i] == r.value.goal && NoneFree(old(goals), order[..i], locked)
    {
      for i := 0 to |order|
        invariant goals == old(goals)
        invariant NoneFree(goals, order[..i], locked)
      {
        var g := order[i];
        if g in goals && g !in locked && Claimable(goals[g]) {
          var row := goals[g];
          goals := goals[g := row.(owner := Some(worker), epoch := row.epoch + 1, expired := false)];
          assert order[i] == g && NoneFree(old(goals), order[..i], locked);
          return Some(Lease(g, worker, row.epoch + 1));
        }
      }
      return None;
    }

    method Heartbeat(l: Lease) returns (ok: bool)
      requires Valid()
      modifies this`goals
      ensures Valid()
      ensures ok <==> old(HoldsLease(l))
      ensures OnlyTouches(l.goal)
      ensures l.goal in old(goals) ==>
        Slice(l.goal) == WithGoal(old(Slice(l.goal)), Beaten(old(goals[l.goal]), l.worker, l.epoch))
      ensures ok ==> l.goal in goals && goals[l.goal] == old(goals)[l.goal].(expired := false)
      ensures !ok ==> Unchanged()
    {
      if !HoldsLease(l) {
        return false;
      }
      goals := goals[l.goal := goals[l.goal].(expired := false)];
      return true;
    }

    method Release(l: Lease)
      requires Valid()
      modifies this`goals
      ensures Valid()
      ensures OnlyTouches(l.goal)
      ensures l.goal in old(goals) ==>
        Slice(l.goal) == WithGoal(old(Slice(l.goal)), Released(old(goals[l.goal]), l.worker, l.epoch))
      ensures old(HoldsLease(l)) ==>
        l.goal in goals && goals[l.goal] == old(goals)[l.goal].(owner := None, expired := false)
      ensures !old(HoldsLease(l)) ==> Unchanged()
    {
      if HoldsLease(l) {
        goals := goals[l.goal := goals[l.goal].(owner := None, expired := false)];
      }
    }

    /** The clock passes the lease's end. */
    method Expire(g: string)
      requires Valid()
      modifies this`goals
      ensures Valid()
      ensures OnlyTouches(g)
      ensures g in old(goals) ==>
        Slice(g) == WithGoal(old(Slice(g)),
          old(goals[g]).(expired := old(goals[g]).owner.Some? || old(goals[g].expired)))
    {
      if g in goals && goals[g].owner.Some? {
        goals := goals[g := goals[g].(expired := true)];
      }
    }

    method CheckLease(l: Lease) returns (r: Result<Goal, StoreError>)
      ensures r.Success? <==> HoldsLease(l)
      ensures r.Success? <==>
        l.goal in goals && goals[l.goal].owner == Some(l.worker) && goals[l.goal].epoch == l.epoch
      ensures r.Success? ==> r.value == goals[l.goal]
      ensures r.Failure? ==> r.error == if l.goal in goals then LeaseLost else NotFound
    {
      if l.goal !in goals {
        return Failure(NotFound);
      }
      var g := goals[l.goal];
      if g.owner != Some(l.worker) || g.epoch != l.epoch {
        return Failure(LeaseLost);
      }
      return Success(g);
    }

    method TransitionFenced(l: Lease, to: State) returns (r: Result<Goal, StoreError>)
      requires Valid()
      modifies this`goals
      ensures Valid()
      ensures r.Success? <==> old(HoldsLease(l)) && CanTransition(old(goals[l.goal].state), to)
      ensures r.Success? ==>
        OnlyTouches(l.goal) && Slice(l.goal) == WithGoal(old(Slice(l.goal)), Moved(old(goals[l.goal]), to))
      ensures r.Failure? ==> Unchanged()
      ensures r.Failure? && l.goal in goals && !HoldsLease(l) ==> r.error == LeaseLost
    {
      var held := CheckLease(l);
      if held.Failure? {
        return Failure(held.error);
      }
      r := Transition(l.goal, to);
    }

    method LoadFenced(l: Lease) returns (r: Result<Goal, StoreError>)
      ensures r.Success? <==> HoldsLease(l)
      ensures r.Success? ==> r.value == goals[l.goal]
    {
      r := CheckLease(l);
    }

    // ---- effects ----------------------------------------------------------------------------------

    method EffectByStep(g: string, step: nat) returns (r: Result<Effect, StoreError>)
      ensures r == if (g, step) in effects then Success(effects[(g, step)]) else Failure(NotFound)
    {
      return if (g, step) in effects then Success(effects[(g, step)]) else Failure(NotFound);
    }

    /** Some row carries this key. */
    predicate KeyTaken(key: string)
      reads this
    {
      exists p :: p in effects && effects[p].key == key
    }

    /**
     Phase one: records the intent under the lease. A row that conflicts, by key or by (goal, step),
     is returned unchanged; both constraints are kept.
    */
    method CommitIntent(l: Lease, key: string, step: nat, tool: string, args: Json)
      returns (r: Result<(EffectId, bool), StoreError>)
      requires Valid()
      modifies this`effects
      ensures Valid()
      ensures r.Success? <==> old(HoldsLease(l))
      ensures r.Success? ==> r.value.0 in effects
      ensures r.Success? ==> (r.value.1 <==> !old(KeyTaken(key)) && (l.goal, step) !in old(effects))
      ensures r.Success? && r.value.1 ==>
        && r.value.0 == (l.goal, step)
        && Slice(l.goal) == WithEffect(old(Slice(l.goal)), NewEffect(key, step, tool, args))
        && effects == old(effects)[(l.goal, step) := Effect(key, step, tool, args, Intent, None, "", 0)]
        && OnlyTouches(l.goal)
      ensures r.Success? && !r.value.1 ==>
        Unchanged() && (effects[r.value.0].key == key || r.value.0 == (l.goal, step))
      ensures r.Failure? ==> Unchanged() && r.error == if l.goal in goals then LeaseLost else NotFound
    {
      var held := CheckLease(l);
      if held.Failure? {
        return Failure(held.error);
      }
      if (l.goal, step) in effects {
        return Success(((l.goal, step), false));
      }
      if KeyTaken(key) {
        var p := OwnerOf(key);
        return Success((p, false));
      }
      var e := NewEffect(key, step, tool, args);
      forall h ensures EffectsOf(effects[(l.goal, step) := e], h)
          == if h == l.goal then EffectsOf(effects, h)[step := e] else EffectsOf(effects, h) {
        EffectSet(effects, l.goal, step, e, h);
      }
      effects := effects[(l.goal, step) := e];
      return Success(((l.goal, step), true));
    }

    method OwnerOf(key: string) returns (p: EffectId)
      requires KeyTaken(key) && Valid()
      ensures p in effects && effects[p].key == key
    {
      p :| p in effects && effects[p].key == key;
    }

    /** Rewrites one row. */
    method Put(p: EffectId, e: Effect)
      requires Valid() && p in effects && e.step == p.1 && e.key == effects[p].key
      modifies this`effects
      ensures Valid()
      ensures Slice(p.0) == WithEffect(old(Slice(p.0)), e)
      ensures effects == old(effects)[p := e]
      ensures OnlyTouches(p.0)
    {
      forall h
        ensures EffectsOf(effects[p := e], h) ==
                if h == p.0 then EffectsOf(effects, h)[p.1 := e] else EffectsOf(effects, h)
      {
        EffectSet(effects, p.0, p.1, e, h);
      }
      effects := effects[p := e];
    }

    /** Counts an attempt of a row in intent; any other row, or none, is left alone. */
    method MarkAttempt(p: EffectId)
      requires Valid()
      modifies this`effects
      ensures Valid()
      ensures p !in old(effects) ==> Unchanged()
      ensures p in old(effects) ==>
        Slice(p.0) == WithEffect(old(Slice(p.0)), Attempted(old(effects[p]))) && OnlyTouches(p.0)
      ensures p in old(effects) ==> effects == old(effects)[p := Attempted(old(effects[p]))]
      ensures p in old(effects) ==>
        var was := old(effects)[p];
        effects[p] == was.(attempts := was.attempts + if was.status == Intent then 1 else 0)
    {
      if p in effects && effects[p].status == Intent {
        Put(p, effects[p].(attempts := effects[p].attempts + 1));
      } else if p in effects {
        Put(p, effects[p]);
      }
    }

    method MarkNeedsReview(p: EffectId, why: string)
      requires Valid()
      modifies this`effects
      ensures Valid()
      ensures p !in old(effects) ==> Unchanged()
      ensures p in old(effects) ==>
        Slice(p.0) == WithEffect(old(Slice(p.0)), Flagged(old(effects[p]), why)) && OnlyTouches(p.0)
      ensures p in old(effects) ==> effects == old(effects)[p := Flagged(old(effects[p]), why)]
      ensures p in old(effects) && old(effects)[p].status == Intent ==>
        effects[p] == old(effects)[p].(status := NeedsReview, error := why)
      ensures p in old(effects) && old(effects)[p].status != Intent ==> effects[p] == old(effects)[p]
    {
      if p in effects && effects[p].status == Intent {
        Put(p, effects[p].(status := NeedsReview, error := why));
      } else if p in effects {
        Put(p, effects[p]);
      }
    }

    /** Phase three, unfenced: the first result recorded wins and delivers its message. */
    method CommitResult(p: EffectId, o: Outcome) returns (r: Result<Effect, StoreError>)
      requires Valid()
      modifies this`effects, this`messages
      ensures Valid()
      ensures p !in old(effects) ==> r == Failure(NotFound) && Unchanged()
      ensures p in old(effects) ==>
        && Slice(p.0) == Goals.CommitResult(old(Slice(p.0)), p.1, o)
        && effects == old(effects)[p := Settled(old(effects[p]), o)]
        && r == Success(effects[p])
        && OnlyTouches(p.0)
      ensures p in old(effects) && old(effects)[p].status == Intent && o.Ok? ==>
        && effects[p] == old(effects)[p].(status := Committed, result := o.result, error := "")
        && |Slice(p.0).messages| == |old(Slice(p.0)).messages| + 1
        && old(Slice(p.0)).messages <= Slice(p.0).messages
        && Delivers(Slice(p.0).messages[|old(Slice(p.0)).messages|], old(effects)[p], o.result)
      ensures p in old(effects) && old(effects)[p].status == Intent && o.Err? ==>
        && effects[p] == old(effects)[p].(status := Status.Failed, result := None, error := o.msg)
        && messages == old(messages)
      ensures p in old(effects) && old(effects)[p].status != Intent ==> Unchanged()
    {
      hide ResultMessage, MessagesOf, Delivers;
      if p !in effects {
        return Failure(NotFound);
      }
      var e := effects[p];
      if e.status != Intent {
        assert effects == effects[p := e];
        assert EffectsOf(effects, p.0) == EffectsOf(effects, p.0)[p.1 := e];
        return Success(e);
      }
      match o {
        case Ok(result) =>
          e := e.(status := Committed, result := result, error := "");
          Deliver(p.0, effects[p], e);
        case Err(msg) =>
          e := e.(status := Status.Failed, result := None, error := msg);
      }
      Put(p, e);
      return Success(e);
    }

    /** Tells the goal's agent what the call of `was` gave. */
    method Deliver(g: string, was: Effect, e: Effect)
      requires Valid() && g in goals && SameCall(was, e)
      modifies this`messages
      ensures Valid() && OnlyTouches(g)
      ensures Slice(g) == old(Slice(g)).(messages := old(Slice(g)).messages + [ResultMessage(e)])
      ensures Delivers(ResultMessage(e), was, e.result)
    {
      hide EffectsOf, StepsOf, MessagesOf;
      var m := ResultMessage(e);
      forall h ensures MessagesOf(messages + [(g, m)], h) == MessagesOf(messages, h) + if h == g then [m] else [] {
        MessageAdded(messages, g, m, h);
      }
      messages := messages + [(g, m)];
    }

    /** The operator settles a row that waits for review. */
    method ResolveReview(p: EffectId, how: Resolution, result: Option<Json>) returns (r: Result<Effect, StoreError>)
      requires Valid()
      modifies this`effects
      ensures Valid()
      ensures r.Success? <==> p in old(effects) && old(effects)[p].status == NeedsReview
      ensures r.Success? ==> OnlyTouches(p.0) && effects == old(effects)[p := r.value]
      ensures r.Success? ==> r.value == Resolved(old(effects)[p], how, result)
      ensures r.Success? ==>
        var was, now := old(effects)[p], r.value;
        && SameCall(was, now) && now.result == result
        && (how == Retry ==> now.status == Intent && now.attempts == 0 && now.error == "")
        && (how == AsCommitted ==> now.status == Committed && now.error == "")
        && (how == AsFailed ==> now.status == Status.Failed && now.error == "operator marked failed")
      ensures r.Success? ==> Slice(p.0) == WithEffect(old(Slice(p.0)), r.value)
      ensures r.Failure? ==> r.error == NotInReview && Unchanged()
    {
      if p !in effects || effects[p].status != NeedsReview {
        return Failure(NotInReview);
      }
      var e := effects[p].(result := result, error := "");
      match how {
        case Retry => e := e.(status := Intent, attempts := 0);
        case AsCommitted => e := e.(status := Committed);
        case AsFailed => e := e.(status := Status.Failed, error := "operator marked failed");
      }
      Put(p, e);
      return Success(e);
    }

    // ---- steps and messages -------------------------------------------------------------------------

    /** Advances the cursor past a committed effect, under the lease. */
    method CommitStep(l: Lease, e: Effect) returns (error: Option<StoreError>)
      requires Valid()
      modifies this`goals, this`steps
      ensures Valid()
      ensures error.None? <==>
        old(HoldsLease(l)) && old(goals[l.goal].cursor) == e.step && (l.goal, e.step) !in old(steps)
      ensures error.None? ==> OnlyTouches(l.goal) && Slice(l.goal) == Goals.CommitStep(old(Slice(l.goal)), e)
      ensures error.None? ==>
        && goals[l.goal].cursor == e.step + 1
        && Slice(l.goal).steps == old(Slice(l.goal)).steps[e.step := StepRow(e.tool, e.args, e.result, e.key)]
      ensures error.Some? ==> Unchanged()
    {
      var held := CheckLease(l);
      if held.Failure? {
        return Some(held.error);
      }
      if held.value.cursor != e.step {
        return Some(CursorMismatch);
      }
      if (l.goal, e.step) in steps {
        return Some(Duplicate);
      }
      AdvancePast(l.goal, e);
      return None;
    }

    method AdvancePast(g: string, e: Effect)
      requires Valid() && g in goals
      modifies this`goals, this`steps
      ensures Valid()
      ensures OnlyTouches(g) && Slice(g) == Goals.CommitStep(old(Slice(g)), e)
    {
      hide EffectsOf, StepsOf, MessagesOf;
      PutStep(g, e.step, StepRow(e.tool, e.args, e.result, e.key));
      goals := goals[g := goals[g].(cursor := goals[g].cursor + 1)];
    }

    method PutStep(g: string, k: nat, row: StepRow)
      requires Valid() && g in goals
      modifies this`steps
      ensures Valid()
      ensures OnlyTouches(g) && Slice(g) == old(Slice(g)).(steps := old(Slice(g)).steps[k := row])
    {
      forall h
        ensures StepsOf(steps[(g, k) := row], h) ==
                if h == g then StepsOf(steps, h)[k := row] else StepsOf(steps, h)
      {
        StepSet(steps, g, k, row, h);
      }
      steps := steps[(g, k) := row];
    }

    method AddMessage(g: string, source: Source, body: Json) returns (ok: bool)
      requires Valid()
      modifies this`messages
      ensures Valid()
      ensures ok <==> g in goals
      ensures ok ==> Slice(g) == Posted(old(Slice(g)), source, body)
      ensures ok ==> Slice(g).messages == old(Slice(g)).messages + [Message(source, source == Operator, body)]
      ensures OnlyTouches(g)
    {
      if g !in goals {
        return false;
      }
      var m := Message(source, source == Operator, body);
      forall h ensures MessagesOf(messages + [(g, m)], h) == MessagesOf(messages, h) + if h == g then [m] else [] {
        MessageAdded(messages, g, m, h);
      }
      messages := messages + [(g, m)];
      return true;
    }
  }

  lemma {:induction false} NoMessages(messages: seq<(string, Message)>, g: string)
    requires forall i :: 0 <= i < |messages| ==> messages[i].0 != g
    ensures MessagesOf(messages, g) == []
  {
    if messages != [] {
      NoMessages(messages[..|messages| - 1], g);
    }
  }
}
