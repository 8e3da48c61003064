/**
 Record, FlushOnce and recoverOrphans as they are written, each as one process runs them undisturbed.
 Every file-system call is an action of the spool's transition system, so what is proved of its runs
 holds of any directory these methods work on.
*/
module SpoolProcess {
  import opened Json
  import opened Spool
  import opened Text

  /** The directory, and ghostly everything that was ever done to it. */
  class Directory {
    var s: Sys
    ghost var trail: seq<Action>

    constructor ()
      ensures Valid() && s == INIT
    {
      s, trail := INIT, [];
    }

    ghost predicate Valid()
      reads this
    {
      s == Run(INIT, trail)
    }

    method Do(a: Action)
      requires Valid()
      modifies this
      ensures Valid() && s == Apply(old(s), a) && Inv(s)
    {
      RunSnoc(INIT, trail, a);
      InitInv();
      RunKeepsInv(INIT, trail);
      ActionKeepsInv(s, a);
      hide Apply, Inv;
      s := Apply(s, a);
      trail := trail + [a];
    }
  }

  lemma {:induction false} RunSnoc(s: Sys, acts: seq<Action>, a: Action)
    ensures Run(s, acts + [a]) == Apply(Run(s, acts), a)
    decreases |acts|
  {
    hide Apply;
    if acts == [] {
      assert acts + [a] == [a] && [a][1..] == [];
    } else {
      assert (acts + [a])[1..] == acts[1..] + [a];
      RunSnoc(Apply(s, acts[0]), acts[1..], a);
    }
  }

  /** Writes, syncs and renames; the record is acknowledged exactly when every call succeeded. */
  method Record(d: Directory, p: Pid, name: string, r: Json, writes: bool, renames: bool) returns (ok: bool)
    requires d.Valid() && At(d.s, p) == Ready && name !in d.s.used
    modifies d
    ensures d.Valid() && At(d.s, p) == Ready
    ensures ok <==> writes && renames
    ensures ok ==> d.s.records == old(d.s.records)[name := r] && d.s.published == old(d.s.published) + [name]
    ensures !ok ==> d.s.records == old(d.s.records) && d.s.published == old(d.s.published)
    ensures forall f: File ::
      f in d.s.dir <==> (f in old(d.s.dir) && f != File(name, Tmp)) || (ok && f == File(name, Pending))
    ensures d.s.delivered == old(d.s.delivered)
  {
    hide Inv;
    d.Do(Create(p, name, r));
    d.Do(Write(p, writes));
    if !writes {
      return false;
    }
    d.Do(Publish(p, renames));
    return renames;
  }

  /** The records of these names, as they are spooled. */
  function RecordsOf(dir: map<File, Content>, names: seq<string>): seq<(string, Json)> {
    if names == [] then []
    else
      var n := names[|names| - 1];
      RecordsOf(dir, names[..|names| - 1]) +
      if File(n, Pending) in dir && dir[File(n, Pending)].Whole? then [(n, dir[File(n, Pending)].r)] else []
  }

  /** What the i-th delivery of a pass comes to. */
  function ReplyAt(next: seq<Delivery>, i: nat): Delivery { if i < |next| then next[i] else Accepted }

  /** The pending files are those at the start of the pass, less the names handled. */
  ghost predicate PendingLess(now: map<File, Content>, before: map<File, Content>, handled: seq<string>) {
    forall n: string ::
      && (File(n, Pending) in now <==> File(n, Pending) in before && n !in handled)
      && (File(n, Pending) in now ==> now[File(n, Pending)] == before[File(n, Pending)])
  }

  /** The pending files are the earlier ones, less `name` if it is gone; and nothing of it is .sending. */
  ghost predicate OneHandled(now: map<File, Content>, before: map<File, Content>, name: string, gone: bool) {
    && File(name, Sending) !in now
    && forall n: string ::
         && (File(n, Pending) in now <==> File(n, Pending) in before && !(gone && n == name))
         && (File(n, Pending) in now ==> now[File(n, Pending)] == before[File(n, Pending)])
  }

  lemma ThereAndBack(dir: map<File, Content>, name: string)
    requires File(name, Pending) in dir
    ensures var claimed := Renamed(dir, File(name, Pending), File(name, Sending));
            && File(name, Sending) in claimed && claimed[File(name, Sending)] == dir[File(name, Pending)]
            && OneHandled(claimed - {File(name, Sending)}, dir, name, true)
            && OneHandled(Renamed(claimed, File(name, Sending), File(name, Pending)), dir, name, false)
  {
  }

  lemma ClaimAndRead(s: Sys, p: Pid, name: string, rest: seq<string>)
    requires At(s, p) == Sweeping([name] + rest) && File(name, Pending) in s.dir
    ensures var t, c := Apply(Apply(s, Claim(p, true)), Read(p, true)), s.dir[File(name, Pending)];
            && At(t, p) == Loaded(name, c, rest)
            && t.dir == Renamed(s.dir, File(name, Pending), File(name, Sending)) && t.delivered == s.delivered
  {
    assert ([name] + rest)[1..] == rest;
  }

  lemma DeliverResult(s: Sys, p: Pid, reply: Delivery)
    requires At(s, p).Loaded? && At(s, p).content.Whole?
    ensures var t, l := Apply(s, Deliver(p, reply)), At(s, p);
            && t.dir == s.dir
            && t.delivered == s.delivered + (if reply != RefusedUnseen then [(l.name, l.content.r)] else [])
            && At(t, p) == if reply == Accepted then Landed(l.name, l.rest) else Undoing(l.name)
  {
  }

  lemma RemoveResult(s: Sys, p: Pid)
    requires At(s, p).Landed? || (At(s, p).Loaded? && !At(s, p).content.Whole?)
    requires File(At(s, p).name, Sending) in s.dir
    ensures var t := Apply(s, Remove(p, true));
            && t.dir == s.dir - {File(At(s, p).name, Sending)} && t.delivered == s.delivered
            && At(t, p) == Sweeping(At(s, p).rest)
  {
  }

  lemma UndoResult(s: Sys, p: Pid)
    requires At(s, p).Undoing? && File(At(s, p).name, Sending) in s.dir
    ensures var t, n := Apply(s, Undo(p, true)), At(s, p).name;
            && t.dir == Renamed(s.dir, File(n, Sending), File(n, Pending)) && t.delivered == s.delivered
            && At(t, p) == Ready
  {
  }

  /** Claims the file, hands its record to Next, and removes it or puts it back. */
  method DeliverOne(d: Directory, p: Pid, name: string, rest: seq<string>, reply: Delivery) returns (ok: bool)
    requires d.Valid() && At(d.s, p) == Sweeping([name] + rest) && File(name, Pending) in d.s.dir
    modifies d
    ensures d.Valid() && OneHandled(d.s.dir, old(d.s.dir), name, ok)
    ensures var c := old(d.s.dir)[File(name, Pending)];
            && (ok <==> c.Whole? ==> reply == Accepted)
            && At(d.s, p) == (if ok then Sweeping(rest) else Ready)
            && d.s.delivered == old(d.s.delivered) + (if c.Whole? && reply != RefusedUnseen then [(name, c.r)] else [])
  {
    hide Inv, Apply, Directory.Valid, Renamed, OneHandled;
    ThereAndBack(d.s.dir, name);
    ClaimAndRead(d.s, p, name, rest);
    d.Do(Claim(p, true));
    d.Do(Read(p, true));
    if !At(d.s, p).content.Whole? {
      RemoveResult(d.s, p);
      d.Do(Remove(p, true));
      return true;
    }
    DeliverResult(d.s, p, reply);
    d.Do(Deliver(p, reply));
    if reply == Accepted {
      RemoveResult(d.s, p);
      d.Do(Remove(p, true));
      return true;
    }
    UndoResult(d.s, p);
    d.Do(Undo(p, true));
    return false;
  }

  lemma ListResult(s: Sys, p: Pid)
    requires At(s, p) == Ready
    ensures var t := Apply(s, Action.List(p));
            t.dir == s.dir && t.delivered == s.delivered && At(t, p) == Sweeping(SortedKeys(Names(s.dir, Pending)))
  {
  }

  lemma SweepEnds(s: Sys, p: Pid)
    requires At(s, p) == Sweeping([])
    ensures var t := Apply(s, Claim(p, true)); t.dir == s.dir && t.delivered == s.delivered && At(t, p) == Ready
  {
  }

  /** The i-th of the listed names is handled. */
  lemma NextHandled(now: map<File, Content>, mid: map<File, Content>, before: map<File, Content>, names: seq<string>,
      i: nat, ok: bool)
    requires i < |names| && PendingLess(mid, before, names[..i]) && OneHandled(now, mid, names[i], ok)
    ensures PendingLess(now, before, names[..if ok then i + 1 else i])
  {
    assert names[..i + 1] == names[..i] + [names[i]];
  }

  lemma NextListed(dir: map<File, Content>, names: seq<string>, i: nat)
    requires i < |names| && names == SortedKeys(Names(dir, Pending))
    ensures File(names[i], Pending) in dir && names[i] !in names[..i]
    ensures RecordsOf(dir, names[..i + 1]) == RecordsOf(dir, names[..i]) +
      if dir[File(names[i], Pending)].Whole? then [(names[i], dir[File(names[i], Pending)].r)] else []
  {
    assert names[i] in names && names[..i + 1][..i] == names[..i];
  }

  /**
   One pass, oldest first: it hands every pending record to Next in name order and removes what Next
   takes, and at the first refusal puts that file back and stops.
  */
  method FlushOnce(d: Directory, p: Pid, next: seq<Delivery>) returns (sent: nat, allOK: bool)
    requires d.Valid() && At(d.s, p) == Ready
    modifies d
    ensures d.Valid() && At(d.s, p) == Ready
    ensures var names := SortedKeys(Names(old(d.s.dir), Pending));
            && sent <= |names| && (allOK <==> sent == |names|)
            && PendingLess(d.s.dir, old(d.s.dir), names[..sent])
            && (allOK ==> d.s.delivered == old(d.s.delivered) + RecordsOf(old(d.s.dir), names))
            && (!allOK ==>
                  && ReplyAt(next, sent) != Accepted
                  && d.s.delivered == old(d.s.delivered) +
                       RecordsOf(old(d.s.dir), names[..if ReplyAt(next, sent) == RefusedSeen then sent + 1 else sent]))
  {
    hide Inv, Directory.Valid, OneHandled, Apply, PendingLess, SortedKeys, RecordsOf;
    ghost var before, seen := d.s.dir, d.s.delivered;
    var names := SortedKeys(Names(d.s.dir, Pending));
    NothingHandled(before, names);
    ListResult(d.s, p);
    d.Do(Action.List(p));
    sent := 0;
    while sent < |names|
      invariant d.Valid() && sent <= |names| && At(d.s, p) == Sweeping(names[sent..])
      invariant PendingLess(d.s.dir, before, names[..sent])
      invariant d.s.delivered == seen + RecordsOf(before, names[..sent])
    {
      var name := names[sent];
      assert names[sent..] == [name] + names[sent + 1..];
      NextListed(before, names, sent);
      StillPending(d.s.dir, before, names[..sent], name);
      ghost var mid := d.s.dir;
      var ok := DeliverOne(d, p, name, names[sent + 1..], ReplyAt(next, sent));
      NextHandled(d.s.dir, mid, before, names, sent, ok);
      if !ok {
        return sent, false;
      }
      sent := sent + 1;
    }
    assert names[..sent] == names && names[sent..] == [];
    SweepEnds(d.s, p);
    d.Do(Claim(p, true));
    return sent, true;
  }

  lemma NothingHandled(dir: map<File, Content>, names: seq<string>)
    ensures PendingLess(dir, dir, names[..0]) && RecordsOf(dir, names[..0]) == [] && names[0..] == names
  {
  }

  lemma StillPending(now: map<File, Content>, before: map<File, Content>, handled: seq<string>, name: string)
    requires PendingLess(now, before, handled) && File(name, Pending) in before && name !in handled
    ensures File(name, Pending) in now && now[File(name, Pending)] == before[File(name, Pending)]
  {
  }

  /** The .sending files of these names are pending again. */
  ghost predicate Recovered(now: map<File, Content>, before: map<File, Content>, names: seq<string>) {
    forall n: string ::
      && (File(n, Sending) in now <==> File(n, Sending) in before && n !in names)
      && (File(n, Pending) in now <==> File(n, Pending) in before || n in names)
  }

  lemma RecoverResult(s: Sys, p: Pid, before: map<File, Content>, names: seq<string>, i: nat)
    requires i < |names| && At(s, p) == Recovering(names[i..]) && Recovered(s.dir, before, names[..i])
    requires File(names[i], Sending) in before && names[i] !in names[..i]
    ensures var t := Apply(s, Recover(p, true));
            && At(t, p) == Recovering(names[i + 1..]) && Recovered(t.dir, before, names[..i + 1])
            && t.delivered == s.delivered && t.records == s.records
  {
    assert names[i..][1..] == names[i + 1..] && names[..i + 1] == names[..i] + [names[i]];
  }

  lemma StartResult(s: Sys, p: Pid)
    requires At(s, p) == Down
    ensures var t, names := Apply(s, Start(p)), SortedKeys(Names(s.dir, Sending));
            && t.dir == s.dir && t.delivered == s.delivered && t.records == s.records
            && At(t, p) == Recovering(names[0..]) && Recovered(t.dir, s.dir, names[..0])
  {
    var names := SortedKeys(Names(s.dir, Sending));
    assert names[0..] == names;
  }

  lemma RecoverEnds(s: Sys, p: Pid, before: map<File, Content>, names: seq<string>)
    requires At(s, p) == Recovering([]) && Recovered(s.dir, before, names)
      && names == SortedKeys(Names(before, Sending))
    ensures var t := Apply(s, Recover(p, true));
            && At(t, p) == Ready && t.delivered == s.delivered && t.records == s.records
            && forall n: string ::
                 && File(n, Sending) !in t.dir
                 && (File(n, Pending) in t.dir <==> File(n, Pending) in before || File(n, Sending) in before)
  {
    assert forall n: string :: File(n, Sending) in before <==> n in names;
  }

  /** Start's recovery: every .sending file becomes pending again. */
  method RecoverOrphans(d: Directory, p: Pid)
    requires d.Valid() && At(d.s, p) == Down
    modifies d
    ensures d.Valid() && At(d.s, p) == Ready
    ensures d.s.delivered == old(d.s.delivered) && d.s.records == old(d.s.records)
    ensures forall n: string ::
      && File(n, Sending) !in d.s.dir
      && (File(n, Pending) in d.s.dir <==> File(n, Pending) in old(d.s.dir) || File(n, Sending) in old(d.s.dir))
  {
    hide Inv, Directory.Valid, Apply, Recovered;
    ghost var before := d.s.dir;
    var names := SortedKeys(Names(d.s.dir, Sending));
    StartResult(d.s, p);
    d.Do(Start(p));
    for i := 0 to |names|
      invariant d.Valid() && At(d.s, p) == Recovering(names[i..]) && Recovered(d.s.dir, before, names[..i])
      invariant d.s.delivered == old(d.s.delivered) && d.s.records == old(d.s.records)
    {
      assert names[i] in names;
      RecoverResult(d.s, p, before, names, i);
      d.Do(Recover(p, true));
    }
    assert names[..|names|] == names && names[|names|..] == [];
    RecoverEnds(d.s, p, before, names);
    d.Do(Recover(p, true));
  }
}
