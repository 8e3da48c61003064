/**
 The ledger spool: one file per record, moved by atomic renames between a temporary name, pending and
 .sending, and removed once delivered. Any number of processes write, flush, crash and recover on one
 directory; each file-system call is one atomic action.
*/
module Spool {
  import opened Json
  import opened Text
  import opened Wrappers

  type Pid = nat
  type Record = Json

  datatype Place = Tmp | Pending | Sending
  datatype File = File(name: string, place: Place)

  /** What a file holds: part of a record, a whole one, or something no Record call wrote. */
  datatype Content = Partial | Whole(r: Record) | Garbage

  /** Where a process stands between two file-system calls. */
  datatype Pc =
    | Down
    | Ready                                                   // its loop waits, or it only records
    | Writing(name: string, r: Record)                        // Record: the temporary file exists
    | Written(name: string, r: Record)                        // Record: and is complete
    | Recovering(names: seq<string>)                          // recoverOrphans: still to rename
    | Sweeping(names: seq<string>)                            // FlushOnce: still to deliver
    | Claimed(name: string, rest: seq<string>)                // deliverOne: renamed to .sending
    | Loaded(name: string, content: Content, rest: seq<string>)
    | Landed(name: string, rest: seq<string>)                 // Next.Record succeeded
    | Undoing(name: string)                                   // rename back and end the pass

  datatype Sys = Sys(
    dir: map<File, Content>,
    procs: map<Pid, Pc>,
    records: map<string, Record>,           // acknowledged: Record returned nil
    published: seq<string>,                 // their names in the order they were published
    delivered: seq<(string, Record)>,       // what reached Next, in order
    used: set<string>,                      // names ever handed out
    litter: set<string>)                    // names of files no Record call wrote

  const INIT := Sys(map[], map[], map[], [], [], {}, {})

  /** How a delivery ends: it reached Next or not, and Next said so or not. */
  datatype Delivery = Accepted | RefusedUnseen | RefusedSeen

  datatype Action =
    | Start(p: Pid)                                     // a process comes up and recovers orphans
    | Open(p: Pid)                                      // a process that never calls Start
    | Crash(p: Pid)
    | Create(p: Pid, name: string, r: Record)
    | Write(p: Pid, ok: bool)
    | Publish(p: Pid, ok: bool)
    | Recover(p: Pid, ok: bool)
    | List(p: Pid)
    | Claim(p: Pid, ok: bool)
    | Read(p: Pid, ok: bool)
    | Deliver(p: Pid, d: Delivery)
    | Remove(p: Pid, ok: bool)
    | Undo(p: Pid, ok: bool)
    | Stop(p: Pid)                                      // the context ends between two files
    | Litter(name: string)                              // somebody else drops a file

  function At(s: Sys, p: Pid): Pc { if p in s.procs then s.procs[p] else Down }

  function Go(s: Sys, p: Pid, pc: Pc): Sys { s.(procs := s.procs[p := pc]) }

  function Names(dir: map<File, Content>, place: Place): set<string> {
    set f | f in dir && f.place == place :: f.name
  }

  /** rename(2): atomic, replaces its target. */
  function Renamed(dir: map<File, Content>, a: File, b: File): map<File, Content>
    requires a in dir
  {
    (dir - {a})[b := dir[a]]
  }

  function DoWrite(s: Sys, p: Pid, ok: bool): Sys {
    match At(s, p)
    case Writing(n, r) =>
      if ok then Go(s.(dir := s.dir[File(n, Tmp) := Whole(r)]), p, Written(n, r))
      else Go(s.(dir := s.dir - {File(n, Tmp)}), p, Ready)
    case _ => s
  }

  /** The rename that makes the record visible; Record returns nil exactly when it succeeded. */
  function DoPublish(s: Sys, p: Pid, ok: bool): Sys {
    match At(s, p)
    case Written(n, r) =>
      if File(n, Tmp) !in s.dir then s
      else if !ok then Go(s.(dir := s.dir - {File(n, Tmp)}), p, Ready)
      else Go(s.(dir := Renamed(s.dir, File(n, Tmp), File(n, Pending)),
                 records := s.records[n := r], published := s.published + [n]), p, Ready)
    case _ => s
  }

  function DoRecover(s: Sys, p: Pid, ok: bool): Sys {
    match At(s, p)
    case Recovering(names) =>
      if names == [] then Go(s, p, Ready)
      else
        var f := File(names[0], Sending);
        var s' := if ok && f in s.dir then s.(dir := Renamed(s.dir, f, File(names[0], Pending))) else s;
        Go(s', p, Recovering(names[1..]))
    case _ => s
  }

  function DoClaim(s: Sys, p: Pid, ok: bool): Sys {
    match At(s, p)
    case Sweeping(names) =>
      if names == [] then Go(s, p, Ready)
      else
        var f := File(names[0], Pending);
        if f !in s.dir then Go(s, p, Sweeping(names[1..]))       // somebody else has it
        else if !ok then Go(s, p, Ready)
        else Go(s.(dir := Renamed(s.dir, f, File(names[0], Sending))), p, Claimed(names[0], names[1..]))
    case _ => s
  }

  function DoRead(s: Sys, p: Pid, ok: bool): Sys {
    match At(s, p)
    case Claimed(n, rest) =>
      var f := File(n, Sending);
      if f !in s.dir || !ok then Go(s, p, Undoing(n)) else Go(s, p, Loaded(n, s.dir[f], rest))
    case _ => s
  }

  function DoDeliver(s: Sys, p: Pid, d: Delivery): Sys {
    match At(s, p)
    case Loaded(n, Whole(r), rest) =>
      var seen := s.(delivered := s.delivered + [(n, r)]);
      (match d
       case Accepted => Go(seen, p, Landed(n, rest))
       case RefusedSeen => Go(seen, p, Undoing(n))
       case RefusedUnseen => Go(s, p, Undoing(n)))
    case _ => s
  }

  /** Removes a delivered file, or one that does not decode. */
  function DoRemove(s: Sys, p: Pid, ok: bool): Sys {
    match At(s, p)
    case Landed(n, rest) =>
      if ok && File(n, Sending) in s.dir then Go(s.(dir := s.dir - {File(n, Sending)}), p, Sweeping(rest))
      else Go(s, p, Ready)
    case Loaded(n, Garbage, rest) =>
      Go(if ok then s.(dir := s.dir - {File(n, Sending)}) else s, p, Sweeping(rest))
    case Loaded(n, Partial, rest) =>
      Go(if ok then s.(dir := s.dir - {File(n, Sending)}) else s, p, Sweeping(rest))
    case _ => s
  }

  function DoUndo(s: Sys, p: Pid, ok: bool): Sys {
    match At(s, p)
    case Undoing(n) =>
      var f := File(n, Sending);
      Go(if ok && f in s.dir then s.(dir := Renamed(s.dir, f, File(n, Pending))) else s, p, Ready)
    case _ => s
  }

  function Apply(s: Sys, a: Action): Sys {
    match a
    case Start(p) => if At(s, p) == Down then Go(s, p, Recovering(SortedKeys(Names(s.dir, Sending)))) else s
    case Open(p) => if At(s, p) == Down then Go(s, p, Ready) else s
    case Crash(p) => Go(s, p, Down)
    case Create(p, n, r) =>
      if At(s, p) != Ready || n in s.used then s
      else Go(s.(dir := s.dir[File(n, Tmp) := Partial], used := s.used + {n}), p, Writing(n, r))
    case Write(p, ok) => DoWrite(s, p, ok)
    case Publish(p, ok) => DoPublish(s, p, ok)
    case Recover(p, ok) => DoRecover(s, p, ok)
    case List(p) => if At(s, p) == Ready then Go(s, p, Sweeping(SortedKeys(Names(s.dir, Pending)))) else s
    case Claim(p, ok) => DoClaim(s, p, ok)
    case Read(p, ok) => DoRead(s, p, ok)
    case Deliver(p, d) => DoDeliver(s, p, d)
    case Remove(p, ok) => DoRemove(s, p, ok)
    case Undo(p, ok) => DoUndo(s, p, ok)
    case Stop(p) => if At(s, p).Sweeping? then Go(s, p, Ready) else s
    case Litter(n) =>
      if n in s.used then s
      else s.(dir := s.dir[File(n, Pending) := Garbage], used := s.used + {n}, litter := s.litter + {n})
  }

  function Run(s: Sys, acts: seq<Action>): Sys
    decreases |acts|
  {
    if acts == [] then s else Run(Apply(s, acts[0]), acts[1..])
  }

  // ---- no acknowledged record is lost -------------------------------------------------------------

  predicate Sent(delivered: seq<(string, Record)>, n: string, r: Record) { (n, r) in delivered }

  /** What is known about one name. */
  predicate NameOk(s: Sys, n: string) {
    var pending, sending := File(n, Pending) in s.dir, File(n, Sending) in s.dir;
    if n in s.records then
      // in exactly one of pending, .sending and removed; and removed only after a delivery
      && n in s.used && n !in s.litter
      && !(pending && sending)
      && (pending ==> s.dir[File(n, Pending)] == Whole(s.records[n]))
      && (sending ==> s.dir[File(n, Sending)] == Whole(s.records[n]))
      && (!pending && !sending ==> Sent(s.delivered, n, s.records[n]))
    else
      && (pending || sending ==> n in s.litter && n in s.used)
      && (pending ==> s.dir[File(n, Pending)] == Garbage)
      && (sending ==> s.dir[File(n, Sending)] == Garbage)
  }

  predicate PcOk(s: Sys, pc: Pc) {
    match pc
    case Writing(n, r) => Fresh(s, n)
    case Written(n, r) => Fresh(s, n) && File(n, Tmp) in s.dir && s.dir[File(n, Tmp)] == Whole(r)
    case Loaded(n, c, _) => if n in s.records then c == Whole(s.records[n]) else c == Garbage && n in s.litter
    case Landed(n, _) => n in s.records && Sent(s.delivered, n, s.records[n])
    case _ => true
  }

  /** A name handed out to a Record call that has not returned. */
  predicate Fresh(s: Sys, n: string) { n in s.used && n !in s.litter && n !in s.records }

  function Writes(pc: Pc): Option<string> {
    match pc case Writing(n, _) => Some(n) case Written(n, _) => Some(n) case _ => None
  }

  ghost predicate WritersApart(s: Sys) {
    forall p: Pid, q: Pid :: p != q ==> Apart(At(s, p), At(s, q))
  }

  predicate Apart(a: Pc, b: Pc) { Writes(a).Some? ==> Writes(a) != Writes(b) }

  ghost predicate Inv(s: Sys) {
    && (forall n :: NameOk(s, n))
    && (forall p: Pid :: PcOk(s, At(s, p)))
    && WritersApart(s)
    && s.litter <= s.used
  }

  /** A step of `p` that concerns the files of one name only. */
  ghost predicate Local(s: Sys, t: Sys, p: Pid, n: string) {
    && t.procs == s.procs[p := At(t, p)]
    && s.delivered <= t.delivered && s.used <= t.used <= s.used + {n} && t.litter == s.litter
    && (forall f: File :: f.name != n ==> (f in t.dir <==> f in s.dir) && (f in s.dir ==> t.dir[f] == s.dir[f]))
    && (forall m :: m in s.records ==> m in t.records && t.records[m] == s.records[m])
    && (forall m :: m in t.records ==> m in s.records || m == n)
  }

  lemma SentGrows(s: Sys, t: Sys, n: string, r: Record)
    requires s.delivered <= t.delivered && Sent(s.delivered, n, r)
    ensures Sent(t.delivered, n, r)
  {
    var i :| 0 <= i < |s.delivered| && s.delivered[i] == (n, r);
    assert t.delivered[i] == (n, r);
  }

  lemma LocalStep(s: Sys, t: Sys, p: Pid, n: string)
    requires Inv(s) && Local(s, t, p, n) && NameOk(t, n) && PcOk(t, At(t, p))
    requires n in t.records && n !in s.records ==> Writes(At(s, p)) == Some(n)
    requires File(n, Tmp) in s.dir && (File(n, Tmp) !in t.dir || t.dir[File(n, Tmp)] != s.dir[File(n, Tmp)]) ==>
      Writes(At(s, p)) == Some(n) || n !in s.used
    requires Writes(At(t, p)).Some? ==> Writes(At(t, p)) == Some(n) && (Writes(At(s, p)) == Some(n) || n !in s.used)
    ensures Inv(t)
  {
    forall m ensures NameOk(t, m) {
      if m != n {
        assert NameOk(s, m);
        if m in s.records && Sent(s.delivered, m, s.records[m]) {
          SentGrows(s, t, m, s.records[m]);
        }
      }
    }
    forall q: Pid ensures PcOk(t, At(t, q)) {
      if q != p {
        assert PcOk(s, At(s, q)) && At(t, q) == At(s, q);
        if At(s, q).Landed? {
          SentGrows(s, t, At(s, q).name, s.records[At(s, q).name]);
        }
      }
    }
    forall q: Pid, q': Pid | q != q' ensures Apart(At(t, q), At(t, q')) {
      assert PcOk(s, At(s, q)) && PcOk(s, At(s, q')) && Apart(At(s, q), At(s, q'));
    }
  }

  /** A step that only moves a process. */
  lemma MoveStep(s: Sys, p: Pid, pc: Pc)
    requires Inv(s) && PcOk(s, pc) && Writes(pc).None?
    ensures Inv(Go(s, p, pc))
  {
    var t := Go(s, p, pc);
    forall n ensures NameOk(t, n) { assert NameOk(s, n); }
    forall q: Pid ensures PcOk(t, At(t, q)) { assert PcOk(s, At(s, q)); }
    forall q: Pid, q': Pid | q != q' ensures Apart(At(t, q), At(t, q')) { assert Apart(At(s, q), At(s, q')); }
  }

  lemma CreateStep(s: Sys, p: Pid, n: string, r: Record)
    requires Inv(s)
    ensures Inv(Apply(s, Create(p, n, r)))
  {
    assert NameOk(s, n);
    if At(s, p) == Ready && n !in s.used {
      LocalStep(s, Apply(s, Create(p, n, r)), p, n);
    }
  }

  lemma WriteStep(s: Sys, p: Pid, ok: bool)
    requires Inv(s)
    ensures Inv(DoWrite(s, p, ok))
  {
    assert PcOk(s, At(s, p));
    if At(s, p).Writing? {
      assert NameOk(s, At(s, p).name);
      LocalStep(s, DoWrite(s, p, ok), p, At(s, p).name);
    }
  }

  lemma PublishStep(s: Sys, p: Pid, ok: bool)
    requires Inv(s)
    ensures Inv(DoPublish(s, p, ok))
  {
    assert PcOk(s, At(s, p));
    if At(s, p).Written? {
      assert NameOk(s, At(s, p).name);
      LocalStep(s, DoPublish(s, p, ok), p, At(s, p).name);
    }
  }

  /** Renaming between pending and .sending moves one file of a name. */
  lemma RenameStep(s: Sys, p: Pid, a: File, b: File, pc: Pc)
    requires Inv(s) && a in s.dir && a.name == b.name && a.place != b.place && a.place != Tmp && b.place != Tmp
    requires PcOk(s, pc) && Writes(pc).None? && !pc.Loaded? && !pc.Landed?
    ensures Inv(Go(s.(dir := Renamed(s.dir, a, b)), p, pc))
  {
    assert NameOk(s, a.name);
    LocalStep(s, Go(s.(dir := Renamed(s.dir, a, b)), p, pc), p, a.name);
  }

  lemma ReadStep(s: Sys, p: Pid, ok: bool)
    requires Inv(s)
    ensures Inv(DoRead(s, p, ok))
  {
    if At(s, p).Claimed? {
      assert NameOk(s, At(s, p).name);
      MoveStep(s, p, At(DoRead(s, p, ok), p));
    }
  }

  lemma DeliverStep(s: Sys, p: Pid, d: Delivery)
    requires Inv(s)
    ensures Inv(DoDeliver(s, p, d))
  {
    assert PcOk(s, At(s, p));
    if At(s, p).Loaded? && At(s, p).content.Whole? {
      var n := At(s, p).name;
      var t := DoDeliver(s, p, d);
      assert NameOk(s, n);
      if d != RefusedUnseen {
        assert t.delivered[|s.delivered|] == (n, s.records[n]);
      }
      LocalStep(s, t, p, n);
    }
  }

  lemma RemoveStep(s: Sys, p: Pid, ok: bool)
    requires Inv(s)
    ensures Inv(DoRemove(s, p, ok))
  {
    assert PcOk(s, At(s, p));
    if At(s, p).Landed? || (At(s, p).Loaded? && !At(s, p).content.Whole?) {
      var n := At(s, p).name;
      assert NameOk(s, n);
      LocalStep(s, DoRemove(s, p, ok), p, n);
    }
  }

  lemma LitterStep(s: Sys, n: string)
    requires Inv(s) && n !in s.used
    ensures Inv(Apply(s, Litter(n)))
  {
    var t := Apply(s, Litter(n));
    forall m ensures NameOk(t, m) { assert NameOk(s, m); }
    forall q: Pid ensures PcOk(t, At(t, q)) { assert PcOk(s, At(s, q)) && NameOk(s, n); }
    forall q: Pid, q': Pid | q != q' ensures Apart(At(t, q), At(t, q')) { assert Apart(At(s, q), At(s, q')); }
  }

  lemma ActionKeepsInv(s: Sys, a: Action)
    requires Inv(s)
    ensures Inv(Apply(s, a))
  {
    hide Inv, SortedKeys, NameOk;
    match a
    case Start(p) => MoveStep(s, p, Recovering(SortedKeys(Names(s.dir, Sending))));
    case Open(p) => MoveStep(s, p, Ready);
    case Crash(p) => MoveStep(s, p, Down);
    case Create(p, n, r) => CreateStep(s, p, n, r);
    case Write(p, ok) => WriteStep(s, p, ok);
    case Publish(p, ok) => PublishStep(s, p, ok);
    case Recover(p, ok) =>
      if At(s, p).Recovering? {
        var t := DoRecover(s, p, ok);
        if t.dir != s.dir {
          var n := At(s, p).names[0];
          RenameStep(s, p, File(n, Sending), File(n, Pending), At(t, p));
        } else {
          MoveStep(s, p, At(t, p));
          assert t == Go(s, p, At(t, p));
        }
      }
    case List(p) => MoveStep(s, p, Sweeping(SortedKeys(Names(s.dir, Pending))));
    case Claim(p, ok) =>
      if At(s, p).Sweeping? {
        var t := DoClaim(s, p, ok);
        if At(t, p).Claimed? {
          var n := At(s, p).names[0];
          RenameStep(s, p, File(n, Pending), File(n, Sending), At(t, p));
        } else {
          MoveStep(s, p, At(t, p));
        }
      }
    case Read(p, ok) => ReadStep(s, p, ok);
    case Deliver(p, d) => DeliverStep(s, p, d);
    case Remove(p, ok) => RemoveStep(s, p, ok);
    case Undo(p, ok) =>
      if At(s, p).Undoing? {
        var n := At(s, p).name;
        if ok && File(n, Sending) in s.dir {
          RenameStep(s, p, File(n, Sending), File(n, Pending), Ready);
        } else {
          MoveStep(s, p, Ready);
        }
      }
    case Stop(p) => MoveStep(s, p, Ready);
    case Litter(n) =>
      if n !in s.used {
        LitterStep(s, n);
      }
  }

  lemma InitInv()
    ensures Inv(INIT)
  {
  }

  lemma {:induction false} RunKeepsInv(s: Sys, acts: seq<Action>)
    requires Inv(s)
    ensures Inv(Run(s, acts))
    decreases |acts|
  {
    hide Inv, Apply;
    if acts != [] {
      ActionKeepsInv(s, acts[0]);
      RunKeepsInv(Apply(s, acts[0]), acts[1..]);
    }
  }

  /**
   Whatever processes record, flush, fail, crash and recover on the directory, in any interleaving:
   a record for which Record returned nil is in exactly one place, pending, .sending or removed, holds
   what was recorded while it is there, and is removed only after it reached Next.
  */
  lemma NothingIsLost(acts: seq<Action>, n: string)
    requires n in Run(INIT, acts).records
    ensures var s := Run(INIT, acts);
            var pending, sending := File(n, Pending) in s.dir, File(n, Sending) in s.dir;
            && !(pending && sending)
            && (pending ==> s.dir[File(n, Pending)] == Whole(s.records[n]))
            && (sending ==> s.dir[File(n, Sending)] == Whole(s.records[n]))
            && (!pending && !sending ==> Sent(s.delivered, n, s.records[n]))
  {
    InitInv();
    RunKeepsInv(INIT, acts);
    assert NameOk(Run(INIT, acts), n);
  }
}
