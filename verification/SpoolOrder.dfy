/**
 Order of delivery. One process flushes, restarted any number of times through Start; names are
 published in increasing order and no local rename or remove fails. Then what Next saw, with adjacent
 repeats collapsed, is always a prefix of the acknowledged records in name order.
*/
module SpoolOrder {
  import opened Spool
  import opened Text

  const FLUSHER: Pid := 0

  // ---- hypotheses -------------------------------------------------------------------------------

  ghost predicate Orderly(s: Sys, a: Action) {
    match a
    case Start(p) => p == FLUSHER
    case Open(p) => p != FLUSHER
    case Crash(_) => true
    case Create(p, _, _) => p != FLUSHER
    case Write(_, _) => true
    case Publish(p, ok) => ok && At(s, p).Written? ==> forall m :: m in s.records ==> Leq(m, At(s, p).name)
    case List(p) => p == FLUSHER
    case Read(_, _) => true
    case Deliver(_, _) => true
    case Stop(_) => true
    case Recover(_, ok) => ok
    case Claim(_, ok) => ok
    case Remove(_, ok) => ok
    case Undo(_, ok) => ok
    case Litter(_) => false
  }

  ghost predicate OrderlyRun(s: Sys, acts: seq<Action>)
    decreases |acts|
  {
    acts == [] || (Orderly(s, acts[0]) && OrderlyRun(Apply(s, acts[0]), acts[1..]))
  }

  // ---- what is claimed --------------------------------------------------------------------------

  function NamesOf(delivered: seq<(string, Record)>): seq<string> {
    if delivered == [] then [] else NamesOf(delivered[..|delivered| - 1]) + [delivered[|delivered| - 1].0]
  }

  /** A sequence without its adjacent repeats. */
  function Collapse(names: seq<string>): seq<string> {
    if names == [] then []
    else
      var init, last := Collapse(names[..|names| - 1]), names[|names| - 1];
      if init != [] && init[|init| - 1] == last then init else init + [last]
  }

  lemma DeliveredOne(delivered: seq<(string, Record)>, x: (string, Record))
    ensures var c := Collapse(NamesOf(delivered));
            Collapse(NamesOf(delivered + [x])) == if c != [] && c[|c| - 1] == x.0 then c else c + [x.0]
  {
    assert (delivered + [x])[..|delivered|] == delivered;
    assert (NamesOf(delivered) + [x.0])[..|NamesOf(delivered)|] == NamesOf(delivered);
  }

  predicate Increasing(names: seq<string>) {
    forall i, j :: 0 <= i < j < |names| ==> names[i] != names[j] && Leq(names[i], names[j])
  }

  /** There is only one increasing listing of a set. */
  lemma {:induction false} IncreasingUnique(a: seq<string>, b: seq<string>)
    requires Increasing(a) && Increasing(b) && forall k :: k in a <==> k in b
    ensures a == b
  {
    assert b != [] ==> b[0] in b;
    if a != [] {
      assert a[0] in b && b != [] && b[0] in a;
      var i :| 0 <= i < |b| && b[i] == a[0];
      var j :| 0 <= j < |a| && a[j] == b[0];
      if i > 0 && j > 0 {
        LeqAntisymmetric(a[0], b[0]);
      }
      assert a[0] == b[0];
      assert a == [a[0]] + a[1..] && b == [b[0]] + b[1..];
      assert a[0] !in a[1..] && b[0] !in b[1..];
      forall k ensures k in a[1..] <==> k in b[1..] {
        assert k in a <==> k == a[0] || k in a[1..];
        assert k in b <==> k == b[0] || k in b[1..];
      }
      IncreasingUnique(a[1..], b[1..]);
    }
  }

  // ---- the invariant ----------------------------------------------------------------------------

  /** The first `m` published files are gone; of the others only the first may be .sending. */
  ghost predicate FilesInOrder(dir: map<File, Content>, published: seq<string>, m: nat) {
    && m <= |published|
    && (forall f :: f in dir && f.place != Tmp ==> f.name in published[m..])
    && (forall i :: m <= i < |published| ==>
      (File(published[i], Pending) in dir) != (File(published[i], Sending) in dir))
    && (forall i :: m < i < |published| ==> File(published[i], Sending) !in dir)
  }

  predicate Quiet(dir: map<File, Content>, published: seq<string>, m: nat) {
    m < |published| ==> File(published[m], Sending) !in dir
  }

  predicate Busy(dir: map<File, Content>, published: seq<string>, m: nat, n: string) {
    m < |published| && n == published[m] && File(n, Sending) in dir
  }

  predicate Ahead(published: seq<string>, from: nat, names: seq<string>) {
    from + |names| <= |published| && names == published[from..from + |names|]
  }

  /** Next saw the first `m` or `m + 1` records. */
  predicate SeenUpTo(seen: seq<string>, published: seq<string>, m: nat) {
    m <= |published| && (seen == published[..m] || (m < |published| && seen == published[..m + 1]))
  }

  ghost predicate FlusherOk(s: Sys, m: nat) {
    match At(s, FLUSHER)
    case Down => true
    case Ready => Quiet(s.dir, s.published, m)
    case Recovering(names) =>
      if names == [] then Quiet(s.dir, s.published, m) else |names| == 1 && Busy(s.dir, s.published, m, names[0])
    case Sweeping(names) => Quiet(s.dir, s.published, m) && Ahead(s.published, m, names)
    case Claimed(n, rest) => Busy(s.dir, s.published, m, n) && Ahead(s.published, m + 1, rest)
    case Loaded(n, c, rest) =>
      Busy(s.dir, s.published, m, n) && Ahead(s.published, m + 1, rest) && n in s.records && c == Whole(s.records[n])
    case Landed(n, rest) =>
      && Busy(s.dir, s.published, m, n) && Ahead(s.published, m + 1, rest)
      && Collapse(NamesOf(s.delivered)) == s.published[..m + 1]
    case Undoing(n) => Busy(s.dir, s.published, m, n)
    case _ => false
  }

  ghost predicate SameNames(published: seq<string>, records: map<string, Record>) {
    forall n :: n in published <==> n in records
  }

  predicate AllRecords(delivered: seq<(string, Record)>, records: map<string, Record>) {
    forall i :: 0 <= i < |delivered| ==> IsRecord(delivered[i], records)
  }

  ghost predicate InOrder(s: Sys, m: nat) {
    && Increasing(s.published)
    && SameNames(s.published, s.records)
    && FilesInOrder(s.dir, s.published, m)
    && SeenUpTo(Collapse(NamesOf(s.delivered)), s.published, m)
    && AllRecords(s.delivered, s.records)
    && FlusherOk(s, m)
    && OthersRecord(s)
  }

  ghost predicate OthersRecord(s: Sys) { forall p: Pid :: p != FLUSHER ==> Records(At(s, p)) }

  /** Where a process stands that never flushes. */
  predicate Records(pc: Pc) { pc.Down? || pc.Ready? || pc.Writing? || pc.Written? }

  lemma OthersKept(s: Sys, t: Sys, p: Pid)
    requires OthersRecord(s) && t.procs == s.procs[p := At(t, p)] && (p != FLUSHER ==> Records(At(t, p)))
    ensures OthersRecord(t)
  {
    forall q: Pid | q != FLUSHER ensures Records(At(t, q)) {
      assert Records(At(s, q));
    }
  }

  predicate IsRecord(x: (string, Record), records: map<string, Record>) { x.0 in records && records[x.0] == x.1 }

  // ---- each action ------------------------------------------------------------------------------

  lemma PendingListed(s: Sys, m: nat)
    requires Increasing(s.published) && FilesInOrder(s.dir, s.published, m) && Quiet(s.dir, s.published, m)
    ensures SortedKeys(Names(s.dir, Pending)) == s.published[m..]
  {
    var listed, rest := SortedKeys(Names(s.dir, Pending)), s.published[m..];
    forall k ensures k in listed <==> k in rest {
      if k in rest {
        var i :| 0 <= i < |rest| && rest[i] == k;
        assert s.published[m + i] == k;
        assert File(k, Pending) in s.dir;
      }
    }
    IncreasingUnique(listed, rest);
  }

  lemma SendingListed(s: Sys, m: nat)
    requires Increasing(s.published) && FilesInOrder(s.dir, s.published, m)
    ensures var listed := SortedKeys(Names(s.dir, Sending));
            if listed == [] then Quiet(s.dir, s.published, m)
            else |listed| == 1 && Busy(s.dir, s.published, m, listed[0])
  {
    var listed := SortedKeys(Names(s.dir, Sending));
    assert |listed| > 1 ==> listed[0] != listed[1];
    forall i | 0 <= i < |listed| ensures m < |s.published| && listed[i] == s.published[m] {
      assert listed[i] in listed;
      var f :| f in s.dir && f.place == Sending && f.name == listed[i];
      var j :| 0 <= j < |s.published[m..]| && s.published[m..][j] == f.name;
      assert s.published[m + j] == f.name && File(f.name, Sending) == f;
    }
    if m < |s.published| && File(s.published[m], Sending) in s.dir {
      assert s.published[m] in Names(s.dir, Sending);
      assert s.published[m] in listed;
    }
  }

  /** Other processes only touch temporary files. */
  lemma TmpStep(s: Sys, t: Sys, m: nat, p: Pid)
    requires InOrder(s, m) && p != FLUSHER
    requires t.procs == s.procs[p := At(t, p)] && Records(At(t, p))
    requires forall f: File :: f.place != Tmp ==> (f in t.dir <==> f in s.dir)
    requires t.published == s.published && t.records == s.records && t.delivered == s.delivered
    ensures InOrder(t, m)
  {
    hide Collapse, NamesOf, Increasing;
    OthersKept(s, t, p);
  }

  /** The flusher moves without touching a file. */
  lemma PcStep(s: Sys, m: nat, pc: Pc)
    requires InOrder(s, m) && FlusherOk(Go(s, FLUSHER, pc), m)
    ensures InOrder(Go(s, FLUSHER, pc), m)
  {
    hide Collapse, NamesOf, Increasing, FilesInOrder;
    OthersKept(s, Go(s, FLUSHER, pc), FLUSHER);
  }

  lemma PublishKeepsOrder(s: Sys, m: nat, p: Pid)
    requires Inv(s) && InOrder(s, m) && Orderly(s, Publish(p, true)) && At(s, p).Written?
    ensures InOrder(DoPublish(s, p, true), m)
  {
    var n, t := At(s, p).name, DoPublish(s, p, true);
    assert PcOk(s, At(s, p));
    hide NameOk, Collapse, NamesOf, FilesInOrder, SeenUpTo, FlusherOk;
    NotSending(s, n);
    NamesGrow(s.published, s.records, s.delivered, n, At(s, p).r);
    PublishKeepsFlusher(s, m, p);
    OthersKept(s, t, p);
    SeenKept(Collapse(NamesOf(s.delivered)), s.published, t.published, m);
    PublishKeepsFiles(s.dir, s.published, m, n);
    hide Inv, Increasing, OthersRecord, AllRecords, SameNames;
  }

  lemma NamesGrow(published: seq<string>, records: map<string, Record>, delivered: seq<(string, Record)>, n: string,
      r: Record)
    requires Increasing(published) && SameNames(published, records) && AllRecords(delivered, records)
    requires n !in records && forall m :: m in records ==> Leq(m, n)
    ensures Increasing(published + [n]) && SameNames(published + [n], records[n := r])
      && AllRecords(delivered, records[n := r])
    ensures n !in published
  {
    assert forall i :: 0 <= i < |published| ==> published[i] in records;
    forall i | 0 <= i < |delivered| ensures IsRecord(delivered[i], records[n := r]) {
      assert IsRecord(delivered[i], records);
    }
  }

  lemma SeenKept(seen: seq<string>, before: seq<string>, after: seq<string>, m: nat)
    requires before <= after && SeenUpTo(seen, before, m)
    ensures SeenUpTo(seen, after, m)
  {
    assert after[..m] == before[..m];
    assert m < |before| ==> after[..m + 1] == before[..m + 1];
  }

  lemma PublishKeepsFiles(dir: map<File, Content>, published: seq<string>, m: nat, n: string)
    requires FilesInOrder(dir, published, m) && n !in published
    requires File(n, Tmp) in dir && File(n, Pending) !in dir && File(n, Sending) !in dir
    ensures FilesInOrder(Renamed(dir, File(n, Tmp), File(n, Pending)), published + [n], m)
  {
    var after := published + [n];
    assert after[m..] == published[m..] + [n];
    forall i | m <= i < |after|
      ensures var now := Renamed(dir, File(n, Tmp), File(n, Pending));
        (File(after[i], Pending) in now) != (File(after[i], Sending) in now)
    {
      assert i < |published| ==> after[i] == published[i] && after[i] != n;
    }
  }

  lemma PublishKeepsFlusher(s: Sys, m: nat, p: Pid)
    requires Inv(s) && InOrder(s, m) && At(s, p).Written? && p != FLUSHER
    ensures FlusherOk(DoPublish(s, p, true), m)
  {
    var n, t := At(s, p).name, DoPublish(s, p, true);
    assert PcOk(s, At(s, p));
    NotSending(s, n);
    hide Inv, NameOk, Increasing, FilesInOrder, Collapse, NamesOf;
    assert At(t, FLUSHER) == At(s, FLUSHER);
    FlusherKept(s, t, m);
  }

  lemma AheadKept(before: seq<string>, after: seq<string>, from: nat, names: seq<string>)
    requires before <= after && Ahead(before, from, names)
    ensures Ahead(after, from, names)
  {
  }

  /** Publishing more names does not disturb the flusher. */
  lemma FlusherKept(s: Sys, t: Sys, m: nat)
    requires FlusherOk(s, m) && m <= |s.published| && At(t, FLUSHER) == At(s, FLUSHER)
    requires s.published <= t.published && t.delivered == s.delivered
    requires forall n :: File(n, Sending) in t.dir <==> File(n, Sending) in s.dir
    requires m == |s.published| < |t.published| ==> File(t.published[m], Sending) !in t.dir
    requires forall n :: n in s.records ==> n in t.records && t.records[n] == s.records[n]
    ensures FlusherOk(t, m)
  {
    hide Collapse, NamesOf, Ahead;
    match At(s, FLUSHER)
    case Sweeping(names) => AheadKept(s.published, t.published, m, names);
    case Claimed(_, rest) => AheadKept(s.published, t.published, m + 1, rest);
    case Loaded(_, _, rest) => AheadKept(s.published, t.published, m + 1, rest);
    case Landed(_, rest) =>
      AheadKept(s.published, t.published, m + 1, rest);
      assert t.published[..m + 1] == s.published[..m + 1];
    case _ =>
  }

  lemma NotSending(s: Sys, n: string)
    requires Inv(s) && Fresh(s, n)
    ensures File(n, Sending) !in s.dir && File(n, Pending) !in s.dir
  {
    assert NameOk(s, n);
  }

  /** Renaming the first remaining file between pending and .sending. */
  lemma RenameKeepsOrder(s: Sys, m: nat, a: Place, b: Place, pc: Pc)
    requires InOrder(s, m) && m < |s.published| && a != b && a != Tmp && b != Tmp
    requires File(s.published[m], a) in s.dir
    requires FlusherOk(Go(s.(dir := Renamed(s.dir, File(s.published[m], a), File(s.published[m], b))), FLUSHER, pc), m)
    ensures InOrder(Go(s.(dir := Renamed(s.dir, File(s.published[m], a), File(s.published[m], b))), FLUSHER, pc), m)
  {
    hide Collapse, NamesOf;
    assert s.published[m..][0] == s.published[m];
    var dir := Renamed(s.dir, File(s.published[m], a), File(s.published[m], b));
    assert FilesInOrder(dir, s.published, m);
    OthersKept(s, Go(s.(dir := dir), FLUSHER, pc), FLUSHER);
  }

  lemma ClaimKeepsOrder(s: Sys, m: nat)
    requires InOrder(s, m) && At(s, FLUSHER).Sweeping?
    ensures InOrder(DoClaim(s, FLUSHER, true), m)
  {
    hide Collapse, NamesOf;
    var names := At(s, FLUSHER).names;
    if names == [] {
      PcStep(s, m, Ready);
    } else {
      assert names[0] == s.published[m];
      assert names[1..] == s.published[m + 1..m + 1 + |names[1..]|];
      RenameKeepsOrder(s, m, Pending, Sending, Claimed(names[0], names[1..]));
    }
  }

  lemma RecoverKeepsOrder(s: Sys, m: nat)
    requires InOrder(s, m) && At(s, FLUSHER).Recovering?
    ensures InOrder(DoRecover(s, FLUSHER, true), m)
  {
    hide Collapse, NamesOf;
    var names := At(s, FLUSHER).names;
    if names == [] {
      PcStep(s, m, Ready);
    } else {
      assert names[1..] == [];
      RenameKeepsOrder(s, m, Sending, Pending, Recovering([]));
    }
  }

  lemma UndoKeepsOrder(s: Sys, m: nat)
    requires InOrder(s, m) && At(s, FLUSHER).Undoing?
    ensures InOrder(DoUndo(s, FLUSHER, true), m)
  {
    hide Collapse, NamesOf;
    RenameKeepsOrder(s, m, Sending, Pending, Ready);
  }

  lemma ReadKeepsOrder(s: Sys, m: nat, ok: bool)
    requires Inv(s) && InOrder(s, m) && At(s, FLUSHER).Claimed?
    ensures InOrder(DoRead(s, FLUSHER, ok), m)
  {
    hide Collapse, NamesOf, Increasing;
    var n := At(s, FLUSHER).name;
    assert NameOk(s, n) && n in s.published;
    PcStep(s, m, At(DoRead(s, FLUSHER, ok), FLUSHER));
  }

  lemma DeliverKeepsOrder(s: Sys, m: nat, d: Delivery)
    requires InOrder(s, m) && At(s, FLUSHER).Loaded?
    ensures InOrder(DoDeliver(s, FLUSHER, d), m)
  {
    hide Collapse, NamesOf, Increasing;
    if d == RefusedUnseen {
      PcStep(s, m, Undoing(At(s, FLUSHER).name));
    } else {
      SeenKeepsOrder(s, m, d);
    }
  }

  lemma SeenKeepsOrder(s: Sys, m: nat, d: Delivery)
    requires InOrder(s, m) && At(s, FLUSHER).Loaded? && d != RefusedUnseen
    ensures InOrder(DoDeliver(s, FLUSHER, d), m)
  {
    hide Collapse, NamesOf;
    var n := At(s, FLUSHER).name;
    SeenNext(s, m, n);
    hide Increasing, FilesInOrder, Ahead;
    SeenStep(s, m, (n, s.records[n]), At(DoDeliver(s, FLUSHER, d), FLUSHER));
  }

  lemma SeenStep(s: Sys, m: nat, x: (string, Record), pc: Pc)
    requires InOrder(s, m) && IsRecord(x, s.records) && m < |s.published|
    requires Collapse(NamesOf(s.delivered + [x])) == s.published[..m + 1]
    requires FlusherOk(Go(s.(delivered := s.delivered + [x]), FLUSHER, pc), m)
    ensures InOrder(Go(s.(delivered := s.delivered + [x]), FLUSHER, pc), m)
  {
    hide Collapse, NamesOf, Increasing, FilesInOrder, Busy, Ahead;
    OthersKept(s, Go(s.(delivered := s.delivered + [x]), FLUSHER, pc), FLUSHER);
  }

  /** Seeing the first remaining record, once more or for the first time. */
  lemma SeenNext(s: Sys, m: nat, n: string)
    requires Increasing(s.published) && SeenUpTo(Collapse(NamesOf(s.delivered)), s.published, m)
    requires m < |s.published| && s.published[m] == n && n in s.records
    ensures Collapse(NamesOf(s.delivered + [(n, s.records[n])])) == s.published[..m + 1]
  {
    DeliveredOne(s.delivered, (n, s.records[n]));
    hide Collapse, NamesOf;
    assert s.published[..m + 1] == s.published[..m] + [n];
    assert m > 0 ==> s.published[..m][m - 1] == s.published[m - 1] != n;
  }

  lemma RemoveKeepsOrder(s: Sys, m: nat)
    requires InOrder(s, m) && At(s, FLUSHER).Landed?
    ensures InOrder(DoRemove(s, FLUSHER, true), m + 1)
  {
    hide Collapse, NamesOf;
    var n, t := At(s, FLUSHER).name, DoRemove(s, FLUSHER, true);
    assert s.published[m..] == [n] + s.published[m + 1..];
    assert (File(n, Pending) in s.dir) != (File(s.published[m], Sending) in s.dir);
    forall f | f in t.dir && f.place != Tmp ensures f.name in t.published[m + 1..] {
      assert f in s.dir && f.name in s.published[m..];
      assert f == File(f.name, Pending) || f == File(f.name, Sending);
    }
    forall i | m + 1 <= i < |t.published|
      ensures (File(t.published[i], Pending) in t.dir) != (File(t.published[i], Sending) in t.dir)
      ensures File(t.published[i], Sending) !in t.dir
    {
      assert s.published[i] != n;
    }
    OthersKept(s, t, FLUSHER);
  }

  /** Steps of Record, of processes coming up and of crashes. */
  lemma RecorderKeepsOrder(s: Sys, m: nat, a: Action)
    requires Inv(s) && InOrder(s, m) && Orderly(s, a)
    requires a.Open? || a.Crash? || a.Create? || a.Write? || a.Publish?
    ensures InOrder(Apply(s, a), m)
  {
    var p := a.p;
    if a.Publish? && a.ok && At(s, p).Written? {
      PublishKeepsOrder(s, m, p);
    } else if p == FLUSHER {
      hide Inv, Collapse, NamesOf, Increasing, FilesInOrder, SeenUpTo, SameNames, AllRecords, OthersRecord;
      if a.Crash? {
        PcStep(s, m, Down);
      }
    } else {
      assert Records(At(s, p));
      RecorderMoves(s, a);
      hide Inv, InOrder, Apply;
      if Apply(s, a) != s {
        TmpStep(s, Apply(s, a), m, p);
      }
    }
  }

  /** They touch no file but a temporary one. */
  lemma RecorderMoves(s: Sys, a: Action)
    requires a.Open? || a.Crash? || a.Create? || a.Write? || (a.Publish? && !(a.ok && At(s, a.p).Written?))
    requires Records(At(s, a.p))
    ensures var t := Apply(s, a);
            t == s ||
            (&& t.procs == s.procs[a.p := At(t, a.p)] && Records(At(t, a.p))
             && (forall f: File :: f.place != Tmp ==> (f in t.dir <==> f in s.dir))
             && t.published == s.published && t.records == s.records && t.delivered == s.delivered)
  {
  }

  /** The flusher's own steps; a removal is the one that brings the next record up. */
  lemma FlusherKeepsOrder(s: Sys, m: nat, a: Action) returns (k: nat)
    requires Inv(s) && InOrder(s, m) && Orderly(s, a)
    requires a.Start? || a.List? || a.Recover? || a.Claim? || a.Read? || a.Deliver? || a.Remove? || a.Undo? || a.Stop?
    requires a.p == FLUSHER
    ensures InOrder(Apply(s, a), k)
  {
    hide Inv, InOrder, SortedKeys, Names;
    k := m;
    var pc := At(s, FLUSHER);
    match a
    case Start(_) => if pc == Down { StartKeepsOrder(s, m); }
    case List(_) => if pc == Ready { ListKeepsOrder(s, m); }
    case Recover(_, _) => if pc.Recovering? { RecoverKeepsOrder(s, m); }
    case Claim(_, _) => if pc.Sweeping? { ClaimKeepsOrder(s, m); }
    case Read(_, ok) => if pc.Claimed? { ReadKeepsOrder(s, m, ok); }
    case Deliver(_, d) => if pc.Loaded? { DeliverKeepsOrder(s, m, d); }
    case Remove(_, _) =>
      if pc.Landed? {
        RemoveKeepsOrder(s, m);
        k := m + 1;
      } else if pc.Loaded? {
        LoadedWhole(s, m);
      }
    case Undo(_, _) => if pc.Undoing? { UndoKeepsOrder(s, m); }
    case Stop(_) => if pc.Sweeping? { StopKeepsOrder(s, m); }
  }

  lemma LoadedWhole(s: Sys, m: nat)
    requires InOrder(s, m) && At(s, FLUSHER).Loaded?
    ensures At(s, FLUSHER).content.Whole?
  {
    hide Collapse, NamesOf, Increasing, FilesInOrder, SeenUpTo, SameNames, AllRecords, OthersRecord;
  }

  lemma StopKeepsOrder(s: Sys, m: nat)
    requires InOrder(s, m) && At(s, FLUSHER).Sweeping?
    ensures InOrder(Go(s, FLUSHER, Ready), m)
  {
    hide Collapse, NamesOf, Increasing, FilesInOrder, SeenUpTo, SameNames, AllRecords, OthersRecord;
    PcStep(s, m, Ready);
  }

  lemma StepKeepsOrder(s: Sys, m: nat, a: Action) returns (k: nat)
    requires Inv(s) && InOrder(s, m) && Orderly(s, a)
    ensures InOrder(Apply(s, a), k)
  {
    if a.Open? || a.Crash? || a.Create? || a.Write? || a.Publish? {
      hide Inv, InOrder, Apply;
      RecorderKeepsOrder(s, m, a);
      k := m;
    } else if a.p == FLUSHER {
      hide Inv, InOrder, Apply;
      k := FlusherKeepsOrder(s, m, a);
    } else {
      hide Inv, Collapse, NamesOf, Increasing, FilesInOrder, SeenUpTo, SameNames, AllRecords, FlusherOk;
      assert Records(At(s, a.p));
      assert Apply(s, a) == s;
      k := m;
    }
  }

  lemma StartKeepsOrder(s: Sys, m: nat)
    requires InOrder(s, m) && At(s, FLUSHER) == Down
    ensures InOrder(Apply(s, Start(FLUSHER)), m)
  {
    var names := SortedKeys(Names(s.dir, Sending));
    SendingListed(s, m);
    assert Apply(s, Start(FLUSHER)) == Go(s, FLUSHER, Recovering(names));
    hide Apply, SortedKeys, Names, Collapse, NamesOf;
    hide FilesInOrder, Increasing, OthersRecord, SeenUpTo, SameNames, AllRecords;
    PcStep(s, m, Recovering(names));
  }

  lemma ListKeepsOrder(s: Sys, m: nat)
    requires InOrder(s, m) && At(s, FLUSHER) == Ready
    ensures InOrder(Apply(s, List(FLUSHER)), m)
  {
    PendingOf(s, m);
    ListMoves(s);
    hide InOrder, Apply, SortedKeys, Names;
    SweepKeepsOrder(s, m);
  }

  lemma PendingOf(s: Sys, m: nat)
    requires InOrder(s, m) && At(s, FLUSHER) == Ready
    ensures m <= |s.published| && SortedKeys(Names(s.dir, Pending)) == s.published[m..]
  {
    PendingListed(s, m);
    hide Collapse, NamesOf, SortedKeys, OthersRecord, SameNames, AllRecords, Increasing;
  }

  lemma SweepKeepsOrder(s: Sys, m: nat)
    requires InOrder(s, m) && At(s, FLUSHER) == Ready && m <= |s.published|
    ensures InOrder(Go(s, FLUSHER, Sweeping(s.published[m..])), m)
  {
    hide Collapse, NamesOf, FilesInOrder, Increasing, OthersRecord, SeenUpTo, SameNames, AllRecords;
    PcStep(s, m, Sweeping(s.published[m..]));
  }

  lemma ListMoves(s: Sys)
    requires At(s, FLUSHER) == Ready
    ensures Apply(s, List(FLUSHER)) == Go(s, FLUSHER, Sweeping(SortedKeys(Names(s.dir, Pending))))
  {
    hide SortedKeys, Names;
  }

  // ---- every run --------------------------------------------------------------------------------

  lemma {:induction false} RunKeepsOrder(s: Sys, m: nat, acts: seq<Action>) returns (k: nat)
    requires Inv(s) && InOrder(s, m) && OrderlyRun(s, acts)
    ensures InOrder(Run(s, acts), k)
    decreases |acts|
  {
    hide Inv, InOrder, Apply, Orderly;
    k := m;
    if acts != [] {
      ActionKeepsInv(s, acts[0]);
      k := StepKeepsOrder(s, m, acts[0]);
      k := RunKeepsOrder(Apply(s, acts[0]), k, acts[1..]);
    }
  }

  /**
   Next sees the acknowledged records in name order, each at least once and none skipped: what it has
   seen, adjacent repeats aside, is a prefix of their sorted names; and each delivery carries the record
   that was acknowledged under its name.
  */
  lemma DeliveredInOrder(acts: seq<Action>)
    requires OrderlyRun(INIT, acts)
    ensures var s := Run(INIT, acts);
            && Collapse(NamesOf(s.delivered)) <= SortedKeys(s.records.Keys)
            && forall i :: 0 <= i < |s.delivered| ==> IsRecord(s.delivered[i], s.records)
  {
    InitInv();
    assert InOrder(INIT, 0);
    var k := RunKeepsOrder(INIT, 0, acts);
    var s := Run(INIT, acts);
    IncreasingUnique(s.published, SortedKeys(s.records.Keys));
  }
}
