/**
 First run on one key file: any number of processes read, generate, write a temporary file and publish
 it with a hard link that fails if the path exists. They agree on one seed, and a file that exists, even
 one that does not parse, is never changed.
*/
module KeyFile {
  import opened Wrappers

  type Pid = nat
  type Bytes = seq<bv8>
  type Seed = Bytes

  const SEED_SIZE := 32

  predicate ValidSeed(s: Seed) { |s| == SEED_SIZE }

  /** How a seed is written (base64 and a newline) and read back (white space trimmed, then base64). */
  datatype Codec = Codec(encode: Seed -> Bytes, decode: Bytes -> Option<Seed>)

  /** What is written reads back as itself. */
  ghost predicate Faithful(codec: Codec) {
    forall seed: Seed :: ValidSeed(seed) ==> codec.decode(codec.encode(seed)) == Some(seed)
  }

  datatype Error = NotExist | Unparsable | Exist | IoError

  // ---- the protocol -----------------------------------------------------------------------------

  /** Where a process stands inside loadOrCreateSeed. */
  datatype Pc =
    | Start                             // about to read the path
    | Generate                          // it does not exist: draw a seed
    | Store(seed: Seed)                 // write it to a temporary file of its own
    | Link(seed: Seed)                  // publish the complete temporary file
    | Reread                            // somebody else was first
    | Finished(r: Result<Seed, Error>)
    | Dead

  /** The bytes at the path, if there is a file. */
  datatype Sys = Sys(file: Option<Bytes>, procs: map<Pid, Pc>)

  datatype Action =
    | Read(p: Pid, io: bool)            // the first read, or the one after losing the race
    | Draw(p: Pid, seed: Seed)
    | WriteTemp(p: Pid, ok: bool)
    | Publish(p: Pid, ok: bool)
    | Die(p: Pid)

  function At(s: Sys, p: Pid): Pc { if p in s.procs then s.procs[p] else Start }

  function Go(s: Sys, p: Pid, pc: Pc): Sys { s.(procs := s.procs[p := pc]) }

  /** readSeedFile. */
  function Parsed(k: Codec, file: Option<Bytes>): Result<Seed, Error> {
    match file
    case None => Failure(NotExist)
    case Some(bytes) =>
      match k.decode(bytes)
      case None => Failure(Unparsable)
      case Some(seed) => if ValidSeed(seed) then Success(seed) else Failure(Unparsable)
  }

  function Apply(k: Codec, s: Sys, a: Action): Sys {
    match a
    case Read(p, io) =>
      (match At(s, p)
       case Start =>
         if !io then Go(s, p, Finished(Failure(IoError)))
         else if s.file.None? then Go(s, p, Generate)
         else Go(s, p, Finished(Parsed(k, s.file)))
       case Reread => Go(s, p, Finished(if io then Parsed(k, s.file) else Failure(IoError)))
       case _ => s)
    case Draw(p, seed) => if At(s, p) == Generate && ValidSeed(seed) then Go(s, p, Store(seed)) else s
    case WriteTemp(p, ok) =>
      if !At(s, p).Store? then s
      else if ok then Go(s, p, Link(At(s, p).seed)) else Go(s, p, Finished(Failure(IoError)))
    case Publish(p, ok) =>
      if !At(s, p).Link? then s
      else if s.file.Some? then Go(s, p, Reread)
      else if !ok then Go(s, p, Finished(Failure(IoError)))
      else Go(s.(file := Some(k.encode(At(s, p).seed))), p, Finished(Success(At(s, p).seed)))
    case Die(p) => Go(s, p, Dead)
  }

  function Run(k: Codec, s: Sys, acts: seq<Action>): Sys
    decreases |acts|
  {
    if acts == [] then s else Run(k, Apply(k, s, acts[0]), acts[1..])
  }

  /** Whoever has a seed has the file's, and whoever lost the race finds a file. */
  predicate PcOk(k: Codec, s: Sys, pc: Pc) {
    match pc
    case Store(seed) => ValidSeed(seed)
    case Link(seed) => ValidSeed(seed)
    case Reread => s.file.Some?
    case Finished(Success(seed)) => Parsed(k, s.file) == Success(seed)
    case Finished(Failure(e)) => e != NotExist
    case _ => true
  }

  ghost predicate Inv(k: Codec, s: Sys) { Faithful(k) && forall p: Pid :: PcOk(k, s, At(s, p)) }

  lemma ActionKeeps(k: Codec, s: Sys, a: Action)
    requires Inv(k, s)
    ensures Inv(k, Apply(k, s, a))
    ensures s.file.Some? ==> Apply(k, s, a).file == s.file
  {
    var t := Apply(k, s, a);
    assert PcOk(k, s, At(s, a.p));
    forall q: Pid ensures PcOk(k, t, At(t, q)) {
      assert PcOk(k, s, At(s, q));
    }
  }

  lemma {:induction false} RunKeeps(k: Codec, s: Sys, acts: seq<Action>)
    requires Inv(k, s)
    ensures Inv(k, Run(k, s, acts))
    ensures s.file.Some? ==> Run(k, s, acts).file == s.file
    decreases |acts|
  {
    hide Inv, Apply;
    if acts != [] {
      ActionKeeps(k, s, acts[0]);
      RunKeeps(k, Apply(k, s, acts[0]), acts[1..]);
    }
  }

  /** What is at the path stays there, byte for byte, whether it parses or not. */
  lemma ExistingFileKept(k: Codec, bytes: Bytes, acts: seq<Action>)
    requires Faithful(k)
    ensures Run(k, Sys(Some(bytes), map[]), acts).file == Some(bytes)
  {
    RunKeeps(k, Sys(Some(bytes), map[]), acts);
  }

  /**
   Any number of first runs in any interleaving, crashing anywhere: every process that obtains a seed
   obtains the one the file parses to, so they agree; and none ends up told that there is no file.
  */
  lemma SeedsAgree(k: Codec, file: Option<Bytes>, acts: seq<Action>, p: Pid, q: Pid)
    requires Faithful(k)
    requires var s := Run(k, Sys(file, map[]), acts); At(s, p).Finished? && At(s, q).Finished?
    ensures var s := Run(k, Sys(file, map[]), acts);
            && (At(s, p).r.Success? && At(s, q).r.Success? ==>
                  At(s, p).r == At(s, q).r && Parsed(k, s.file) == At(s, p).r)
            && At(s, p).r != Failure(NotExist)
  {
    RunKeeps(k, Sys(file, map[]), acts);
    var s := Run(k, Sys(file, map[]), acts);
    hide Run, Apply;
    assert PcOk(k, s, At(s, p)) && PcOk(k, s, At(s, q));
  }

  lemma {:induction false} RunConcat(k: Codec, s: Sys, a: seq<Action>, b: seq<Action>)
    ensures Run(k, s, a + b) == Run(k, Run(k, s, a), b)
    decreases |a|
  {
    hide Apply;
    if a == [] {
      assert a + b == b;
    } else {
      assert (a + b)[1..] == a[1..] + b;
      RunConcat(k, Apply(k, s, a[0]), a[1..], b);
    }
  }

  /** A seed once obtained is what every later process obtains too. */
  lemma SeedIsForEver(k: Codec, file: Option<Bytes>, acts: seq<Action>, more: seq<Action>, p: Pid, q: Pid)
    requires Faithful(k)
    requires var s := Run(k, Sys(file, map[]), acts); At(s, p).Finished? && At(s, p).r.Success?
    requires var t := Run(k, Sys(file, map[]), acts + more); At(t, q).Finished? && At(t, q).r.Success?
    ensures At(Run(k, Sys(file, map[]), acts + more), q).r == At(Run(k, Sys(file, map[]), acts), p).r
  {
    var s0 := Sys(file, map[]);
    RunConcat(k, s0, acts, more);
    RunKeeps(k, s0, acts);
    var s := Run(k, s0, acts);
    RunKeeps(k, s, more);
    hide Run, Apply;
    assert PcOk(k, s, At(s, p)) && PcOk(k, Run(k, s, more), At(Run(k, s, more), q));
  }

  // ---- the code ---------------------------------------------------------------------------------

  /** The path, with what other processes do to it between this one's calls. */
  class Path {
    const codec: Codec
    var s: Sys
    var script: seq<seq<Action>>

    constructor (codec: Codec, file: Option<Bytes>, script: seq<seq<Action>>)
      requires Faithful(codec)
      ensures this.codec == codec && Inv(codec, s) && s.file == file && this.script == script
    {
      this.codec, s, this.script := codec, Sys(file, map[]), script;
    }

    method Others(me: Pid)
      requires Inv(codec, s)
      modifies this
      ensures Inv(codec, s) && At(s, me) == old(At(s, me)) && (old(s.file).Some? ==> s.file == old(s.file))
    {
      hide Inv, Apply;
      if script == [] {
        return;
      }
      var acts := script[0];
      script := script[1..];
      for i := 0 to |acts|
        invariant Inv(codec, s) && At(s, me) == old(At(s, me)) && (old(s.file).Some? ==> s.file == old(s.file))
      {
        if acts[i].p != me {
          ActionKeeps(codec, s, acts[i]);
          NotMine(codec, s, acts[i], me);
          s := Apply(codec, s, acts[i]);
        }
      }
    }

    method Do(me: Pid, a: Action)
      requires Inv(codec, s) && a.p == me
      modifies this`s
      ensures Inv(codec, s) && s == Apply(codec, old(s), a) && (old(s.file).Some? ==> s.file == old(s.file))
    {
      ActionKeeps(codec, s, a);
      s := Apply(codec, s, a);
    }
  }

  lemma NotMine(k: Codec, s: Sys, a: Action, me: Pid)
    requires a.p != me
    ensures At(Apply(k, s, a), me) == At(s, me)
  {
  }

  lemma SeedHeld(k: Codec, s: Sys, p: Pid, seed: Seed)
    requires Inv(k, s) && At(s, p) == Finished(Success(seed))
    ensures Parsed(k, s.file) == Success(seed)
  {
    assert PcOk(k, s, At(s, p));
  }

  /** Writes a complete temporary file and links it to the path. */
  method WriteSeedFile(path: Path, me: Pid, seed: Seed, ok: bool) returns (error: Option<Error>)
    requires Inv(path.codec, path.s) && At(path.s, me) == Store(seed)
    modifies path
    ensures Inv(path.codec, path.s) && (old(path.s.file).Some? ==> path.s.file == old(path.s.file))
    ensures error.None? ==> path.s.file == Some(path.codec.encode(seed)) && At(path.s, me) == Finished(Success(seed))
    ensures error.None? ==> old(path.s.file).None? && Parsed(path.codec, path.s.file) == Success(seed)
    ensures error == Some(Exist) ==> path.s.file.Some? && At(path.s, me) == Reread
    ensures error == Some(Exist) || error == Some(IoError) || error.None?
    ensures error == Some(IoError) ==> !ok && At(path.s, me) == Finished(Failure(IoError))
  {
    hide Inv;
    path.Do(me, WriteTemp(me, ok));
    if !ok {
      return Some(IoError);
    }
    path.Others(me);
    path.Do(me, Publish(me, true));
    if At(path.s, me) == Reread {
      return Some(Exist);
    }
    SeedHeld(path.codec, path.s, me, seed);
    return None;
  }

  /**
   loadOrCreateSeed: the path's seed, creating it if absent. It returns what the path then holds, or an
   error, and changes nothing that was there.
  */
  method LoadOrCreateSeed(path: Path, me: Pid, drawn: Seed, ok: bool) returns (r: Result<Seed, Error>)
    requires Inv(path.codec, path.s) && At(path.s, me) == Start && ValidSeed(drawn)
    modifies path
    ensures Inv(path.codec, path.s) && (old(path.s.file).Some? ==> path.s.file == old(path.s.file))
    ensures r.Success? ==> Parsed(path.codec, path.s.file) == r && ValidSeed(r.value)
    ensures r.Failure? ==> r.error == IoError || (r.error == Unparsable && Parsed(path.codec, path.s.file) == r)
    ensures ok && r.Failure? ==> r.error == Unparsable
  {
    hide Inv;
    path.Others(me);
    var seen := Parsed(path.codec, path.s.file);
    assert PcOk(path.codec, path.s, At(path.s, me));
    path.Do(me, Read(me, true));
    if seen != Failure(NotExist) {
      return seen;
    }
    path.Others(me);
    path.Do(me, Draw(me, drawn));
    var error := WriteSeedFile(path, me, drawn, ok);
    if error == Some(Exist) {
      path.Others(me);
      r := Parsed(path.codec, path.s.file);
      path.Do(me, Read(me, true));
      return;
    }
    return if error.Some? then Failure(error.value) else Success(drawn);
  }
}
