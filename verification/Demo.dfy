/** The demo agent demo.writer and the probe-able tool fs.append. */
module Demo {
  import opened Goals
  import opened Json
  import opened Protocol
  import opened Wrappers

  const APPEND := "fs.append"

  // ---- reading JSON objects ---------------------------------------------------------------------

  /** A string field of a decoded object: absent and null leave it empty, another type is an error. */
  function StringField(v: Json, k: string): Option<string> {
    match v
    case Null => Some("")
    case Obj(m) =>
      if k !in m || m[k] == Null then Some("")
      else if m[k].Str? then Some(m[k].s)
      else None
    case _ => None
  }

  function Strings(vs: seq<Json>): Option<seq<string>> {
    if vs == [] then Some([])
    else
      match Strings(vs[1..])
      case None => None
      case Some(rest) =>
        if vs[0] == Null then Some([""] + rest) else if vs[0].Str? then Some([vs[0].s] + rest) else None
  }

  function LinesField(v: Json): Option<seq<string>> {
    if v.Obj? && "lines" in v.members && v.members["lines"] != Null then
      (if v.members["lines"].Arr? then Strings(v.members["lines"].items) else None)
    else Some([])
  }

  // ---- the agent --------------------------------------------------------------------------------

  datatype WriterInput = WriterInput(file: string, lines: seq<string>)

  /** The goal's input; an unnamed file is out.txt. */
  function DecodeInput(v: Json): Option<WriterInput> {
    match (StringField(v, "file"), LinesField(v))
    case (Some(file), Some(lines)) => Some(WriterInput(if file == "" then "out.txt" else file, lines))
    case _ => None
  }

  /** The line a message instructs to append: only a trusted operator message can. */
  function Instruction(m: Message): seq<string> {
    if m.source != Operator || !m.trusted then []
    else
      match StringField(m.body, "append")
      case Some(text) => if text == "" then [] else [text]
      case None => []
  }

  function Instructions(ms: seq<Message>): seq<string> {
    if ms == [] then [] else Instructions(ms[..|ms| - 1]) + Instruction(ms[|ms| - 1])
  }

  function PlanOf(input: WriterInput, ms: seq<Message>): seq<string> {
    input.lines + Instructions(ms)
  }

  /** The plan as it is built: the input's lines, then one line per instructing message. */
  method Plan(raw: Json, ms: seq<Message>) returns (r: Option<(WriterInput, seq<string>)>)
    ensures r == match DecodeInput(raw) case None => None case Some(input) => Some((input, PlanOf(input, ms)))
  {
    var decoded := DecodeInput(raw);
    if decoded.None? {
      return None;
    }
    var lines := decoded.value.lines;
    for i := 0 to |ms|
      invariant lines == PlanOf(decoded.value, ms[..i])
    {
      assert ms[..i + 1][..i] == ms[..i];
      var m := ms[i];
      if m.source != Operator || !m.trusted {
        continue;
      }
      var text := StringField(m.body, "append");
      if text.Some? && text.value != "" {
        lines := lines + [text.value];
      }
    }
    assert ms[..|ms|] == ms;
    return Some((decoded.value, lines));
  }

  function LineArgs(file: string, line: string): (v: Json)
    ensures WellFormed(v)
  {
    Obj(map["file" := Str(file), "line" := Str(line)])
  }

  function WriterNext(input: WriterInput, ctx: Context): Decision {
    var lines := PlanOf(input, ctx.messages);
    if ctx.step >= |lines| then Finish else Invoke(APPEND, LineArgs(input.file, lines[ctx.step]))
  }

  predicate WriterVerifies(input: WriterInput, ctx: Context) {
    |ctx.history| >= |PlanOf(input, ctx.messages)|
  }

  /** Messages only add lines at the end, so a line once planned for a step stays planned for it. */
  lemma {:induction false} PlanGrows(input: WriterInput, before: seq<Message>, after: seq<Message>)
    requires before <= after
    ensures PlanOf(input, before) <= PlanOf(input, after)
    decreases |after|
  {
    if before != after {
      PlanGrows(input, before, after[..|after| - 1]);
    }
  }

  /** What untrusted senders and tool results say never changes the plan. */
  lemma UntrustedIgnored(input: WriterInput, ms: seq<Message>, m: Message, more: seq<Message>)
    requires m.source != Operator || !m.trusted
    ensures PlanOf(input, ms + [m] + more) == PlanOf(input, ms + more)
  {
    InstructionsConcat(ms + [m], more);
    InstructionsConcat(ms, more);
    assert (ms + [m])[..|ms|] == ms;
  }

  lemma {:induction false} InstructionsConcat(a: seq<Message>, b: seq<Message>)
    ensures Instructions(a + b) == Instructions(a) + Instructions(b)
    decreases |b|
  {
    if b == [] {
      assert a + b == a;
    } else {
      assert (a + b)[..|a + b| - 1] == a + b[..|b| - 1];
      InstructionsConcat(a, b[..|b| - 1]);
    }
  }

  // ---- what the JSON says -----------------------------------------------------------------------

  /** A member holding this text; one that is absent or null holds the empty text. */
  predicate TextAt(m: map<string, Json>, k: string, t: string) {
    (k in m && m[k] == Str(t)) || ((k !in m || m[k] == Null) && t == "")
  }

  /** A list of texts, in which null stands for the empty one. */
  predicate TextsOf(items: seq<Json>, ts: seq<string>) {
    |items| == |ts| && forall i :: 0 <= i < |items| ==> items[i] == Str(ts[i]) || (items[i] == Null && ts[i] == "")
  }

  /** A member holding these texts; one that is absent or null holds none. */
  predicate TextsAt(m: map<string, Json>, k: string, ts: seq<string>) {
    || (k in m && m[k].Arr? && TextsOf(m[k].items, ts))
    || ((k !in m || m[k] == Null) && ts == [])
  }

  lemma {:induction false} StringsRead(items: seq<Json>, ts: seq<string>)
    ensures Strings(items) == Some(ts) <==> TextsOf(items, ts)
    decreases |items|
  {
    if items == [] {
    } else if ts == [] {
    } else {
      StringsRead(items[1..], ts[1..]);
      if Strings(items) == Some(ts) {
        assert forall i :: 0 < i < |items| ==> items[i] == items[1..][i - 1] && ts[i] == ts[1..][i - 1];
      }
      if TextsOf(items, ts) {
        assert TextsOf(items[1..], ts[1..]);
        assert [ts[0]] + ts[1..] == ts;
      }
    }
  }

  /** The goal's input is read from "file" and "lines" and nothing else; a file not named is out.txt. */
  lemma InputRead(m: map<string, Json>, file: string, lines: seq<string>)
    ensures DecodeInput(Obj(m)) == Some(WriterInput(file, lines)) <==>
            && TextsAt(m, "lines", lines)
            && ((file != "" && TextAt(m, "file", file)) || (file == "out.txt" && TextAt(m, "file", "")))
  {
    if "lines" in m && m["lines"].Arr? {
      StringsRead(m["lines"].items, lines);
    }
  }

  /** So is a call's argument from "file" and "line". */
  lemma ArgumentsRead(m: map<string, Json>, file: string, line: string)
    ensures DecodeArgs(Obj(m)) == Some((file, line)) <==> TextAt(m, "file", file) && TextAt(m, "line", line)
  {
  }

  /** The message tells the writer to append this text: trusted, the operator's, and with a text under "append". */
  predicate Tells(m: Message, t: string) {
    && m.source == Operator && m.trusted
    && m.body.Obj? && "append" in m.body.members && m.body.members["append"] == Str(t) && t != ""
  }

  /** Such a message adds its text to the plan, and no other message adds anything. */
  lemma OperatorIsObeyed(input: WriterInput, ms: seq<Message>, m: Message, t: string)
    ensures Tells(m, t) ==> PlanOf(input, ms + [m]) == PlanOf(input, ms) + [t]
    ensures (forall u: string :: !Tells(m, u)) ==> PlanOf(input, ms + [m]) == PlanOf(input, ms)
  {
    assert (ms + [m])[..|ms|] == ms;
    if Instruction(m) != [] {
      assert Tells(m, Instruction(m)[0]);
    }
  }

  /** Without messages the plan is the input's lines. */
  lemma PlanStarts(input: WriterInput)
    ensures PlanOf(input, []) == input.lines
  {
  }

  /** The agent asks for the planned line of the step it is at, finishes past the last, and is content with no less. */
  lemma WriterFollowsPlan(input: WriterInput, ctx: Context)
    ensures var lines := PlanOf(input, ctx.messages);
            && (ctx.step < |lines| ==>
                  WriterNext(input, ctx) ==
                  Invoke("fs.append", Obj(map["file" := Str(input.file), "line" := Str(lines[ctx.step])])))
            && (ctx.step >= |lines| <==> WriterNext(input, ctx) == Finish)
            && (WriterVerifies(input, ctx) <==> |ctx.history| >= |lines|)
  {
  }

  /** The file names refused: none, absolute ones, and those with two dots in a row anywhere. */
  lemma PathsRefused(file: string)
    ensures BadPath(file) <==>
            || file == ""
            || (exists rest: string :: file == "/" + rest)
            || (exists a: string, b: string :: file == a + ".." + b)
  {
    if file != "" && file[0] == '/' {
      assert file == "/" + file[1..];
    }
    if i :| 0 <= i < |file| - 1 && file[i] == '.' && file[i + 1] == '.' {
      assert file == file[..i] + ".." + file[i + 2..];
    }
    if a: string, b: string :| file == a + ".." + b {
      assert file[|a|] == '.' && file[|a| + 1] == '.';
    }
  }

  // ---- the tool ---------------------------------------------------------------------------------

  datatype Entry = Entry(key: string, line: string)

  function DecodeArgs(v: Json): Option<(string, string)> {
    match (StringField(v, "file"), StringField(v, "line"))
    case (Some(file), Some(line)) => Some((file, line))
    case _ => None
  }

  predicate BadPath(file: string) {
    file == "" || file[0] == '/' || exists i :: 0 <= i < |file| - 1 && file[i] == '.' && file[i + 1] == '.'
  }

  /** The arguments name a file the tool may write. */
  predicate Usable(v: Json) {
    DecodeArgs(v).Some? && !BadPath(DecodeArgs(v).value.0)
  }

  function Written(file: string, line: string): Option<Json> {
    Some(Obj(map["file" := Str(file), "written" := Str(line)]))
  }

  /** The tool's directory: the tagged lines of every file. */
  type Files = map<string, seq<Entry>>

  function LinesOf(files: Files, file: string): seq<Entry> { if file in files then files[file] else [] }

  predicate Tagged(lines: seq<Entry>, key: string) { exists i :: 0 <= i < |lines| && lines[i].key == key }

  /** What a call of the tool returns and leaves behind; `io` says whether the file system lets it write. */
  function Executed(files: Files, key: string, raw: Json, io: bool): (Outcome, Files) {
    match DecodeArgs(raw)
    case None => (Err("bad arguments"), files)
    case Some((file, line)) =>
      if BadPath(file) then (Err("bad file"), files)
      else if !io then (Err("io"), files)
      else (Ok(Written(file, line)), files[file := LinesOf(files, file) + [Entry(key, line)]])
  }

  /** What its probe answers. */
  function Probed(files: Files, key: string, raw: Json, io: bool): ProbeAnswer {
    match DecodeArgs(raw)
    case None => Broken
    case Some((file, line)) =>
      if BadPath(file) || !io then Broken
      else if Tagged(LinesOf(files, file), key) then Happened(Written(file, line))
      else Missing
  }

  class FileAppend {
    var files: Files

    constructor ()
      ensures files == map[]
    {
      files := map[];
    }

    /** Appends one tagged line, if the arguments are usable and the file system lets it; or writes nothing. */
    method Execute(key: string, raw: Json, io: bool) returns (o: Outcome)
      modifies this
      ensures o.Ok? <==> Usable(raw) && io
      ensures o.Ok? ==>
        var (file, line) := DecodeArgs(raw).value;
        && files == old(files)[file := LinesOf(old(files), file) + [Entry(key, line)]]
        && o.result == Some(Obj(map["file" := Str(file), "written" := Str(line)]))
      ensures o.Err? ==> files == old(files)
      ensures (o, files) == Executed(old(files), key, raw, io)
    {
      var a := DecodeArgs(raw);
      if a.None? {
        return Err("bad arguments");
      }
      var (file, line) := a.value;
      if BadPath(file) {
        return Err("bad file");
      }
      if !io {
        return Err("io");
      }
      files := files[file := LinesOf(files, file) + [Entry(key, line)]];
      return Ok(Written(file, line));
    }

    /** Scans the file for a line tagged with the key. */
    method Probe(key: string, raw: Json, io: bool) returns (answer: ProbeAnswer)
      ensures answer.Broken? <==> !Usable(raw) || !io
      ensures !answer.Broken? ==>
        var (file, line) := DecodeArgs(raw).value;
        && (answer.Happened? <==> Tagged(LinesOf(files, file), key))
        && (answer.Happened? ==> answer.result == Written(file, line))
      ensures answer == Probed(files, key, raw, io)
    {
      var a := DecodeArgs(raw);
      if a.None? || BadPath(a.value.0) || !io {
        return Broken;
      }
      var (file, line) := a.value;
      var lines := LinesOf(files, file);
      for i := 0 to |lines|
        invariant forall j :: 0 <= j < i ==> lines[j].key != key
      {
        if lines[i].key == key {
          return Happened(Written(file, line));
        }
      }
      return Missing;
    }
  }

  /** A planned line can be written exactly when the file's name is one the tool takes. */
  lemma LineUsable(file: string, line: string)
    ensures DecodeArgs(LineArgs(file, line)) == Some((file, line))
    ensures Usable(LineArgs(file, line)) <==> !BadPath(file)
  {
  }
}
