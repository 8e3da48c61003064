/**
 Canonical JSON: the executor's decoder and printer.

 A document is first split into tokens, which drops white space and decodes string escapes, and
 the tokens are then parsed. `Doc` is the syntax tree of a document: its objects list their
 members in the order written, duplicates included. `Json` is the decoded value, where an object
 is a finite map and the last of several equal keys has won.
*/
module Json {
  import opened Spelling
  import opened Text
  import opened Wrappers

  datatype Json =
    | Null
    | Bool(b: bool)
    | Num(lit: string)
    | Str(s: string)
    | Arr(items: seq<Json>)
    | Obj(members: map<string, Json>)

  datatype Member = Member(key: string, value: Doc)
  datatype Doc = Leaf(v: Json) | List(docs: seq<Doc>) | Record(members: seq<Member>)

  datatype Token = LBrace | RBrace | LBrack | RBrack | Comma | Colon | Atom(lex: string) | Quoted(str: string)

  datatype DecodeError = Syntax | Trailing

  // ---- characters -------------------------------------------------------------------------

  predicate IsSpace(c: char) { c == ' ' || c == '\t' || c == '\n' || c == '\r' }

  /** The characters trimmed before a document is found to be blank. */
  predicate IsBlankChar(c: char) {
    || '\t' <= c <= '\r' || c == ' ' || c == '\U{85}' || c == '\U{A0}' || c == '\U{1680}'
    || '\U{2000}' <= c <= '\U{200A}' || c == '\U{2028}' || c == '\U{2029}' || c == '\U{202F}'
    || c == '\U{205F}' || c == '\U{3000}'
  }

  predicate IsDigit(c: char) { '0' <= c <= '9' }

  /** The characters literals and numbers are made of. */
  predicate IsAtomChar(c: char) {
    IsDigit(c) || 'a' <= c <= 'z' || 'A' <= c <= 'Z' || c == '+' || c == '-' || c == '.'
  }

  // ---- numbers, kept as the literal written -----------------------------------------------

  function Digits(s: string): (n: nat)
    ensures n <= |s|
  {
    if s != "" && IsDigit(s[0]) then 1 + Digits(s[1..]) else 0
  }

  predicate IsExponent(s: string) {
    s == "" ||
    ((s[0] == 'e' || s[0] == 'E') &&
     var t := if |s| > 1 && (s[1] == '+' || s[1] == '-') then s[2..] else s[1..];
     t != "" && Digits(t) == |t|)
  }

  predicate IsFraction(s: string) {
    if s != "" && s[0] == '.'
    then var d := Digits(s[1..]); d >= 1 && IsExponent(s[1 + d..])
    else IsExponent(s)
  }

  predicate IsNumber(lit: string) {
    && (forall c :: c in lit ==> IsAtomChar(c))
    && var s := if lit != "" && lit[0] == '-' then lit[1..] else lit;
       var d := Digits(s);
       && d >= 1
       && (s[0] == '0' ==> d == 1)
       && IsFraction(s[d..])
  }

  // ---- strings ----------------------------------------------------------------------------

  function HexDigit(n: nat): (c: char)
    requires n < 16
  {
    if n < 10 then '0' + n as char else 'a' + (n - 10) as char
  }

  function HexValue(c: char): (n: int)
    ensures -1 <= n < 16
  {
    if '0' <= c <= '9' then c as int - '0' as int
    else if 'a' <= c <= 'f' then c as int - 'a' as int + 10
    else if 'A' <= c <= 'F' then c as int - 'A' as int + 10
    else -1
  }

  /**
   One character as the printer writes it between quotes: what must be escaped, and also what could be
   mistaken for markup or a line end.
  */
  function EscapeChar(c: char): (s: string) {
    if c == '"' || c == '\\' then ['\\', c]
    else if c == '\U{8}' then "\\b"
    else if c == '\U{C}' then "\\f"
    else if c == '\n' then "\\n"
    else if c == '\r' then "\\r"
    else if c == '\t' then "\\t"
    else if c < ' ' || c == '<' || c == '>' || c == '&' || c == '\U{2028}' || c == '\U{2029}' then HexEscape(c as int)
    else [c]
  }

  function HexEscape(n: nat): (s: string)
    requires n < 0x10000
  {
    ['\\', 'u', HexDigit(n / 0x1000), HexDigit(n / 0x100 % 0x10), HexDigit(n / 0x10 % 0x10), HexDigit(n % 0x10)]
  }

  function Escape(s: string): (r: string) {
    if s == "" then "" else EscapeChar(s[0]) + Escape(s[1..])
  }

  function ShortEscape(c: char): Option<char> {
    match c
    case '"' => Some('"')
    case '\\' => Some('\\')
    case '/' => Some('/')
    case 'b' => Some('\U{8}')
    case 'f' => Some('\U{C}')
    case 'n' => Some('\n')
    case 'r' => Some('\r')
    case 't' => Some('\t')
    case _ => None
  }

  /** The code unit of the `\uXXXX` a text starts with, if it does. */
  function CodeUnit(s: string): (n: Option<nat>)
    ensures n.Some? ==> |s| >= 6 && n.value < 0x10000
  {
    if |s| < 6 || s[0] != '\\' || s[1] != 'u' then None
    else
      var h, i, j, k := HexValue(s[2]), HexValue(s[3]), HexValue(s[4]), HexValue(s[5]);
      if h < 0 || i < 0 || j < 0 || k < 0 then None else Some(4096 * h + 256 * i + 16 * j + k)
  }

  predicate Surrogate(n: nat) { 0xD800 <= n < 0xE000 }

  /** The character of a high and a low surrogate. */
  function Joined(high: nat, low: Option<nat>): Option<char> {
    if 0xD800 <= high < 0xDC00 && low.Some? && 0xDC00 <= low.value < 0xE000
    then Some((0x10000 + 0x400 * (high - 0xD800) + (low.value - 0xDC00)) as char)
    else None
  }

  /** Reads a string whose opening quote is gone: its characters and what follows the closing quote. */
  function LexString(s: string): (r: Option<(string, string)>)
    ensures r.Some? ==> |r.value.1| < |s|
    decreases |s|, 1
  {
    if s == "" then None
    else if s[0] == '"' then Some(("", s[1..]))
    else if s[0] < ' ' then None
    else if s[0] != '\\' then Push(s[0], LexString(s[1..]))
    else if |s| < 2 then None
    else if s[1] == 'u' then LexUnicode(s)
    else
      match ShortEscape(s[1])
      case None => None
      case Some(c) => Push(c, LexString(s[2..]))
  }

  /** A pair of surrogate escapes is one character; a lone one becomes the replacement character. */
  function LexUnicode(s: string): (r: Option<(string, string)>)
    ensures r.Some? ==> |r.value.1| < |s|
    decreases |s|, 0
  {
    match CodeUnit(s)
    case None => None
    case Some(n) =>
      if !Surrogate(n) then Push(n as char, LexString(s[6..]))
      else
        match Joined(n, CodeUnit(s[6..]))
        case Some(c) => Push(c, LexString(s[12..]))
        case None => Push('\U{FFFD}', LexString(s[6..]))
  }

  function Push(c: char, r: Option<(string, string)>): Option<(string, string)> {
    match r
    case None => None
    case Some((t, rest)) => Some(([c] + t, rest))
  }

  // ---- tokens -----------------------------------------------------------------------------

  function Spell(t: Token): (s: string)
    ensures s != "" || (t.Atom? && t.lex == "")
  {
    match t
    case LBrace => "{"
    case RBrace => "}"
    case LBrack => "["
    case RBrack => "]"
    case Comma => ","
    case Colon => ":"
    case Atom(lex) => lex
    case Quoted(str) => "\"" + Escape(str) + "\""
  }

  function AtomLength(s: string): (n: nat)
    ensures n <= |s|
    ensures s != "" && IsAtomChar(s[0]) ==> n > 0
    ensures forall i :: 0 <= i < n ==> IsAtomChar(s[i])
  {
    if s != "" && IsAtomChar(s[0]) then 1 + AtomLength(s[1..]) else 0
  }

  function Punctuation(c: char): Option<Token> {
    match c
    case '{' => Some(LBrace)
    case '}' => Some(RBrace)
    case '[' => Some(LBrack)
    case ']' => Some(RBrack)
    case ',' => Some(Comma)
    case ':' => Some(Colon)
    case _ => None
  }

  function Lex(s: string): (r: Option<seq<Token>>)
    decreases |s|
  {
    if s == "" then Some([])
    else if IsSpace(s[0]) then Lex(s[1..])
    else if s[0] == '"' then
      match LexString(s[1..])
      case None => None
      case Some((str, rest)) => Cons(Quoted(str), Lex(rest))
    else if IsAtomChar(s[0]) then
      var n := AtomLength(s);
      Cons(Atom(s[..n]), Lex(s[n..]))
    else
      match Punctuation(s[0])
      case None => None
      case Some(t) => Cons(t, Lex(s[1..]))
  }

  function Cons(t: Token, r: Option<seq<Token>>): Option<seq<Token>> {
    match r
    case None => None
    case Some(ts) => Some([t] + ts)
  }

  // ---- values -----------------------------------------------------------------------------

  function ParseAtom(lex: string): Option<Json> {
    if lex == "null" then Some(Null)
    else if lex == "true" then Some(Bool(true))
    else if lex == "false" then Some(Bool(false))
    else if IsNumber(lex) then Some(Num(lex))
    else None
  }

  /** The value the tokens start with, and the tokens after it. */
  function ParseValue(ts: seq<Token>): (r: Option<(Json, seq<Token>)>)
    ensures r.Some? ==> |r.value.1| < |ts|
    decreases |ts|, 0
  {
    if ts == [] then None
    else
      match ts[0]
      case Atom(lex) => (match ParseAtom(lex) case None => None case Some(v) => Some((v, ts[1..])))
      case Quoted(str) => Some((Str(str), ts[1..]))
      case LBrack =>
        if |ts| > 1 && ts[1] == RBrack then Some((Arr([]), ts[2..]))
        else (match ParseItems(ts[1..]) case None => None case Some((vs, rest)) => Some((Arr(vs), rest)))
      case LBrace =>
        if |ts| > 1 && ts[1] == RBrace then Some((Obj(map[]), ts[2..]))
        else (match ParseMembers(ts[1..], map[]) case None => None case Some((m, rest)) => Some((Obj(m), rest)))
      case _ => None
  }

  /** One or more comma-separated values and the closing bracket. */
  function ParseItems(ts: seq<Token>): (r: Option<(seq<Json>, seq<Token>)>)
    ensures r.Some? ==> |r.value.1| < |ts|
    decreases |ts|, 1
  {
    match ParseValue(ts)
    case None => None
    case Some((v, rest)) =>
      if rest != [] && rest[0] == RBrack then Some(([v], rest[1..]))
      else if rest != [] && rest[0] == Comma then
        match ParseItems(rest[1..])
        case None => None
        case Some((vs, rest')) => Some(([v] + vs, rest'))
      else None
  }

  /** One or more comma-separated members and the closing brace; a repeated key overwrites. */
  function ParseMembers(ts: seq<Token>, acc: map<string, Json>): (r: Option<(map<string, Json>, seq<Token>)>)
    ensures r.Some? ==> |r.value.1| < |ts|
    decreases |ts|, 1
  {
    if |ts| < 3 || !ts[0].Quoted? || ts[1] != Colon then None
    else
      match ParseValue(ts[2..])
      case None => None
      case Some((v, rest)) =>
        var acc' := acc[ts[0].str := v];
        if rest != [] && rest[0] == RBrace then Some((acc', rest[1..]))
        else if rest != [] && rest[0] == Comma then ParseMembers(rest[1..], acc')
        else None
  }

  /** The decoder: one value, with nothing after it but white space; a blank document is null. */
  function Decode(raw: string): Result<Json, DecodeError> {
    if forall c :: c in raw ==> IsBlankChar(c) then Success(Null)
    else
      match Lex(raw)
      case None => Failure(Syntax)
      case Some(ts) =>
        match ParseValue(ts)
        case None => Failure(Syntax)
        case Some((v, rest)) => if rest == [] then Success(v) else Failure(Trailing)
  }

  // ---- documents and the values they denote -----------------------------------------------

  predicate WellFormed(v: Json) {
    match v
    case Num(lit) => IsNumber(lit)
    case Arr(items) => forall i :: 0 <= i < |items| ==> WellFormed(items[i])
    case Obj(m) => forall k :: k in m ==> WellFormed(m[k])
    case _ => true
  }

  predicate ValidDoc(d: Doc) {
    match d
    case Leaf(v) => WellFormed(v) && !v.Arr? && !v.Obj?
    case List(docs) => forall i :: 0 <= i < |docs| ==> ValidDoc(docs[i])
    case Record(ms) => forall i :: 0 <= i < |ms| ==> ValidDoc(ms[i].value)
  }

  function Denote(d: Doc): Json {
    match d
    case Leaf(v) => v
    case List(docs) => Arr(DenoteItems(docs))
    case Record(ms) => Obj(DenoteMembers(ms, map[]))
  }

  function DenoteItems(docs: seq<Doc>): (vs: seq<Json>) {
    if docs == [] then [] else [Denote(docs[0])] + DenoteItems(docs[1..])
  }

  function DenoteMembers(ms: seq<Member>, acc: map<string, Json>): map<string, Json> {
    if ms == [] then acc else DenoteMembers(ms[1..], acc[ms[0].key := Denote(ms[0].value)])
  }

  function Tokens(d: Doc): (ts: seq<Token>)
    ensures ts != [] && ts[0] != RBrack
  {
    match d
    case Leaf(v) => [LeafToken(v)]
    case List(docs) => [LBrack] + ItemTokens(docs) + [RBrack]
    case Record(ms) => [LBrace] + MemberTokens(ms) + [RBrace]
  }

  function LeafToken(v: Json): (t: Token)
    ensures t.Atom? || t.Quoted?
  {
    match v
    case Bool(b) => Atom(if b then "true" else "false")
    case Num(lit) => Atom(lit)
    case Str(s) => Quoted(s)
    case _ => Atom("null")
  }

  function ItemTokens(docs: seq<Doc>): (ts: seq<Token>)
    ensures docs != [] ==> ts != [] && ts[0] != RBrack
  {
    if docs == [] then []
    else if |docs| == 1 then Tokens(docs[0])
    else Tokens(docs[0]) + [Comma] + ItemTokens(docs[1..])
  }

  function MemberTokens(ms: seq<Member>): (ts: seq<Token>)
    ensures ms != [] ==> ts != [] && ts[0].Quoted?
  {
    if ms == [] then []
    else
      var first := [Quoted(ms[0].key), Colon] + Tokens(ms[0].value);
      if |ms| == 1 then first else first + [Comma] + MemberTokens(ms[1..])
  }

  /** The document the canonical printer writes for a value: members in increasing key order. */
  function CanonDoc(v: Json): Doc {
    match v
    case Arr(items) => List(seq(|items|, i requires 0 <= i < |items| => CanonDoc(items[i])))
    case Obj(m) =>
      var ks := SortedKeys(m.Keys);
      Record(seq(|ks|, i requires 0 <= i < |ks| => assert ks[i] in ks; Member(ks[i], CanonDoc(m[ks[i]]))))
    case _ => Leaf(v)
  }

  function Flatten(ts: seq<Token>): string {
    if ts == [] then "" else Spell(ts[0]) + Flatten(ts[1..])
  }

  /** Canonical text: no white space, keys sorted at every depth. */
  function Canon(v: Json): string { Flatten(Tokens(CanonDoc(v))) }

  function Canonical(raw: string): Result<string, DecodeError> {
    match Decode(raw)
    case Success(v) => Success(Canon(v))
    case Failure(e) => Failure(e)
  }

  /** `word` is a way to write the token: a string may be spelt in many ways, anything else in one. */
  ghost predicate SpeltAs(t: Token, word: string) {
    match t
    case LBrace => word == "{"
    case RBrace => word == "}"
    case LBrack => word == "["
    case RBrack => word == "]"
    case Comma => word == ","
    case Colon => word == ":"
    case Atom(lex) => word == lex
    case Quoted(str) =>
      exists ps: seq<Piece> :: ValidPieces(ps) && MeantAll(ps) == str && word == "\"" + WrittenAll(ps) + "\""
  }

  ghost predicate Spelt(ts: seq<Token>, words: seq<string>) {
    |words| == |ts| && forall i :: 0 <= i < |ts| ==> SpeltAs(ts[i], words[i])
  }

  /** Words laid out with any white space: `gaps[i]` comes before word i, the last gap ends the text. */
  function Render(gaps: seq<string>, words: seq<string>): string
    requires |gaps| == |words| + 1
  {
    if words == [] then gaps[0] else gaps[0] + words[0] + Render(gaps[1..], words[1..])
  }

  /** White space only, and at least one character of it between two literals or numbers. */
  predicate ValidGaps(gaps: seq<string>, ts: seq<Token>)
    requires |gaps| == |ts| + 1
  {
    && (forall i, c :: 0 <= i < |gaps| && c in gaps[i] ==> c in " \t\n\r")
    && (forall i :: 0 < i < |ts| && ts[i - 1].Atom? && ts[i].Atom? ==> gaps[i] != "")
  }

  /** The words of the tokens, in any spelling, laid out with any white space. */
  ghost predicate IsLayout(text: string, ts: seq<Token>, words: seq<string>, gaps: seq<string>) {
    && Spelt(ts, words) && |gaps| == |ts| + 1 && ValidGaps(gaps, ts)
    && text == Render(gaps, words)
  }

  predicate Spellable(t: Token) {
    t.Atom? ==> t.lex != "" && forall c :: c in t.lex ==> IsAtomChar(c)
  }

  // ---- the parser inverts the syntax tree -------------------------------------------------

  lemma ListJoins(docs: seq<Doc>, rest: seq<Token>)
    ensures Tokens(List(docs)) + rest == [LBrack] + (ItemTokens(docs) + ([RBrack] + rest))
  {
    hide ItemTokens;
  }

  lemma RecordJoins(ms: seq<Member>, rest: seq<Token>)
    ensures Tokens(Record(ms)) + rest == [LBrace] + (MemberTokens(ms) + ([RBrace] + rest))
  {
    hide MemberTokens;
  }

  lemma {:induction false} ParseTokens(d: Doc, rest: seq<Token>)
    requires ValidDoc(d)
    ensures ParseValue(Tokens(d) + rest) == Some((Denote(d), rest))
    decreases d
  {
    match d
    case Leaf(v) =>
      assert ([LeafToken(v)] + rest)[1..] == rest;
      ParseLeaf(v);
    case List(docs) =>
      ListJoins(docs, rest);
      if docs != [] {
        ParseItemTokens(d, docs, rest);
      }
      ParseList(docs, rest);
    case Record(ms) =>
      RecordJoins(ms, rest);
      if ms != [] {
        ParseMemberTokens(d, ms, map[], rest);
      }
      ParseRecord(ms, rest);
  }

  lemma ParseList(docs: seq<Doc>, rest: seq<Token>)
    requires docs != [] ==> ParseItems(ItemTokens(docs) + ([RBrack] + rest)) == Some((DenoteItems(docs), rest))
    ensures ParseValue([LBrack] + (ItemTokens(docs) + ([RBrack] + rest))) == Some((Arr(DenoteItems(docs)), rest))
  {
    hide ParseItems;
    var more := ItemTokens(docs) + ([RBrack] + rest);
    var ts := [LBrack] + more;
    assert ts[1..] == more;
    if docs == [] {
      assert more == [RBrack] + rest && ts[2..] == rest;
    } else {
      assert ts[1] == ItemTokens(docs)[0];
    }
  }

  lemma ParseRecord(ms: seq<Member>, rest: seq<Token>)
    requires ms != [] ==>
      ParseMembers(MemberTokens(ms) + ([RBrace] + rest), map[]) == Some((DenoteMembers(ms, map[]), rest))
    ensures ParseValue([LBrace] + (MemberTokens(ms) + ([RBrace] + rest)))
         == Some((Obj(DenoteMembers(ms, map[])), rest))
  {
    hide ParseMembers;
    var more := MemberTokens(ms) + ([RBrace] + rest);
    var ts := [LBrace] + more;
    assert ts[1..] == more;
    if ms == [] {
      assert more == [RBrace] + rest && ts[2..] == rest;
    } else {
      assert ts[1] == MemberTokens(ms)[0];
    }
  }

  lemma ParseLeaf(v: Json)
    requires WellFormed(v) && !v.Arr? && !v.Obj?
    ensures LeafToken(v).Atom? ==> ParseAtom(LeafToken(v).lex) == Some(v)
    ensures LeafToken(v).Quoted? ==> v == Str(LeafToken(v).str)
    ensures Spellable(LeafToken(v))
  {
    if v.Num? {
      var n := v.lit;
      assert n != "" && (IsDigit(n[0]) || n[0] == '-');
      assert "null"[0] == 'n' && "true"[0] == 't' && "false"[0] == 'f';
    }
  }

  lemma {:induction false} ParseItemTokens(d: Doc, docs: seq<Doc>, rest: seq<Token>)
    requires docs != [] && forall i :: 0 <= i < |docs| ==> docs[i] < d && ValidDoc(docs[i])
    ensures ParseItems(ItemTokens(docs) + ([RBrack] + rest)) == Some((DenoteItems(docs), rest))
    decreases d, |docs|
  {
    hide ParseItems, ParseValue, Tokens, Denote;
    var more := if |docs| == 1 then [RBrack] + rest else [Comma] + (ItemTokens(docs[1..]) + ([RBrack] + rest));
    assert ItemTokens(docs) + ([RBrack] + rest) == Tokens(docs[0]) + more;
    ParseTokens(docs[0], more);
    if |docs| > 1 {
      ParseItemTokens(d, docs[1..], rest);
      assert more[1..] == ItemTokens(docs[1..]) + ([RBrack] + rest);
    } else {
      assert more[1..] == rest && [Denote(docs[0])] + DenoteItems(docs[1..]) == [Denote(docs[0])];
    }
    ItemsStep(Tokens(docs[0]) + more, Denote(docs[0]), more);
  }

  lemma ItemsStep(ts: seq<Token>, v: Json, more: seq<Token>)
    requires ParseValue(ts) == Some((v, more)) && more != []
    ensures more[0] == RBrack ==> ParseItems(ts) == Some(([v], more[1..]))
    ensures more[0] == Comma && ParseItems(more[1..]).Some? ==>
      ParseItems(ts) == Some(([v] + ParseItems(more[1..]).value.0, ParseItems(more[1..]).value.1))
  {
  }

  lemma {:induction false} ParseMemberTokens(d: Doc, ms: seq<Member>, acc: map<string, Json>, rest: seq<Token>)
    requires ms != [] && forall i :: 0 <= i < |ms| ==> ms[i].value < d && ValidDoc(ms[i].value)
    ensures ParseMembers(MemberTokens(ms) + ([RBrace] + rest), acc) == Some((DenoteMembers(ms, acc), rest))
    decreases d, |ms|
  {
    hide ParseMembers, ParseValue, Tokens, Denote;
    var k, first := ms[0].key, ms[0].value;
    var more := if |ms| == 1 then [RBrace] + rest else [Comma] + (MemberTokens(ms[1..]) + ([RBrace] + rest));
    assert MemberTokens(ms) + ([RBrace] + rest) == [Quoted(k), Colon] + (Tokens(first) + more);
    ParseTokens(first, more);
    if |ms| > 1 {
      ParseMemberTokens(d, ms[1..], acc[k := Denote(first)], rest);
    }
    MembersStep(k, Tokens(first) + more, Denote(first), more, acc);
  }

  lemma MembersStep(k: string, ts: seq<Token>, v: Json, more: seq<Token>, acc: map<string, Json>)
    requires ParseValue(ts) == Some((v, more)) && ts != [] && more != []
    ensures more[0] == RBrace ==> ParseMembers([Quoted(k), Colon] + ts, acc) == Some((acc[k := v], more[1..]))
    ensures more[0] == Comma ==> ParseMembers([Quoted(k), Colon] + ts, acc) == ParseMembers(more[1..], acc[k := v])
  {
    assert ([Quoted(k), Colon] + ts)[2..] == ts;
  }

  // ---- the lexer inverts spelling under any white space -------------------------------------

  lemma HexDigitRead(c: char, v: nat)
    requires IsDigitOf(c, v)
    ensures HexValue(c) == v
  {
  }

  lemma HexSum(n: nat)
    requires n < 0x10000
    ensures 4096 * (n / 0x1000) + 256 * (n / 0x100 % 0x10) + 16 * (n / 0x10 % 0x10) + n % 0x10 == n
  {
    assert n / 0x100 / 0x10 == n / 0x1000 && n / 0x10 / 0x10 == n / 0x100;
  }

  lemma EscapeParts(hex: string, rest: string)
    requires |hex| == 4
    ensures var text := "\\u" + hex + rest;
            && |text| == 6 + |rest| && text[0] == '\\' && text[1] == 'u' && text[6..] == rest
            && text[2] == hex[0] && text[3] == hex[1] && text[4] == hex[2] && text[5] == hex[3]
  {
  }

  lemma HexRead(hex: string, n: nat, rest: string)
    requires IsHex(hex, n)
    ensures CodeUnit("\\u" + hex + rest) == Some(n)
  {
    hide IsDigitOf, HexValue;
    EscapeParts(hex, rest);
    HexSum(n);
    HexDigitRead(hex[0], n / 0x1000);
    HexDigitRead(hex[1], n / 0x100 % 0x10);
    HexDigitRead(hex[2], n / 0x10 % 0x10);
    HexDigitRead(hex[3], n % 0x10);
  }

  /** The unit that the rest of a spelt string starts with is a low surrogate only if its first piece is one. */
  lemma NextUnit(ps: seq<Piece>, rest: string)
    requires ps != [] ==> ValidPiece(ps[0])
    ensures var u := CodeUnit(WrittenAll(ps) + "\"" + rest);
            u.Some? && 0xDC00 <= u.value < 0xE000 ==> ps != [] && ps[0].Lone? && ps[0].n == u.value
  {
    var text := WrittenAll(ps) + "\"" + rest;
    if ps == [] {
      assert text[0] == '"';
    } else {
      var more := WrittenAll(ps[1..]) + "\"" + rest;
      assert text == Written(ps[0]) + more;
      hide CodeUnit, WrittenAll, IsHex;
      PieceUnit(ps[0], more);
    }
  }

  lemma PieceUnit(p: Piece, more: string)
    requires ValidPiece(p)
    ensures var u := CodeUnit(Written(p) + more);
            u.Some? && 0xDC00 <= u.value < 0xE000 ==> p.Lone? && p.n == u.value
  {
    hide IsHex, CodeUnit;
    match p
    case Unit(n, hex) => HexRead(hex, n, more);
    case Lone(n, hex) => HexRead(hex, n, more);
    case Pair(c, high, low) =>
      HexRead(high, High(c), "\\u" + low + more);
      assert Written(p) + more == "\\u" + high + ("\\u" + low + more);
    case Short(letter) => NoUnit(p, more);
    case Raw(c) => NoUnit(p, more);
  }

  lemma NoUnit(p: Piece, more: string)
    requires ValidPiece(p) && (p.Raw? || p.Short?)
    ensures CodeUnit(Written(p) + more).None?
  {
    var text := Written(p) + more;
    if p.Raw? {
      assert text[0] == p.c;
    } else {
      assert text[1] == p.letter;
      ShortRead(p.letter);
    }
  }

  lemma PairJoined(c: char)
    requires c as int >= 0x10000
    ensures Joined(High(c), Some(Low(c))) == Some(c)
  {
  }

  lemma LexUnit(n: nat, hex: string, rest: string)
    requires IsHex(hex, n)
    ensures LexString("\\u" + hex + rest) == LexUnicode("\\u" + hex + rest)
    ensures CodeUnit("\\u" + hex + rest) == Some(n) && ("\\u" + hex + rest)[6..] == rest
  {
    EscapeParts(hex, rest);
    hide CodeUnit, IsHex, LexUnicode;
    HexRead(hex, n, rest);
  }

  /** A unit that is no surrogate, or half of no pair. */
  lemma LexSingle(n: nat, hex: string, rest: string)
    requires IsHex(hex, n)
    requires 0xD800 <= n < 0xDC00 ==> CodeUnit(rest).None? || !(0xDC00 <= CodeUnit(rest).value < 0xE000)
    ensures LexString("\\u" + hex + rest)
         == Push(if Surrogate(n) then REPLACEMENT else n as char, LexString(rest))
  {
    LexUnit(n, hex, rest);
    hide CodeUnit, IsHex, LexString;
  }

  lemma LexPair(c: char, high: string, low: string, rest: string)
    requires c as int >= 0x10000 && IsHex(high, High(c)) && IsHex(low, Low(c))
    ensures LexString("\\u" + high + ("\\u" + low + rest)) == Push(c, LexString(rest))
  {
    var more := "\\u" + low + rest;
    var text := "\\u" + high + more;
    LexUnit(High(c), high, more);
    LexUnit(Low(c), low, rest);
    PairJoined(c);
    assert text[12..] == text[6..][6..];
    hide CodeUnit, IsHex, LexString, Joined;
  }

  lemma LexPiece(p: Piece, rest: string)
    requires ValidPiece(p)
    requires p.Lone? && p.n < 0xDC00 ==> CodeUnit(rest).None? || !(0xDC00 <= CodeUnit(rest).value < 0xE000)
    ensures LexString(Written(p) + rest) == Push(Meant(p), LexString(rest))
  {
    hide LexString, CodeUnit, IsHex, SHORT;
    match p
    case Raw(c) => LexRaw(c, rest);
    case Short(letter) => LexShort(letter, rest);
    case Unit(n, hex) => LexSingle(n, hex, rest);
    case Lone(n, hex) => LexSingle(n, hex, rest);
    case Pair(c, high, low) =>
      LexPair(c, high, low, rest);
      assert Written(p) + rest == "\\u" + high + ("\\u" + low + rest);
  }

  lemma LexRaw(c: char, rest: string)
    requires ValidPiece(Raw(c))
    ensures LexString([c] + rest) == Push(c, LexString(rest))
  {
    assert ([c] + rest)[0] == c && ([c] + rest)[1..] == rest;
  }

  lemma LexShort(letter: char, rest: string)
    requires letter in SHORT
    ensures LexString(['\\', letter] + rest) == Push(SHORT[letter] as char, LexString(rest))
  {
    var text := ['\\', letter] + rest;
    assert text[0] == '\\' && text[1] == letter && text[2..] == rest;
    ShortRead(letter);
    hide ShortEscape;
  }

  lemma ShortRead(letter: char)
    requires letter in SHORT
    ensures letter != 'u' && ShortEscape(letter) == Some(SHORT[letter] as char)
  {
  }

  /** After half a pair comes no other half. */
  lemma AfterLone(ps: seq<Piece>, rest: string)
    requires ValidPieces(ps) && ps != [] && ps[0].Lone? && ps[0].n < 0xDC00
    ensures var u := CodeUnit(WrittenAll(ps[1..]) + "\"" + rest); u.None? || !(0xDC00 <= u.value < 0xE000)
  {
    hide CodeUnit, WrittenAll, IsHex;
    if |ps| > 1 {
      assert !Joins(ps[0], ps[1]) && ValidPiece(ps[1]) && ps[1..][0] == ps[1];
    }
    NextUnit(ps[1..], rest);
  }

  lemma TailPieces(ps: seq<Piece>)
    requires ValidPieces(ps) && ps != []
    ensures ValidPiece(ps[0]) && ValidPieces(ps[1..])
  {
    hide ValidPiece, Joins;
    assert forall i :: 0 <= i < |ps| - 1 ==> ps[1..][i] == ps[i + 1];
  }

  lemma WrittenFirst(ps: seq<Piece>, end: string)
    requires ps != []
    ensures WrittenAll(ps) + end == Written(ps[0]) + (WrittenAll(ps[1..]) + end)
  {
  }

  lemma PieceThen(ps: seq<Piece>, rest: string)
    requires ValidPieces(ps) && ps != []
    ensures LexString(WrittenAll(ps) + ("\"" + rest))
         == Push(Meant(ps[0]), LexString(WrittenAll(ps[1..]) + ("\"" + rest)))
  {
    hide LexString, CodeUnit, Written, WrittenAll, ValidPiece;
    TailPieces(ps);
    var more := WrittenAll(ps[1..]) + ("\"" + rest);
    if ps[0].Lone? && ps[0].n < 0xDC00 {
      AfterLone(ps, rest);
      assert more == WrittenAll(ps[1..]) + "\"" + rest;
    }
    LexPiece(ps[0], more);
    WrittenFirst(ps, "\"" + rest);
  }

  /** However a string is written, the decoder reads what it stands for. */
  lemma {:induction false} LexPieces(ps: seq<Piece>, rest: string)
    requires ValidPieces(ps)
    ensures LexString(WrittenAll(ps) + ("\"" + rest)) == Some((MeantAll(ps), rest))
  {
    if ps == [] {
      assert WrittenAll(ps) + ("\"" + rest) == "\"" + rest;
    } else {
      hide LexString, WrittenAll, ValidPiece;
      TailPieces(ps);
      LexPieces(ps[1..], rest);
      PieceThen(ps, rest);
    }
  }

  // ---- the printer's own spelling -----------------------------------------------------------

  function PieceOf(c: char): (p: Piece)
  {
    if c == '"' || c == '\\' then Short(c)
    else if c == '\U{8}' then Short('b')
    else if c == '\U{C}' then Short('f')
    else if c == '\n' then Short('n')
    else if c == '\r' then Short('r')
    else if c == '\t' then Short('t')
    else if c < ' ' || c == '<' || c == '>' || c == '&' || c == '\U{2028}' || c == '\U{2029}'
    then Unit(c as int, HexEscape(c as int)[2..])
    else Raw(c)
  }

  lemma HexWritten(n: nat)
    requires n < 0x10000
    ensures IsHex(HexEscape(n)[2..], n) && "\\u" + HexEscape(n)[2..] == HexEscape(n)
  {
  }

  lemma PieceWritten(c: char)
    ensures ValidPiece(PieceOf(c)) && Meant(PieceOf(c)) == c && Written(PieceOf(c)) == EscapeChar(c)
    ensures !PieceOf(c).Lone?
  {
    if PieceOf(c).Unit? {
      HexWritten(c as int);
    }
  }

  lemma {:induction false} EscapeSpells(s: string) returns (ps: seq<Piece>)
    ensures Spells(ps, s, Escape(s))
    ensures forall i :: 0 <= i < |ps| ==> !ps[i].Lone?
  {
    ps := [];
    if s != "" {
      var more := EscapeSpells(s[1..]);
      PieceWritten(s[0]);
      ps := [PieceOf(s[0])] + more;
      assert ps[1..] == more && [s[0]] + s[1..] == s;
    }
  }

  lemma SpellSpelt(t: Token)
    ensures SpeltAs(t, Spell(t))
  {
    if t.Quoted? {
      var ps := EscapeSpells(t.str);
    }
  }

  lemma {:induction false} AtomEnds(lex: string, rest: string)
    requires forall c :: c in lex ==> IsAtomChar(c)
    requires rest == "" || !IsAtomChar(rest[0])
    ensures AtomLength(lex + rest) == |lex|
  {
    if lex == "" {
      assert lex + rest == rest;
    } else {
      assert (lex + rest)[1..] == lex[1..] + rest;
      assert forall c :: c in lex[1..] ==> c in lex;
      AtomEnds(lex[1..], rest);
    }
  }

  lemma LexWord(t: Token, word: string, rest: string)
    requires SpeltAs(t, word) && Spellable(t)
    requires t.Atom? ==> rest == "" || !IsAtomChar(rest[0])
    ensures Lex(word + rest) == Cons(t, Lex(rest))
  {
    match t
    case Atom(lex) => LexAtom(lex, rest);
    case Quoted(str) =>
      var ps :| ValidPieces(ps) && MeantAll(ps) == str && word == "\"" + WrittenAll(ps) + "\"";
      LexQuoted(ps, rest);
    case _ => LexPunctuation(word[0], rest);
  }

  lemma LexAtom(lex: string, rest: string)
    requires Spellable(Atom(lex)) && (rest == "" || !IsAtomChar(rest[0]))
    ensures Lex(lex + rest) == Cons(Atom(lex), Lex(rest))
  {
    var s := lex + rest;
    AtomEnds(lex, rest);
    assert lex[0] in lex && s[0] == lex[0] && s[..|lex|] == lex && s[|lex|..] == rest;
  }

  lemma LexQuoted(ps: seq<Piece>, rest: string)
    requires ValidPieces(ps)
    ensures Lex("\"" + WrittenAll(ps) + "\"" + rest) == Cons(Quoted(MeantAll(ps)), Lex(rest))
  {
    var s := "\"" + WrittenAll(ps) + "\"" + rest;
    hide LexString, WrittenAll, MeantAll, ValidPieces;
    LexPieces(ps, rest);
    assert s[0] == '"' && s[1..] == WrittenAll(ps) + ("\"" + rest);
  }

  lemma LexPunctuation(c: char, rest: string)
    requires Punctuation(c).Some?
    ensures Lex([c] + rest) == Cons(Punctuation(c).value, Lex(rest))
  {
    var s := [c] + rest;
    assert s[0] == c && s[1..] == rest;
    assert !IsSpace(c) && c != '"' && !IsAtomChar(c);
  }

  lemma {:induction false} LexGap(gap: string, rest: string)
    requires forall c :: c in gap ==> IsSpace(c)
    ensures Lex(gap + rest) == Lex(rest)
  {
    if gap == "" {
      assert gap + rest == rest;
    } else {
      assert (gap + rest)[1..] == gap[1..] + rest;
      assert gap[0] in gap && forall c :: c in gap[1..] ==> c in gap;
      LexGap(gap[1..], rest);
    }
  }

  lemma {:induction false} LexRender(gaps: seq<string>, words: seq<string>, ts: seq<Token>)
    requires Spelt(ts, words) && |gaps| == |ts| + 1 && ValidGaps(gaps, ts)
    requires forall t :: t in ts ==> Spellable(t)
    ensures Lex(Render(gaps, words)) == Some(ts)
  {
    assert Lex("") == Some([]);
    hide Lex, SpeltAs, Spellable;
    forall c | c in gaps[0] ensures IsSpace(c) {
      SpaceChar(c);
    }
    if ts == [] {
      LexGap(gaps[0], "");
      assert gaps[0] + "" == gaps[0];
    } else {
      var rest := Render(gaps[1..], words[1..]);
      TailsValid(gaps, words, ts);
      LexRender(gaps[1..], words[1..], ts[1..]);
      AfterAtom(gaps, words, ts);
      LexWord(ts[0], words[0], rest);
      LexGap(gaps[0], words[0] + rest);
      assert gaps[0] + words[0] + rest == gaps[0] + (words[0] + rest);
      assert [ts[0]] + ts[1..] == ts;
    }
  }

  lemma SpaceChar(c: char)
    requires c in " \t\n\r"
    ensures IsSpace(c)
  {
  }

  lemma TailsValid(gaps: seq<string>, words: seq<string>, ts: seq<Token>)
    requires Spelt(ts, words) && |gaps| == |ts| + 1 && ValidGaps(gaps, ts) && ts != []
    ensures Spelt(ts[1..], words[1..]) && ValidGaps(gaps[1..], ts[1..])
  {
    hide SpeltAs;
    forall i, c | 0 <= i < |gaps[1..]| && c in gaps[1..][i] ensures c in " \t\n\r" {
      assert gaps[1..][i] == gaps[i + 1];
    }
  }

  /** What a word starts with. */
  lemma WordStarts(t: Token, word: string)
    requires SpeltAs(t, word) && Spellable(t)
    ensures word != ""
    ensures t.Atom? <==> IsAtomChar(word[0])
    ensures IsAtomChar(word[0]) || Punctuation(word[0]).Some? || word[0] == '"'
  {
    if t.Atom? {
      assert t.lex[0] in t.lex;
    }
  }

  /** Whatever follows a literal or number starts with a character that cannot extend it. */
  lemma AfterAtom(gaps: seq<string>, words: seq<string>, ts: seq<Token>)
    requires Spelt(ts, words) && |gaps| == |ts| + 1 && ValidGaps(gaps, ts) && ts != []
    requires forall t :: t in ts ==> Spellable(t)
    ensures var rest := Render(gaps[1..], words[1..]);
            ts[0].Atom? ==> rest == "" || !IsAtomChar(rest[0])
  {
    hide SpeltAs, Spellable;
    var rest := Render(gaps[1..], words[1..]);
    assert gaps[1..][0] == gaps[1];
    if ts[0].Atom? && rest != "" {
      if gaps[1] != "" {
        assert rest[0] == gaps[1][0];
        assert gaps[1][0] in gaps[1];
        SpaceChar(gaps[1][0]);
      } else {
        assert |ts| > 1 && !ts[1].Atom?;
        WordStarts(ts[1], words[1]);
        assert rest[0] == words[1][0];
      }
    }
  }

  // ---- token lists of documents -----------------------------------------------------------

  /** Every token can be spelt and no two literals or numbers touch. */
  predicate Separated(ts: seq<Token>) {
    && (forall t :: t in ts ==> Spellable(t))
    && (forall i :: 0 < i < |ts| ==> !(ts[i - 1].Atom? && ts[i].Atom?))
  }

  lemma {:induction false} TokensSeparated(d: Doc)
    requires ValidDoc(d)
    ensures Separated(Tokens(d))
    decreases d
  {
    match d
    case Leaf(v) => ParseLeaf(v);
    case List(docs) => ItemsSeparated(d, docs);
    case Record(ms) => MembersSeparated(d, ms);
  }

  lemma {:induction false} ItemsSeparated(d: Doc, docs: seq<Doc>)
    requires forall i :: 0 <= i < |docs| ==> docs[i] < d && ValidDoc(docs[i])
    ensures Separated(ItemTokens(docs))
    decreases d, |docs|
  {
    if docs != [] {
      TokensSeparated(docs[0]);
      ItemsSeparated(d, docs[1..]);
    }
  }

  lemma {:induction false} MembersSeparated(d: Doc, ms: seq<Member>)
    requires forall i :: 0 <= i < |ms| ==> ms[i].value < d && ValidDoc(ms[i].value)
    ensures Separated(MemberTokens(ms))
    decreases d, |ms|
  {
    if ms != [] {
      TokensSeparated(ms[0].value);
      MembersSeparated(d, ms[1..]);
    }
  }

  lemma {:induction false} DenoteWellFormed(d: Doc)
    requires ValidDoc(d)
    ensures WellFormed(Denote(d))
    decreases d
  {
    match d
    case Leaf(v) =>
    case List(docs) => DenoteItemsWellFormed(d, docs);
    case Record(ms) => DenoteMembersWellFormed(d, ms, map[]);
  }

  lemma {:induction false} DenoteItemsWellFormed(d: Doc, docs: seq<Doc>)
    requires forall i :: 0 <= i < |docs| ==> docs[i] < d && ValidDoc(docs[i])
    ensures WellFormed(Arr(DenoteItems(docs)))
    decreases d, |docs|
  {
    if docs != [] {
      DenoteWellFormed(docs[0]);
      DenoteItemsWellFormed(d, docs[1..]);
    }
  }

  lemma {:induction false} DenoteMembersWellFormed(d: Doc, ms: seq<Member>, acc: map<string, Json>)
    requires forall i :: 0 <= i < |ms| ==> ms[i].value < d && ValidDoc(ms[i].value)
    requires WellFormed(Obj(acc))
    ensures WellFormed(Obj(DenoteMembers(ms, acc)))
    decreases d, |ms|
  {
    if ms != [] {
      DenoteWellFormed(ms[0].value);
      DenoteMembersWellFormed(d, ms[1..], acc[ms[0].key := Denote(ms[0].value)]);
    }
  }

  // ---- the canonical document denotes its value -----------------------------------------------

  lemma {:induction false} CanonDocDenotes(v: Json)
    requires WellFormed(v)
    ensures ValidDoc(CanonDoc(v)) && Denote(CanonDoc(v)) == v
    decreases v
  {
    match v
    case Arr(items) =>
      forall i | 0 <= i < |items| ensures ValidDoc(CanonDoc(items[i])) && Denote(CanonDoc(items[i])) == items[i] {
        CanonDocDenotes(items[i]);
      }
      DenoteItemsPointwise(CanonDoc(v).docs, items);
    case Obj(m) =>
      forall k | k in m ensures ValidDoc(CanonDoc(m[k])) && Denote(CanonDoc(m[k])) == m[k] {
        CanonDocDenotes(m[k]);
      }
      var ks := SortedKeys(m.Keys);
      CanonMembersDenote(CanonDoc(v).members, ks, m);
    case _ =>
  }

  lemma CanonMembersDenote(ms: seq<Member>, ks: seq<string>, m: map<string, Json>)
    requires |ms| == |ks| && forall k :: k in m <==> k in ks
    requires forall i :: 0 <= i < |ms| ==> ks[i] in m && ms[i].key == ks[i] && Denote(ms[i].value) == m[ks[i]]
    ensures DenoteMembers(ms, map[]) == m
  {
    DenoteMembersPointwise(ms, m, map[]);
    var r := DenoteMembers(ms, map[]);
    forall k | k in m ensures k in r {
      var i :| 0 <= i < |ks| && ks[i] == k;
      assert ms[i].key in r;
    }
  }

  lemma {:induction false} DenoteItemsPointwise(docs: seq<Doc>, vs: seq<Json>)
    requires |docs| == |vs| && forall i :: 0 <= i < |docs| ==> Denote(docs[i]) == vs[i]
    ensures DenoteItems(docs) == vs
  {
    if docs != [] {
      DenoteItemsPointwise(docs[1..], vs[1..]);
    }
  }

  /** Members that agree with `m` overwrite exactly their own keys. */
  lemma {:induction false} DenoteMembersPointwise(ms: seq<Member>, m: map<string, Json>, acc: map<string, Json>)
    requires forall i :: 0 <= i < |ms| ==> ms[i].key in m && Denote(ms[i].value) == m[ms[i].key]
    ensures var r := DenoteMembers(ms, acc);
            && (forall i :: 0 <= i < |ms| ==> ms[i].key in r)
            && (forall k :: k in r ==> k in acc || k in m)
            && (forall k :: k in r ==> (k in m && r[k] == m[k]) || (k in acc && r[k] == acc[k]))
            && (forall k :: k in acc ==> k in r)
            && (forall k :: k in m && k in r && (k in acc ==> acc[k] == m[k]) ==> r[k] == m[k])
  {
    if ms != [] {
      var k := ms[0].key;
      var acc' := acc[k := Denote(ms[0].value)];
      DenoteMembersPointwise(ms[1..], m, acc');
      assert forall i :: 0 < i < |ms| ==> ms[i] == ms[1..][i - 1];
      assert k in acc';
    }
  }

  // ---- the theorems ---------------------------------------------------------------------------

  /**
   Decoding gives the value a document denotes, whatever white space it is laid out with and however its
   strings are written; what it forgets besides is the order of members and the duplicates overwritten.
  */
  lemma DecodeDocument(text: string, d: Doc, words: seq<string>, gaps: seq<string>)
    requires ValidDoc(d) && IsLayout(text, Tokens(d), words, gaps)
    ensures Decode(text) == Success(Denote(d))
  {
    hide Decode, SpeltAs;
    TokensSeparated(d);
    RenderNotBlank(gaps, words, Tokens(d));
    LexRender(gaps, words, Tokens(d));
    ParseTokens(d, []);
    assert Tokens(d) + [] == Tokens(d);
    Decoded(text);
  }

  /** Anything but white space after the value is refused rather than ignored. */
  lemma TrailingDataRefused(text: string, d: Doc, extra: seq<Token>, words: seq<string>, gaps: seq<string>)
    requires ValidDoc(d) && extra != [] && forall t :: t in extra ==> Spellable(t)
    requires IsLayout(text, Tokens(d) + extra, words, gaps)
    ensures Decode(text) == Failure(Trailing)
  {
    hide Decode, SpeltAs;
    TokensSeparated(d);
    RenderNotBlank(gaps, words, Tokens(d) + extra);
    LexRender(gaps, words, Tokens(d) + extra);
    ParseTokens(d, extra);
    Decoded(text);
  }

  lemma Decoded(text: string)
    requires Lex(text).Some? && ParseValue(Lex(text).value).Some? && exists c :: c in text && !IsBlankChar(c)
    ensures var (v, rest) := ParseValue(Lex(text).value).value;
            Decode(text) == if rest == [] then Success(v) else Failure(Trailing)
  {
  }

  lemma TokenStartNotBlank(c: char)
    requires IsAtomChar(c) || Punctuation(c).Some? || c == '"'
    ensures !IsBlankChar(c)
  {
    assert c <= '~';
  }

  lemma RenderNotBlank(gaps: seq<string>, words: seq<string>, ts: seq<Token>)
    requires Spelt(ts, words) && |gaps| == |ts| + 1 && ts != [] && Spellable(ts[0])
    ensures exists c :: c in Render(gaps, words) && !IsBlankChar(c)
  {
    hide SpeltAs, Spellable;
    WordStarts(ts[0], words[0]);
    var c := words[0][0];
    TokenStartNotBlank(c);
    assert Render(gaps, words)[|gaps[0]|] == c;
  }

  /** The canonical layout: no white space, every token spelt the printer's way. */
  function Words(ts: seq<Token>): (words: seq<string>)
    ensures |words| == |ts|
  {
    if ts == [] then [] else [Spell(ts[0])] + Words(ts[1..])
  }

  lemma {:induction false} RenderTight(ts: seq<Token>)
    ensures Render(seq(|ts| + 1, i => ""), Words(ts)) == Flatten(ts)
    ensures Spelt(ts, Words(ts))
  {
    hide SpeltAs, Spell;
    if ts != [] {
      RenderTight(ts[1..]);
      SpellSpelt(ts[0]);
      assert seq(|ts| + 1, i => "")[1..] == seq(|ts[1..]| + 1, i => "");
      assert Words(ts)[1..] == Words(ts[1..]);
    }
  }

  /** The canonical text of a value decodes to that value, so distinct values print differently. */
  lemma CanonDecodes(v: Json)
    requires WellFormed(v)
    ensures Decode(Canon(v)) == Success(v)
  {
    var d := CanonDoc(v);
    var gaps := seq(|Tokens(d)| + 1, i => "");
    CanonDocDenotes(v);
    TokensSeparated(d);
    RenderTight(Tokens(d));
    DecodeDocument(Canon(v), d, Words(Tokens(d)), gaps);
  }

  lemma CanonInjective(v: Json, w: Json)
    requires WellFormed(v) && WellFormed(w) && Canon(v) == Canon(w)
    ensures v == w
  {
    CanonDecodes(v);
    CanonDecodes(w);
  }

  lemma DecodedWellFormed(raw: string)
    ensures Decode(raw).Success? ==> WellFormed(Decode(raw).value)
  {
    if exists c :: c in raw && !IsBlankChar(c) {
      if Lex(raw).Some? {
        ParsedWellFormed(Lex(raw).value);
      }
    }
  }

  lemma {:induction false} ParsedWellFormed(ts: seq<Token>)
    ensures ParseValue(ts).Some? ==> WellFormed(ParseValue(ts).value.0)
    decreases |ts|, 0
  {
    if ts != [] && ts[0] == LBrack {
      ParsedItemsWellFormed(ts[1..]);
    } else if ts != [] && ts[0] == LBrace {
      ParsedMembersWellFormed(ts[1..], map[]);
    }
  }

  lemma {:induction false} ParsedItemsWellFormed(ts: seq<Token>)
    ensures ParseItems(ts).Some? ==> WellFormed(Arr(ParseItems(ts).value.0))
    decreases |ts|, 1
  {
    ParsedWellFormed(ts);
    if ParseValue(ts).Some? {
      var rest := ParseValue(ts).value.1;
      if rest != [] {
        ParsedItemsWellFormed(rest[1..]);
      }
    }
  }

  lemma {:induction false} ParsedMembersWellFormed(ts: seq<Token>, acc: map<string, Json>)
    requires WellFormed(Obj(acc))
    ensures ParseMembers(ts, acc).Some? ==> WellFormed(Obj(ParseMembers(ts, acc).value.0))
    decreases |ts|, 1
  {
    if |ts| >= 3 && ts[0].Quoted? && ts[1] == Colon {
      ParsedWellFormed(ts[2..]);
      if ParseValue(ts[2..]).Some? {
        var (v, rest) := ParseValue(ts[2..]).value;
        if rest != [] {
          ParsedMembersWellFormed(rest[1..], acc[ts[0].str := v]);
        }
      }
    }
  }

  /** Canonicalising keeps the value and is idempotent. */
  lemma CanonicalRoundTrip(raw: string)
    requires Canonical(raw).Success?
    ensures Decode(Canonical(raw).value) == Decode(raw)
    ensures Canonical(Canonical(raw).value) == Canonical(raw)
  {
    DecodedWellFormed(raw);
    CanonDecodes(Decode(raw).value);
  }

  /** Two documents have one canonical form exactly when they decode to one value. */
  lemma SameCanonical(a: string, b: string)
    requires Canonical(a).Success? && Canonical(b).Success?
    ensures Canonical(a) == Canonical(b) <==> Decode(a) == Decode(b)
  {
    CanonicalRoundTrip(a);
    CanonicalRoundTrip(b);
  }

  /** `text` is the document `d`, its strings written in some way and laid out with some white space. */
  ghost predicate Writes(text: string, d: Doc) {
    ValidDoc(d) && exists words: seq<string>, gaps: seq<string> :: IsLayout(text, Tokens(d), words, gaps)
  }

  /** The same for documents written in any way, with any member order and duplicate keys, at any depth. */
  lemma LayoutsAgree(a: string, d1: Doc, b: string, d2: Doc)
    requires Writes(a, d1) && Writes(b, d2)
    ensures Canonical(a).Success? && Canonical(b).Success?
    ensures Canonical(a) == Canonical(b) <==> Denote(d1) == Denote(d2)
  {
    WrittenDecodes(a, d1);
    WrittenDecodes(b, d2);
    SameCanonical(a, b);
  }

  lemma WrittenDecodes(text: string, d: Doc)
    requires Writes(text, d)
    ensures Decode(text) == Success(Denote(d))
  {
    var words, gaps :| IsLayout(text, Tokens(d), words, gaps);
    DecodeDocument(text, d, words, gaps);
  }

  lemma {:induction false} EscapeHasNoNewline(s: string)
    ensures '\n' !in Escape(s)
  {
    if s != "" {
      EscapeHasNoNewline(s[1..]);
    }
  }

  lemma {:induction false} FlattenHasNoNewline(ts: seq<Token>)
    requires forall t :: t in ts ==> Spellable(t)
    ensures '\n' !in Flatten(ts)
  {
    if ts != [] {
      FlattenHasNoNewline(ts[1..]);
      assert Spellable(ts[0]) && !IsAtomChar('\n');
      if ts[0].Quoted? {
        EscapeHasNoNewline(ts[0].str);
      }
    }
  }

  lemma CanonHasNoNewline(v: Json)
    requires WellFormed(v)
    ensures '\n' !in Canon(v)
  {
    CanonDocDenotes(v);
    TokensSeparated(CanonDoc(v));
    FlattenHasNoNewline(Tokens(CanonDoc(v)));
  }

  // ---- the printer as it is written: appends to a buffer in loops -----------------------------

  lemma {:induction false} FlattenConcat(a: seq<Token>, b: seq<Token>)
    ensures Flatten(a + b) == Flatten(a) + Flatten(b)
  {
    if a == [] {
      assert a + b == b;
    } else {
      assert (a + b)[1..] == a[1..] + b;
      FlattenConcat(a[1..], b);
    }
  }

  lemma {:induction false} ItemTokensSnoc(docs: seq<Doc>, d: Doc)
    ensures ItemTokens(docs + [d]) == (if docs == [] then [] else ItemTokens(docs) + [Comma]) + Tokens(d)
  {
    if docs == [] {
      assert docs + [d] == [d];
    } else {
      assert (docs + [d])[1..] == docs[1..] + [d] && (docs + [d])[0] == docs[0];
      ItemTokensSnoc(docs[1..], d);
    }
  }

  lemma {:induction false} MemberTokensSnoc(ms: seq<Member>, m: Member)
    ensures MemberTokens(ms + [m])
         == (if ms == [] then [] else MemberTokens(ms) + [Comma]) + ([Quoted(m.key), Colon] + Tokens(m.value))
  {
    if ms == [] {
      assert ms + [m] == [m];
    } else {
      assert (ms + [m])[1..] == ms[1..] + [m] && (ms + [m])[0] == ms[0];
      MemberTokensSnoc(ms[1..], m);
    }
  }

  lemma NoItems()
    ensures ItemTokens([]) == [] && MemberTokens([]) == []
  {
  }

  lemma ItemAppended(docs: seq<Doc>, i: nat)
    requires i < |docs|
    ensures [LBrack] + ItemTokens(docs[..i + 1])
         == [LBrack] + ItemTokens(docs[..i]) + (if i > 0 then [Comma] else []) + Tokens(docs[i])
  {
    hide Tokens, ItemTokens;
    assert docs[..i] + [docs[i]] == docs[..i + 1];
    assert i == 0 ==> docs[..i] == [];
    NoItems();
    ItemTokensSnoc(docs[..i], docs[i]);
  }

  lemma MemberAppended(ms: seq<Member>, i: nat)
    requires i < |ms|
    ensures [LBrace] + MemberTokens(ms[..i + 1])
         == [LBrace] + MemberTokens(ms[..i]) + (if i > 0 then [Comma] else [])
            + ([Quoted(ms[i].key), Colon] + Tokens(ms[i].value))
  {
    hide Tokens, MemberTokens;
    assert ms[..i] + [ms[i]] == ms[..i + 1];
    assert i == 0 ==> ms[..i] == [];
    NoItems();
    MemberTokensSnoc(ms[..i], ms[i]);
  }

  lemma FlattenAppend(start: string, toks: seq<Token>, more: seq<Token>)
    ensures start + Flatten(toks + more) == start + Flatten(toks) + Flatten(more)
    ensures |more| == 1 ==> Flatten(more) == Spell(more[0])
  {
    FlattenConcat(toks, more);
  }

  class Buffer {
    var data: string

    constructor ()
      ensures data == ""
    {
      data := "";
    }

    method Write(s: string)
      modifies this
      ensures data == old(data) + s
    {
      data := data + s;
    }
  }

  method WriteCanon(b: Buffer, v: Json)
    modifies b
    ensures b.data == old(b.data) + Canon(v)
    decreases v, 2
  {
    match v {
      case Arr(items) => WriteArray(b, items);
      case Obj(m) => WriteObject(b, m);
      case _ =>
        FlattenAppend(b.data, [], [LeafToken(v)]);
        b.Write(Spell(LeafToken(v)));
    }
  }

  method WriteArray(b: Buffer, items: seq<Json>)
    modifies b
    ensures b.data == old(b.data) + Canon(Arr(items))
    decreases Arr(items), 0
  {
    ghost var start, docs, toks := b.data, CanonDoc(Arr(items)).docs, [];
    toks := WriteToken(b, start, toks, LBrack);
    for i := 0 to |items|
      invariant b.data == start + Flatten(toks) && toks == [LBrack] + ItemTokens(docs[..i])
    {
      ItemAppended(docs, i);
      toks := WriteSeparator(b, start, toks, i);
      toks := WriteValue(b, start, toks, items[i]);
    }
    assert docs[..|items|] == docs;
    toks := WriteToken(b, start, toks, RBrack);
  }

  method WriteObject(b: Buffer, m: map<string, Json>)
    modifies b
    ensures b.data == old(b.data) + Canon(Obj(m))
    decreases Obj(m), 1
  {
    var keys := SortedKeys(m.Keys);
    ghost var ms := CanonDoc(Obj(m)).members;
    assert forall i :: 0 <= i < |keys| ==> keys[i] in keys;
    ghost var toks := WriteMembers(b, m, keys, ms);
    toks := WriteToken(b, old(b.data), toks, RBrace);
  }

  method WriteMembers(b: Buffer, m: map<string, Json>, keys: seq<string>, ghost ms: seq<Member>)
    returns (ghost toks: seq<Token>)
    requires |ms| == |keys|
    requires forall i :: 0 <= i < |keys| ==> keys[i] in m && ms[i] == Member(keys[i], CanonDoc(m[keys[i]]))
    modifies b
    ensures b.data == old(b.data) + Flatten(toks) && toks == [LBrace] + MemberTokens(ms)
    decreases Obj(m), 0
  {
    ghost var start := b.data;
    toks := WriteToken(b, start, [], LBrace);
    for i := 0 to |keys|
      invariant b.data == start + Flatten(toks) && toks == [LBrace] + MemberTokens(ms[..i])
    {
      MemberAppended(ms, i);
      toks := WriteSeparator(b, start, toks, i);
      toks := WriteMember(b, start, toks, keys[i], m[keys[i]]);
    }
    assert ms[..|keys|] == ms;
  }

  method WriteValue(b: Buffer, ghost start: string, ghost toks: seq<Token>, v: Json) returns (ghost toks': seq<Token>)
    requires b.data == start + Flatten(toks)
    modifies b
    ensures b.data == start + Flatten(toks') && toks' == toks + Tokens(CanonDoc(v))
    decreases v, 3
  {
    FlattenAppend(start, toks, Tokens(CanonDoc(v)));
    WriteCanon(b, v);
    toks' := toks + Tokens(CanonDoc(v));
  }

  method WriteMember(b: Buffer, ghost start: string, ghost toks: seq<Token>, k: string, v: Json)
    returns (ghost toks': seq<Token>)
    requires b.data == start + Flatten(toks)
    modifies b
    ensures b.data == start + Flatten(toks') && toks' == toks + ([Quoted(k), Colon] + Tokens(CanonDoc(v)))
    decreases v, 4
  {
    toks' := WriteToken(b, start, toks, Quoted(k));
    toks' := WriteToken(b, start, toks', Colon);
    toks' := WriteValue(b, start, toks', v);
  }

  /** A comma before every item but the first. */
  method WriteSeparator(b: Buffer, ghost start: string, ghost toks: seq<Token>, i: nat)
    returns (ghost toks': seq<Token>)
    requires b.data == start + Flatten(toks)
    modifies b
    ensures b.data == start + Flatten(toks') && toks' == toks + (if i > 0 then [Comma] else [])
  {
    toks' := toks;
    if i > 0 {
      toks' := WriteToken(b, start, toks, Comma);
    }
  }

  /** Appends one token; the ghost list records what the buffer spells since `start`. */
  method WriteToken(b: Buffer, ghost start: string, ghost toks: seq<Token>, t: Token) returns (ghost toks': seq<Token>)
    requires b.data == start + Flatten(toks)
    modifies b
    ensures b.data == start + Flatten(toks') && toks' == toks + [t]
  {
    FlattenAppend(start, toks, [t]);
    b.Write(Spell(t));
    toks' := toks + [t];
  }
}
