/**
 What the decoder accepts and what the printer writes, without reference to either: a text decodes
 exactly if it is blank or lays out a document of RFC 8259, and canonical text is fixed member by member.
*/
module Grammar {
  import opened Json
  import opened Spelling
  import opened Text
  import opened Wrappers

  // ---- numbers: section 6 of RFC 8259 ---------------------------------------------------------

  predicate AllDigits(s: string) { s != "" && forall c :: c in s ==> '0' <= c <= '9' }

  predicate IsInteger(s: string) { AllDigits(s) && (s[0] == '0' ==> s == "0") }

  predicate IsFractional(s: string) { s == "" || (s[0] == '.' && AllDigits(s[1..])) }

  predicate IsExponential(s: string) {
    s == "" ||
    ((s[0] == 'e' || s[0] == 'E') &&
     (AllDigits(s[1..]) || (|s| > 1 && (s[1] == '+' || s[1] == '-') && AllDigits(s[2..]))))
  }

  predicate HasParts(lit: string, sign: string, whole: string, frac: string, exp: string) {
    && lit == sign + whole + frac + exp && (sign == "" || sign == "-")
    && IsInteger(whole) && IsFractional(frac) && IsExponential(exp)
  }

  lemma {:induction false} DigitsSplit(s: string)
    ensures var d := Digits(s);
            && (forall c :: c in s[..d] ==> '0' <= c <= '9')
            && (d < |s| ==> !IsDigit(s[d]))
  {
    if s != "" && IsDigit(s[0]) {
      DigitsSplit(s[1..]);
      assert s[..Digits(s)] == [s[0]] + s[1..][..Digits(s[1..])];
    }
  }

  lemma {:induction false} DigitsOf(a: string, b: string)
    requires forall c :: c in a ==> '0' <= c <= '9'
    requires b == "" || !IsDigit(b[0])
    ensures Digits(a + b) == |a|
  {
    if a == "" {
      assert a + b == b;
    } else {
      assert a[0] in a && (a + b)[0] == a[0] && (a + b)[1..] == a[1..] + b;
      assert forall c :: c in a[1..] ==> c in a;
      DigitsOf(a[1..], b);
    }
  }

  lemma AllDigitsRead(s: string)
    ensures AllDigits(s) <==> s != "" && Digits(s) == |s|
  {
    DigitsSplit(s);
    assert s[..|s|] == s;
    if AllDigits(s) {
      DigitsOf(s, "");
      assert s + "" == s;
    }
  }

  lemma ExponentRead(s: string)
    ensures IsExponent(s) <==> IsExponential(s)
  {
    if s != "" {
      AllDigitsRead(s[1..]);
      if |s| > 1 {
        AllDigitsRead(s[2..]);
        assert s[1] in s[1..];
      }
    }
  }

  lemma FractionRead(s: string)
    ensures IsFraction(s) ==>
      exists frac: string, exp: string :: s == frac + exp && IsFractional(frac) && IsExponential(exp)
  {
    if IsFraction(s) {
      if s != "" && s[0] == '.' {
        var d := Digits(s[1..]);
        DigitsSplit(s[1..]);
        ExponentRead(s[1 + d..]);
        assert s == s[..1 + d] + s[1 + d..] && s[..1 + d][1..] == s[1..][..d];
        assert IsFractional(s[..1 + d]);
      } else {
        ExponentRead(s);
        assert s == "" + s && IsFractional("");
      }
    }
  }

  lemma FractionAccepted(frac: string, exp: string)
    requires IsFractional(frac) && IsExponential(exp)
    ensures IsFraction(frac + exp)
  {
    ExponentRead(exp);
    if frac == "" {
      assert frac + exp == exp;
    } else {
      DigitsOf(frac[1..], exp);
      assert (frac + exp)[1..] == frac[1..] + exp;
      assert (frac + exp)[|frac|..] == exp;
    }
  }

  /** The integer a number starts with, after its sign. */
  lemma IntegerRead(s: string)
    requires Digits(s) >= 1 && (s[0] == '0' ==> Digits(s) == 1)
    ensures IsInteger(s[..Digits(s)])
  {
    DigitsSplit(s);
    assert s[..Digits(s)][0] == s[0];
  }

  /** A number is an integer and what follows it, after a sign perhaps. */
  lemma NumberSplit(lit: string) returns (s: string)
    requires IsNumber(lit)
    ensures (lit == s || lit == "-" + s) && Digits(s) >= 1 && (s[0] == '0' ==> Digits(s) == 1)
    ensures IsFraction(s[Digits(s)..])
  {
    hide Digits, IsFraction;
    s := if lit[0] == '-' then lit[1..] else lit;
    assert lit == [lit[0]] + lit[1..];
  }

  lemma PartsRead(lit: string)
    requires IsNumber(lit)
    ensures exists sign, whole, frac, exp :: HasParts(lit, sign, whole, frac, exp)
  {
    hide IsNumber, Digits, IsFraction, IsInteger, IsFractional, IsExponential, HasParts;
    var s := NumberSplit(lit);
    var d := Digits(s);
    IntegerRead(s);
    FractionRead(s[d..]);
    var frac, exp :| s[d..] == frac + exp && IsFractional(frac) && IsExponential(exp);
    PartsFound(lit, s, s[..d], s[d..], frac, exp);
  }

  lemma PartsFound(lit: string, s: string, whole: string, rest: string, frac: string, exp: string)
    requires s == whole + rest && rest == frac + exp && (lit == s || lit == "-" + s)
    requires IsInteger(whole) && IsFractional(frac) && IsExponential(exp)
    ensures exists sign, w, f, e :: HasParts(lit, sign, w, f, e)
  {
    hide IsInteger, IsFractional, IsExponential;
    assert s == whole + frac + exp;
    if lit == s {
      assert lit == "" + whole + frac + exp;
      assert HasParts(lit, "", whole, frac, exp);
    } else {
      assert lit == "-" + whole + frac + exp;
      assert HasParts(lit, "-", whole, frac, exp);
    }
  }

  lemma PartsAtoms(lit: string, sign: string, whole: string, frac: string, exp: string)
    requires HasParts(lit, sign, whole, frac, exp)
    ensures forall c :: c in lit ==> IsAtomChar(c)
  {
    assert frac != "" ==> frac == [frac[0]] + frac[1..];
    assert exp != "" ==> exp == [exp[0]] + exp[1..];
    assert |exp| > 1 ==> exp[1..] == [exp[1]] + exp[2..];
  }

  lemma PartsAccepted(lit: string, sign: string, whole: string, frac: string, exp: string)
    requires HasParts(lit, sign, whole, frac, exp)
    ensures IsNumber(lit)
  {
    PartsAtoms(lit, sign, whole, frac, exp);
    var s := whole + (frac + exp);
    assert lit == sign + s;
    assert s[0] == whole[0] && whole[0] in whole;
    DigitsOf(whole, frac + exp);
    FractionAccepted(frac, exp);
    assert s[|whole|..] == frac + exp;
    assert (if lit[0] == '-' then lit[1..] else lit) == s;
  }

  /** The literals kept as numbers are exactly those of the grammar: sign, integer, fraction and exponent. */
  lemma NumberGrammar(lit: string)
    ensures IsNumber(lit) <==> exists sign, whole, frac, exp :: HasParts(lit, sign, whole, frac, exp)
  {
    hide IsNumber, HasParts;
    if IsNumber(lit) {
      PartsRead(lit);
    }
    if sign, whole, frac, exp :| HasParts(lit, sign, whole, frac, exp) {
      PartsAccepted(lit, sign, whole, frac, exp);
    }
  }

  // ---- what a document denotes ----------------------------------------------------------------

  /** A list denotes its items in order. */
  lemma {:induction false} ItemsInOrder(docs: seq<Doc>)
    ensures |DenoteItems(docs)| == |docs| && forall i :: 0 <= i < |docs| ==> DenoteItems(docs)[i] == Denote(docs[i])
  {
    if docs != [] {
      ItemsInOrder(docs[1..]);
    }
  }

  predicate LastOf(ms: seq<Member>, i: nat, k: string) {
    i < |ms| && ms[i].key == k && forall j :: i < j < |ms| ==> ms[j].key != k
  }

  /** An object denotes a value for exactly the keys written, and the last one written for each. */
  lemma LastWins(ms: seq<Member>, k: string)
    ensures var m := DenoteMembers(ms, map[]);
            && (k in m <==> exists i :: 0 <= i < |ms| && ms[i].key == k)
            && (forall i: nat :: LastOf(ms, i, k) ==> k in m && m[k] == Denote(ms[i].value))
  {
    LastWinsOver(ms, map[], k);
    forall i: nat | LastOf(ms, i, k)
      ensures k in DenoteMembers(ms, map[]) && DenoteMembers(ms, map[])[k] == Denote(ms[i].value)
    {
      LastStays(ms, map[], k, i);
    }
  }

  lemma {:induction false} LastWinsOver(ms: seq<Member>, acc: map<string, Json>, k: string)
    ensures var m := DenoteMembers(ms, acc);
            && (k in m <==> k in acc || exists i :: 0 <= i < |ms| && ms[i].key == k)
            && ((forall i :: 0 <= i < |ms| ==> ms[i].key != k) && k in acc ==> m[k] == acc[k])
  {
    if ms != [] {
      LastWinsOver(ms[1..], acc[ms[0].key := Denote(ms[0].value)], k);
      assert forall i :: 0 < i < |ms| ==> ms[i] == ms[1..][i - 1];
    }
  }

  lemma {:induction false} LastStays(ms: seq<Member>, acc: map<string, Json>, k: string, i: nat)
    requires LastOf(ms, i, k)
    ensures var m := DenoteMembers(ms, acc); k in m && m[k] == Denote(ms[i].value)
  {
    var acc' := acc[ms[0].key := Denote(ms[0].value)];
    assert forall j :: 0 < j < |ms| ==> ms[j] == ms[1..][j - 1];
    if i == 0 {
      LastWinsOver(ms[1..], acc', k);
    } else {
      assert LastOf(ms[1..], i - 1, k);
      LastStays(ms[1..], acc', k, i - 1);
    }
  }

  // ---- what the decoder accepts is a document -------------------------------------------------

  lemma DigitWritten(c: char)
    requires HexValue(c) >= 0
    ensures IsDigitOf(c, HexValue(c))
  {
  }

  lemma HexDigits(h: nat, i: nat, j: nat, k: nat)
    requires h < 16 && i < 16 && j < 16 && k < 16
    ensures var n := 4096 * h + 256 * i + 16 * j + k;
            n < 0x10000 && n / 0x1000 == h && n / 0x100 % 0x10 == i && n / 0x10 % 0x10 == j && n % 0x10 == k
  {
    var n := 4096 * h + 256 * i + 16 * j + k;
    assert n / 0x10 == 256 * h + 16 * i + j;
    assert n / 0x100 == 16 * h + i;
  }

  lemma UnitSplit(s: string)
    requires |s| >= 6 && s[0] == '\\' && s[1] == 'u'
    ensures s == "\\u" + s[2..6] + s[6..] && |s[2..6]| == 4
    ensures s[2..6][0] == s[2] && s[2..6][1] == s[3] && s[2..6][2] == s[4] && s[2..6][3] == s[5]
  {
    assert s == [s[0], s[1]] + s[2..6] + s[6..];
  }

  lemma UnitValue(s: string)
    requires CodeUnit(s).Some?
    ensures |s| >= 6 && s[0] == '\\' && s[1] == 'u'
    ensures HexValue(s[2]) >= 0 && HexValue(s[3]) >= 0 && HexValue(s[4]) >= 0 && HexValue(s[5]) >= 0
    ensures CodeUnit(s).value
         == 4096 * HexValue(s[2]) + 256 * HexValue(s[3]) + 16 * HexValue(s[4]) + HexValue(s[5])
  {
    hide HexValue;
  }

  lemma HexSpelt(hex: string, h: nat, i: nat, j: nat, k: nat)
    requires |hex| == 4
    requires IsDigitOf(hex[0], h) && IsDigitOf(hex[1], i) && IsDigitOf(hex[2], j) && IsDigitOf(hex[3], k)
    ensures IsHex(hex, 4096 * h + 256 * i + 16 * j + k)
  {
    assert h < 16 && i < 16 && j < 16 && k < 16;
    hide IsDigitOf;
    HexDigits(h, i, j, k);
  }

  lemma HexWrote(s: string)
    requires CodeUnit(s).Some?
    ensures IsHex(s[2..6], CodeUnit(s).value) && s == "\\u" + s[2..6] + s[6..]
  {
    hide CodeUnit, HexValue, IsDigitOf, IsHex;
    UnitValue(s);
    UnitSplit(s);
    DigitWritten(s[2]);
    DigitWritten(s[3]);
    DigitWritten(s[4]);
    DigitWritten(s[5]);
    HexSpelt(s[2..6], HexValue(s[2]), HexValue(s[3]), HexValue(s[4]), HexValue(s[5]));
  }

  lemma ShortWrote(letter: char)
    ensures letter in SHORT <==> ShortEscape(letter).Some?
    ensures letter in SHORT ==> ShortEscape(letter) == Some(SHORT[letter] as char)
  {
  }

  lemma PairWrote(n: nat, m: nat)
    requires Joined(n, Some(m)).Some?
    ensures var c := Joined(n, Some(m)).value; c as int >= 0x10000 && High(c) == n && Low(c) == m
  {
  }

  /** The pieces `more` with one before them. */
  lemma Prepend(p: Piece, more: seq<Piece>, end: string)
    requires ValidPiece(p) && ValidPieces(more) && (more != [] ==> !Joins(p, more[0]))
    ensures ValidPieces([p] + more) && MeantAll([p] + more) == [Meant(p)] + MeantAll(more)
    ensures WrittenAll([p] + more) + end == Written(p) + (WrittenAll(more) + end)
  {
    hide ValidPiece, Joins, Written;
    var ps := [p] + more;
    assert ps[1..] == more;
    assert forall i :: 0 < i < |ps| ==> ps[i] == more[i - 1];
    forall i | 0 < i < |ps| ensures !Joins(ps[i - 1], ps[i]) {
      if i > 1 {
        assert !Joins(more[i - 2], more[i - 1]);
      }
    }
  }

  /** The piece a string goes on with, and the text after it. */
  predicate Starts(s: string, p: Piece, rest: string) {
    && ValidPiece(p) && s == Written(p) + rest && |rest| < |s|
    && LexString(s) == Push(Meant(p), LexString(rest))
    && (p.Lone? && p.n < 0xDC00 ==> CodeUnit(rest).None? || !(0xDC00 <= CodeUnit(rest).value < 0xE000))
  }

  lemma FirstPiece(s: string) returns (p: Piece, rest: string)
    requires LexString(s).Some? && s[0] != '"'
    ensures Starts(s, p, rest)
  {
    if s[0] != '\\' {
      p, rest := Raw(s[0]), s[1..];
    } else if s[1] == 'u' {
      p, rest := FirstUnit(s);
    } else {
      p, rest := Short(s[1]), s[2..];
      ShortWrote(s[1]);
      assert s == ['\\', s[1]] + rest;
    }
  }

  lemma FirstUnit(s: string) returns (p: Piece, rest: string)
    requires LexString(s).Some? && |s| > 1 && s[0] == '\\' && s[1] == 'u'
    ensures Starts(s, p, rest)
  {
    assert LexString(s) == LexUnicode(s);
    HexWrote(s);
    var n := CodeUnit(s).value;
    hide LexString, CodeUnit, IsHex;
    rest := s[6..];
    if !Surrogate(n) {
      p := Unit(n, s[2..6]);
    } else if Joined(n, CodeUnit(rest)).None? {
      p := Lone(n, s[2..6]);
    } else {
      HexWrote(rest);
      PairWrote(n, CodeUnit(rest).value);
      p := Pair(Joined(n, CodeUnit(rest)).value, s[2..6], rest[2..6]);
      assert s[12..] == rest[6..];
      rest := s[12..];
      UnitsSplit(s[2..6], s[6..][2..6], s, rest);
    }
  }

  lemma UnitsSplit(high: string, low: string, s: string, rest: string)
    requires s == "\\u" + high + ("\\u" + low + rest)
    ensures s == "\\u" + high + "\\u" + low + rest
  {
  }

  /** Every string the decoder reads is written in one of the ways allowed. */
  lemma {:induction false} StringRead(s: string) returns (ps: seq<Piece>)
    requires LexString(s).Some?
    ensures ValidPieces(ps) && MeantAll(ps) == LexString(s).value.0
    ensures s == WrittenAll(ps) + ("\"" + LexString(s).value.1)
    decreases |s|
  {
    if s[0] == '"' {
      ps := [];
    } else {
      var p, rest := FirstPiece(s);
      var end := "\"" + LexString(rest).value.1;
      hide LexString, ValidPiece, Written, ValidPieces, WrittenAll, MeantAll;
      var more := StringRead(rest);
      NotJoined(p, more, rest, end);
      Prepend(p, more, end);
      ps := [p] + more;
    }
  }

  lemma NotJoined(p: Piece, more: seq<Piece>, rest: string, end: string)
    requires p.Lone? && p.n < 0xDC00 ==> CodeUnit(rest).None? || !(0xDC00 <= CodeUnit(rest).value < 0xE000)
    requires ValidPieces(more) && rest == WrittenAll(more) + end
    ensures more != [] ==> !Joins(p, more[0])
  {
    hide CodeUnit, IsHex;
    if more != [] && Joins(p, more[0]) {
      WrittenFirst(more, end);
      HexRead(more[0].hex, more[0].n, WrittenAll(more[1..]) + end);
    }
  }

  lemma {:induction false} AtomMaximal(s: string)
    ensures AtomLength(s) < |s| ==> !IsAtomChar(s[AtomLength(s)])
  {
    if s != "" && IsAtomChar(s[0]) {
      AtomMaximal(s[1..]);
    }
  }

  /** One more word in front of a layout. */
  lemma LayoutGrows(t: Token, word: string, rest: string, ts: seq<Token>, words: seq<string>, gaps: seq<string>)
    requires SpeltAs(t, word) && IsLayout(rest, ts, words, gaps)
    requires t.Atom? && ts != [] && ts[0].Atom? ==> gaps[0] != ""
    ensures IsLayout(word + rest, [t] + ts, [word] + words, [""] + gaps)
  {
    hide SpeltAs;
    assert ([word] + words)[1..] == words && ([""] + gaps)[1..] == gaps;
    assert "" + word + rest == word + rest;
  }

  /** More white space in front of a layout. */
  lemma GapGrows(c: char, rest: string, ts: seq<Token>, words: seq<string>, gaps: seq<string>)
    requires c in " \t\n\r" && IsLayout(rest, ts, words, gaps)
    ensures IsLayout([c] + rest, ts, words, gaps[0 := [c] + gaps[0]])
  {
    hide SpeltAs;
    var gaps' := gaps[0 := [c] + gaps[0]];
    assert gaps'[1..] == gaps[1..];
    if ts == [] {
      assert Render(gaps', words) == [c] + gaps[0];
    } else {
      assert Render(gaps', words) == [c] + gaps[0] + words[0] + Render(gaps[1..], words[1..]);
    }
  }

  predicate AllSpellable(ts: seq<Token>) { forall i :: 0 <= i < |ts| ==> Spellable(ts[i]) }

  /** The token a text goes on with, how it is written, and the text after it. */
  ghost predicate Leads(s: string, t: Token, word: string, rest: string) {
    && SpeltAs(t, word) && Spellable(t) && s == word + rest && |rest| < |s|
    && Lex(s) == Cons(t, Lex(rest))
    && (t.Atom? ==> rest == "" || !IsAtomChar(rest[0]))
  }

  lemma FirstWord(s: string) returns (t: Token, word: string, rest: string)
    requires Lex(s).Some? && s != "" && !IsSpace(s[0])
    ensures Leads(s, t, word, rest)
  {
    if s[0] == '"' {
      t, word, rest := FirstQuoted(s);
    } else if IsAtomChar(s[0]) {
      var n := AtomLength(s);
      AtomMaximal(s);
      t, word, rest := Atom(s[..n]), s[..n], s[n..];
    } else {
      t, word, rest := Punctuation(s[0]).value, [s[0]], s[1..];
    }
  }

  lemma FirstQuoted(s: string) returns (t: Token, word: string, rest: string)
    requires Lex(s).Some? && s != "" && s[0] == '"'
    ensures Leads(s, t, word, rest)
  {
    assert LexString(s[1..]).Some?;
    rest := LexString(s[1..]).value.1;
    t := Quoted(LexString(s[1..]).value.0);
    assert Lex(s) == Cons(t, Lex(rest));
    hide Lex, LexString;
    var ps := StringRead(s[1..]);
    word := "\"" + WrittenAll(ps) + "\"";
    QuotedSplit(s, WrittenAll(ps), rest);
  }

  lemma QuotedSplit(s: string, inner: string, rest: string)
    requires s != "" && s[0] == '"' && s[1..] == inner + ("\"" + rest)
    ensures s == "\"" + inner + "\"" + rest
  {
    assert s == [s[0]] + s[1..];
  }

  /** Every text that splits into tokens is a layout of them. */
  lemma {:induction false} TokensRead(s: string) returns (words: seq<string>, gaps: seq<string>)
    requires Lex(s).Some?
    ensures IsLayout(s, Lex(s).value, words, gaps) && AllSpellable(Lex(s).value)
    decreases |s|
  {
    if s == "" {
      words, gaps := [], [""];
    } else if IsSpace(s[0]) {
      words, gaps := TokensRead(s[1..]);
      hide IsLayout, Lex;
      assert s == [s[0]] + s[1..];
      assert Lex(s) == Lex(s[1..]) by { SpaceSkipped(s); }
      GapGrows(s[0], s[1..], Lex(s).value, words, gaps);
      gaps := gaps[0 := [s[0]] + gaps[0]];
    } else {
      var t, word, rest := FirstWord(s);
      hide Lex, SpeltAs, Spellable;
      words, gaps := TokensRead(rest);
      var ts := Lex(rest).value;
      Apart(t, rest, ts, words, gaps);
      LayoutGrows(t, word, rest, ts, words, gaps);
      words, gaps := [word] + words, [""] + gaps;
    }
  }

  lemma SpaceSkipped(s: string)
    requires s != "" && IsSpace(s[0])
    ensures Lex(s) == Lex(s[1..])
  {
  }

  /** Two literals or numbers have white space between them. */
  lemma Apart(t: Token, rest: string, ts: seq<Token>, words: seq<string>, gaps: seq<string>)
    requires IsLayout(rest, ts, words, gaps) && AllSpellable(ts)
    requires t.Atom? ==> rest == "" || !IsAtomChar(rest[0])
    ensures t.Atom? && ts != [] && ts[0].Atom? ==> gaps[0] != ""
  {
    hide SpeltAs, Spellable;
    if ts != [] && ts[0].Atom? && gaps[0] == "" {
      WordStarts(ts[0], words[0]);
      assert rest[0] == words[0][0];
    }
  }

  // ---- tokens that parse are those of a document ------------------------------------------------

  lemma {:induction false} ValueRead(ts: seq<Token>) returns (d: Doc)
    requires ParseValue(ts).Some?
    ensures ValidDoc(d) && Denote(d) == ParseValue(ts).value.0 && ts == Tokens(d) + ParseValue(ts).value.1
    decreases |ts|, 0
  {
    var (v, rest) := ParseValue(ts).value;
    match ts[0]
    case Atom(lex) =>
      d := Leaf(v);
      assert ts == [ts[0]] + ts[1..];
    case Quoted(str) =>
      d := Leaf(v);
      assert ts == [ts[0]] + ts[1..];
    case LBrack =>
      if |ts| > 1 && ts[1] == RBrack {
        d := List([]);
        assert ts == [LBrack, RBrack] + ts[2..];
      } else {
        var docs := ItemsRead(ts[1..]);
        d := List(docs);
        assert ts == [LBrack] + ts[1..];
        hide Tokens, ItemTokens, ParseValue, ParseItems, ValidDoc;
        ListJoins(docs, rest);
      }
    case LBrace =>
      if |ts| > 1 && ts[1] == RBrace {
        d := Record([]);
        assert ts == [LBrace, RBrace] + ts[2..];
      } else {
        var ms := MembersRead(ts[1..], map[]);
        d := Record(ms);
        assert ts == [LBrace] + ts[1..];
        hide Tokens, MemberTokens, ParseValue, ParseMembers, ValidDoc;
        RecordJoins(ms, rest);
      }
  }

  lemma ItemJoins(d: Doc, more: seq<Doc>, end: seq<Token>)
    ensures more != [] ==>
      ItemTokens([d] + more) + end == Tokens(d) + ([Comma] + (ItemTokens(more) + end))
    ensures ItemTokens([d]) + end == Tokens(d) + end
    ensures DenoteItems([d] + more) == [Denote(d)] + DenoteItems(more)
  {
    hide Tokens, Denote;
    assert ([d] + more)[1..] == more;
  }

  lemma {:induction false} ItemsRead(ts: seq<Token>) returns (docs: seq<Doc>)
    requires ParseItems(ts).Some?
    ensures docs != [] && ValidDoc(List(docs)) && DenoteItems(docs) == ParseItems(ts).value.0
    ensures ts == ItemTokens(docs) + ([RBrack] + ParseItems(ts).value.1)
    decreases |ts|, 1
  {
    var (vs, end) := ParseItems(ts).value;
    var d := ValueRead(ts);
    var rest := ParseValue(ts).value.1;
    var more := [];
    if rest[0] == RBrack {
      assert vs == [Denote(d)] && rest == [RBrack] + end;
    } else {
      more := ItemsRead(rest[1..]);
      assert rest == [Comma] + rest[1..];
    }
    hide ParseItems, ParseValue, ItemTokens, DenoteItems, Tokens, Denote;
    ItemJoins(d, more, [RBrack] + end);
    ItemsRest(more, end);
    docs := [d] + more;
    assert [d] + [] == [d];
  }

  lemma ItemsRest(more: seq<Doc>, end: seq<Token>)
    ensures more == [] ==> DenoteItems(more) == []
  {
  }

  lemma MemberJoins(m: Member, more: seq<Member>, acc: map<string, Json>, end: seq<Token>)
    ensures more != [] ==>
      MemberTokens([m] + more) + end
      == [Quoted(m.key), Colon] + (Tokens(m.value) + ([Comma] + (MemberTokens(more) + end)))
    ensures MemberTokens([m]) + end == [Quoted(m.key), Colon] + (Tokens(m.value) + end)
    ensures DenoteMembers([m] + more, acc) == DenoteMembers(more, acc[m.key := Denote(m.value)])
  {
    hide Tokens, Denote;
    assert ([m] + more)[1..] == more;
  }

  /** Members parse one by one: a key, a colon and a value, and then the end or a comma and more. */
  lemma MemberSplit(ts: seq<Token>, acc: map<string, Json>)
    requires ParseMembers(ts, acc).Some?
    ensures |ts| >= 3 && ts[0].Quoted? && ts[1] == Colon && ParseValue(ts[2..]).Some?
    ensures var (v, rest) := ParseValue(ts[2..]).value;
            var acc' := acc[ts[0].str := v];
            && rest != []
            && (rest[0] == RBrace ==> ParseMembers(ts, acc) == Some((acc', rest[1..])))
            && (rest[0] != RBrace ==> rest[0] == Comma && ParseMembers(ts, acc) == ParseMembers(rest[1..], acc'))
  {
    hide ParseValue;
  }

  lemma {:induction false} MembersRead(ts: seq<Token>, acc: map<string, Json>) returns (ms: seq<Member>)
    requires ParseMembers(ts, acc).Some?
    ensures ms != [] && ValidDoc(Record(ms)) && DenoteMembers(ms, acc) == ParseMembers(ts, acc).value.0
    ensures ts == MemberTokens(ms) + ([RBrace] + ParseMembers(ts, acc).value.1)
    decreases |ts|, 1
  {
    hide ParseMembers, ParseValue, MemberTokens, DenoteMembers, Tokens, Denote;
    MemberSplit(ts, acc);
    var d := ValueRead(ts[2..]);
    var (v, rest) := ParseValue(ts[2..]).value;
    var first, acc' := Member(ts[0].str, d), acc[ts[0].str := v];
    var end := ParseMembers(ts, acc).value.1;
    assert ts == [Quoted(first.key), Colon] + ts[2..];
    var more := [];
    if rest[0] == RBrace {
      NoMembers(acc');
      assert rest == [RBrace] + end;
    } else {
      more := MembersRead(rest[1..], acc');
      assert rest == [Comma] + rest[1..];
    }
    MemberJoins(first, more, acc, [RBrace] + end);
    ms := [first] + more;
    assert [first] + [] == [first];
  }

  lemma NoMembers(acc: map<string, Json>)
    ensures DenoteMembers([], acc) == acc
  {
  }

  // ---- the theorems -----------------------------------------------------------------------------

  predicate Blank(text: string) { forall c :: c in text ==> IsBlankChar(c) }

  /**
   A text decodes exactly if it is blank or lays out a document, and then to null or to what that document
   denotes. Everything else is refused: no other way to write a string, a number or a list is let through.
  */
  lemma DecodesExactlyDocuments(text: string)
    ensures Decode(text).Success? <==> Blank(text) || exists d :: Writes(text, d)
    ensures Blank(text) ==> Decode(text) == Success(Null)
    ensures forall d :: Writes(text, d) ==> Decode(text) == Success(Denote(d))
  {
    hide Lex, ParseValue, Writes;
    if Decode(text).Success? && !Blank(text) {
      var d := DocumentRead(text);
    }
    forall d | Writes(text, d) ensures Decode(text) == Success(Denote(d)) {
      WrittenDecodes(text, d);
    }
  }

  lemma DocumentRead(text: string) returns (d: Doc)
    requires Decode(text).Success? && !Blank(text)
    ensures Writes(text, d)
  {
    hide Lex, ParseValue, IsLayout, ValidDoc;
    var words, gaps := TokensRead(text);
    d := ValueRead(Lex(text).value);
    assert Tokens(d) + [] == Tokens(d);
  }

  // ---- canonical text -----------------------------------------------------------------------------

  function Commas(parts: seq<string>): string {
    if parts == [] then ""
    else if |parts| == 1 then parts[0]
    else parts[0] + "," + Commas(parts[1..])
  }

  predicate Increasing(ks: seq<string>) {
    forall i, j :: 0 <= i < j < |ks| ==> Leq(ks[i], ks[j]) && ks[i] != ks[j]
  }

  function Fields(ks: seq<string>, m: map<string, Json>): (parts: seq<string>)
    requires forall k :: k in ks ==> k in m
    ensures |parts| == |ks|
  {
    seq(|ks|, i requires 0 <= i < |ks| => assert ks[i] in ks; Canon(Str(ks[i])) + ":" + Canon(m[ks[i]]))
  }

  /** The text of an object: its keys, once each and in increasing order, with their values. */
  ghost predicate IsObjectText(text: string, m: map<string, Json>, ks: seq<string>) {
    && Increasing(ks) && (forall k :: k in ks <==> k in m)
    && text == "{" + Commas(Fields(ks, m)) + "}"
  }

  /** The canonical text of every kind of value: literals as they are, items in order, keys in increasing order. */
  lemma CanonText(v: Json)
    ensures match v
            case Null => Canon(v) == "null"
            case Bool(b) => Canon(v) == if b then "true" else "false"
            case Num(lit) => Canon(v) == lit
            case Str(str) => SpeltAs(Quoted(str), Canon(v))
            case Arr(items) =>
              Canon(v) == "[" + Commas(seq(|items|, i requires 0 <= i < |items| => Canon(items[i]))) + "]"
            case Obj(m) => exists ks :: IsObjectText(Canon(v), m, ks)
  {
    match v
    case Arr(items) => ArrayText(items);
    case Obj(m) => ObjectText(m);
    case Str(str) =>
      SpellSpelt(Quoted(str));
      FlattenOne(Quoted(str));
    case _ => FlattenOne(LeafToken(v));
  }

  lemma FlattenOne(t: Token)
    ensures Flatten([t]) == Spell(t)
  {
    assert [t][1..] == [];
  }

  lemma {:induction false} ItemsText(docs: seq<Doc>)
    ensures Flatten(ItemTokens(docs)) == Commas(seq(|docs|, i requires 0 <= i < |docs| => Flatten(Tokens(docs[i]))))
  {
    hide Tokens, Spell;
    var parts := seq(|docs|, i requires 0 <= i < |docs| => Flatten(Tokens(docs[i])));
    if |docs| > 1 {
      ItemsText(docs[1..]);
      assert parts[1..] == seq(|docs[1..]|, i requires 0 <= i < |docs[1..]| => Flatten(Tokens(docs[1..][i])));
      CommaText(Tokens(docs[0]), ItemTokens(docs[1..]));
    }
  }

  lemma SpellComma()
    ensures Spell(Comma) == "," && Spell(Colon) == ":"
  {
  }

  lemma ArrayText(items: seq<Json>)
    ensures Canon(Arr(items)) == "[" + Commas(seq(|items|, i requires 0 <= i < |items| => Canon(items[i]))) + "]"
  {
    var docs := CanonDoc(Arr(items)).docs;
    var toks := ItemTokens(docs);
    assert Tokens(CanonDoc(Arr(items))) == [LBrack] + toks + [RBrack];
    FlattenConcat([LBrack] + toks, [RBrack]);
    FlattenConcat([LBrack], toks);
    FlattenOne(LBrack);
    FlattenOne(RBrack);
    ItemsText(docs);
    assert seq(|items|, i requires 0 <= i < |items| => Canon(items[i]))
      == seq(|docs|, i requires 0 <= i < |docs| => Flatten(Tokens(docs[i])));
  }

  lemma CommaText(first: seq<Token>, more: seq<Token>)
    ensures Flatten(first + [Comma] + more) == Flatten(first) + "," + Flatten(more)
  {
    hide Flatten, Spell;
    FlattenConcat(first + [Comma], more);
    FlattenConcat(first, [Comma]);
    FlattenOne(Comma);
    SpellComma();
  }

  function MemberText(m: Member): string { Spell(Quoted(m.key)) + ":" + Flatten(Tokens(m.value)) }

  function MemberTexts(ms: seq<Member>): (parts: seq<string>)
    ensures |parts| == |ms|
  {
    seq(|ms|, i requires 0 <= i < |ms| => MemberText(ms[i]))
  }

  lemma {:induction false} MembersText(ms: seq<Member>)
    ensures Flatten(MemberTokens(ms)) == Commas(MemberTexts(ms))
  {
    hide Tokens, Spell, MemberText, MemberTokens, Flatten, MemberTexts, Commas;
    if ms == [] {
      NoTexts();
    } else {
      OneMemberText(ms[0]);
      TokensCons(ms);
      TextsCons(ms);
      if |ms| > 1 {
        MembersText(ms[1..]);
        CommaText([Quoted(ms[0].key), Colon] + Tokens(ms[0].value), MemberTokens(ms[1..]));
      }
    }
  }

  lemma NoTexts()
    ensures Flatten(MemberTokens([])) == Commas(MemberTexts([]))
  {
  }

  lemma TokensCons(ms: seq<Member>)
    requires ms != []
    ensures var first := [Quoted(ms[0].key), Colon] + Tokens(ms[0].value);
            MemberTokens(ms) == if |ms| == 1 then first else first + [Comma] + MemberTokens(ms[1..])
  {
    hide Tokens;
  }

  lemma TextsCons(ms: seq<Member>)
    requires ms != []
    ensures Commas(MemberTexts(ms)) ==
      if |ms| == 1 then MemberText(ms[0]) else MemberText(ms[0]) + "," + Commas(MemberTexts(ms[1..]))
  {
    hide MemberText;
    assert MemberTexts(ms)[1..] == MemberTexts(ms[1..]);
  }

  lemma OneMemberText(m: Member)
    ensures Flatten([Quoted(m.key), Colon] + Tokens(m.value)) == MemberText(m)
  {
    hide Tokens;
    FlattenConcat([Quoted(m.key), Colon], Tokens(m.value));
    FlattenConcat([Quoted(m.key)], [Colon]);
    FlattenOne(Quoted(m.key));
    FlattenOne(Colon);
    assert [Quoted(m.key)] + [Colon] == [Quoted(m.key), Colon];
  }

  lemma ObjectText(m: map<string, Json>)
    ensures exists ks :: IsObjectText(Canon(Obj(m)), m, ks)
  {
    var ms := CanonDoc(Obj(m)).members;
    var toks := MemberTokens(ms);
    var ks := SortedKeys(m.Keys);
    assert Tokens(CanonDoc(Obj(m))) == [LBrace] + toks + [RBrace];
    FieldTexts(m, ks, ms);
    hide Tokens, MemberTokens, CanonDoc, SortedKeys, Fields, Spell, MemberText, MemberTexts;
    FlattenConcat([LBrace] + toks, [RBrace]);
    FlattenConcat([LBrace], toks);
    FlattenOne(LBrace);
    FlattenOne(RBrace);
    SpellBraces();
    MembersText(ms);
    assert IsObjectText(Canon(Obj(m)), m, ks);
  }

  lemma SpellBraces()
    ensures Spell(LBrace) == "{" && Spell(RBrace) == "}"
  {
  }

  lemma FieldTexts(m: map<string, Json>, ks: seq<string>, ms: seq<Member>)
    requires |ms| == |ks| && forall k :: k in ks ==> k in m
    requires forall i :: 0 <= i < |ks| ==> ks[i] in m && ms[i] == Member(ks[i], CanonDoc(m[ks[i]]))
    ensures Fields(ks, m) == MemberTexts(ms)
  {
    hide MemberText, Canon, CanonDoc;
    forall i | 0 <= i < |ks| ensures MemberText(ms[i]) == Fields(ks, m)[i] {
      assert ks[i] in ks;
      FieldText(ks[i], m[ks[i]]);
    }
  }

  lemma FieldText(k: string, v: Json)
    ensures MemberText(Member(k, CanonDoc(v))) == Canon(Str(k)) + ":" + Canon(v)
  {
    hide Spell;
    FlattenOne(Quoted(k));
  }

  /** What the printer must not leave as it is: control characters, quotes, markup and line separators. */
  predicate MustEscape(c: char) { c as int < 0x20 || c in "\"\\<>&\U{2028}\U{2029}" }

  predicate ShortFor(c: char, letter: char) { letter in SHORT && SHORT[letter] == c as int }

  /** A character stands for itself if it may; otherwise by its two-character escape, or by lower-case hex digits. */
  lemma EscapeFixed(c: char)
    ensures var t := EscapeChar(c);
            if !MustEscape(c) then t == [c]
            else if |t| == 2 then t[0] == '\\' && ShortFor(c, t[1])
            else
              && (forall letter :: !ShortFor(c, letter))
              && |t| == 6 && t[..2] == "\\u" && IsHex(t[2..], c as int) && forall x :: x in t ==> !('A' <= x <= 'F')
  {
    hide SHORT, IsHex;
    EscapeKinds(c);
    if |EscapeChar(c)| == 6 {
      HexWritten(c as int);
      LowerCase(c as int);
      NoShort(c);
    } else if MustEscape(c) {
      PieceWritten(c);
      ShortMeant(PieceOf(c));
    }
  }

  lemma EscapeKinds(c: char)
    ensures var t := EscapeChar(c);
            && (!MustEscape(c) ==> t == [c])
            && (MustEscape(c) ==>
                  || (|t| == 2 && PieceOf(c) == Short(t[1]) && t[0] == '\\')
                  || (|t| == 6 && t == HexEscape(c as int) && c as int < 0x10000))
            && (|t| == 6 ==> MustEscape(c) && c !in "\"\\\U{8}\U{C}\n\r\t/")
  {
  }

  lemma ShortMeant(p: Piece)
    requires ValidPiece(p)
    ensures p.Short? ==> ShortFor(Meant(p), p.letter)
  {
  }

  lemma ShortsAre(letter: char)
    ensures letter in SHORT ==> SHORT[letter] as char in "\"\\\U{8}\U{C}\n\r\t/"
  {
  }

  lemma NoShort(c: char)
    requires c !in "\"\\\U{8}\U{C}\n\r\t/"
    ensures forall letter :: !ShortFor(c, letter)
  {
    forall letter ensures !ShortFor(c, letter) {
      ShortsAre(letter);
    }
  }

  lemma LowerCase(n: nat)
    requires n < 0x10000
    ensures forall x :: x in HexEscape(n) ==> !('A' <= x <= 'F')
  {
  }
}
