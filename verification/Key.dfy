/**
 Idempotency keys. The key of a step's call is the SHA-256 of `tool \n canonical-args \n goal:step`;
 the hash is taken to be injective, so the preimage stands for the key.
*/
module Key {
  import opened Json
  import opened Text
  import opened Wrappers

  /** External goal identifiers: 1 to 128 characters of a conservative set. */
  predicate ValidGoalId(id: string) {
    && 1 <= |id| <= 128
    && forall c :: c in id ==>
         'a' <= c <= 'z' || 'A' <= c <= 'Z' || '0' <= c <= '9' || c == '_' || c == '-' || c == '.' || c == ':'
  }

  function Decimal(n: nat): (s: string)
    ensures s != "" && forall c :: c in s ==> IsDigit(c)
  {
    if n < 10 then ['0' + n as char] else Decimal(n / 10) + ['0' + (n % 10) as char]
  }

  /** The number that decimal digits stand for. */
  function ValueOf(s: string): int {
    if s == "" then 0 else 10 * ValueOf(s[..|s| - 1]) + (s[|s| - 1] as int - '0' as int)
  }

  lemma {:induction false} DecimalReads(n: nat)
    ensures ValueOf(Decimal(n)) == n && (Decimal(n)[0] == '0' ==> n == 0)
  {
    var s := Decimal(n);
    assert s[|s| - 1] == '0' + (n % 10) as char;
    if n >= 10 {
      DecimalReads(n / 10);
      assert s[..|s| - 1] == Decimal(n / 10);
    } else {
      assert s[..|s| - 1] == "";
    }
  }

  lemma {:induction false} DecimalInjective(m: nat, n: nat)
    requires Decimal(m) == Decimal(n)
    ensures m == n
  {
    var s, t := Decimal(m), Decimal(n);
    assert s[|s| - 1] == '0' + (m % 10) as char && t[|t| - 1] == '0' + (n % 10) as char;
    if m >= 10 && n >= 10 {
      assert s[..|s| - 1] == Decimal(m / 10) && t[..|t| - 1] == Decimal(n / 10);
      DecimalInjective(m / 10, n / 10);
    } else {
      assert m < 10 ==> |s| == 1;
      assert n < 10 ==> |t| == 1;
      assert m >= 10 ==> |s| > 1;
      assert n >= 10 ==> |t| > 1;
    }
  }

  function Preimage(tool: string, canon: string, goal: string, step: nat): string {
    tool + "\n" + canon + "\n" + goal + ":" + Decimal(step)
  }

  function KeyOf(tool: string, args: Json, goal: string, step: nat): string {
    Preimage(tool, Canon(args), goal, step)
  }

  /** What the executor computes from the raw arguments: a refusal when they do not decode. */
  function KeyOfRaw(tool: string, raw: string, goal: string, step: nat): Result<string, DecodeError> {
    match Canonical(raw)
    case Success(c) => Success(Preimage(tool, c, goal, step))
    case Failure(e) => Failure(e)
  }

  /**
   Every component can be read off the preimage from the right, although a tool name may contain
   newlines and a goal id colons.
  */
  lemma KeyInjective(t1: string, a1: Json, g1: string, s1: nat, t2: string, a2: Json, g2: string, s2: nat)
    requires WellFormed(a1) && WellFormed(a2) && ValidGoalId(g1) && ValidGoalId(g2)
    requires KeyOf(t1, a1, g1, s1) == KeyOf(t2, a2, g2, s2)
    ensures t1 == t2 && a1 == a2 && g1 == g2 && s1 == s2
  {
    CanonHasNoNewline(a1);
    CanonHasNoNewline(a2);
    SplitAtLast(t1 + "\n" + Canon(a1) + "\n" + g1, Decimal(s1), t2 + "\n" + Canon(a2) + "\n" + g2, Decimal(s2), ':');
    SplitAtLast(t1 + "\n" + Canon(a1), g1, t2 + "\n" + Canon(a2), g2, '\n');
    SplitAtLast(t1, Canon(a1), t2, Canon(a2), '\n');
    CanonInjective(a1, a2);
    DecimalInjective(s1, s2);
  }

  /**
   The key of raw arguments depends on their value alone, so arguments that come back from the
   database with other white space or key order give the key they were stored under; and any other
   value, tool, goal or step gives another key.
  */
  lemma RawKeysAgree(t1: string, r1: string, g1: string, s1: nat, t2: string, r2: string, g2: string, s2: nat)
    requires ValidGoalId(g1) && ValidGoalId(g2)
    requires Decode(r1).Success? && Decode(r2).Success?
    ensures KeyOfRaw(t1, r1, g1, s1) == KeyOfRaw(t2, r2, g2, s2)
       <==> t1 == t2 && Decode(r1) == Decode(r2) && g1 == g2 && s1 == s2
  {
    DecodedWellFormed(r1);
    DecodedWellFormed(r2);
    var a1, a2 := Decode(r1).value, Decode(r2).value;
    assert KeyOfRaw(t1, r1, g1, s1) == Success(KeyOf(t1, a1, g1, s1));
    assert KeyOfRaw(t2, r2, g2, s2) == Success(KeyOf(t2, a2, g2, s2));
    if KeyOf(t1, a1, g1, s1) == KeyOf(t2, a2, g2, s2) {
      KeyInjective(t1, a1, g1, s1, t2, a2, g2, s2);
    }
  }

  /** The hashed text has a line for the tool, one for the arguments, and one for the goal and the step. */
  lemma KeyText()
    ensures KeyOf("fs.append", Null, "g", 12) == "fs.append\nnull\ng:12"
  {
    var ts := [Atom("null")];
    assert ts[1..] == [];
    assert Canon(Null) == "null" + "";
    assert Decimal(12) == Decimal(1) + "2" && Decimal(1) == "1";
  }

  // ---- numbers in storage -----------------------------------------------------------------------

  /** A value whose number literals were rewritten: a JSONB column gives `1e2` back as `100`. */
  function Rewritten(v: Json, norm: string -> string): Json {
    match v
    case Num(lit) => Num(norm(lit))
    case Arr(items) => Arr(seq(|items|, i requires 0 <= i < |items| => Rewritten(items[i], norm)))
    case Obj(m) => Obj(map k | k in m :: Rewritten(m[k], norm))
    case _ => v
  }

  /** Every number literal, at every depth, is written the way storage writes it. */
  predicate Normal(v: Json, norm: string -> string) {
    match v
    case Num(lit) => norm(lit) == lit
    case Arr(items) => forall i :: 0 <= i < |items| ==> Normal(items[i], norm)
    case Obj(m) => forall k :: k in m ==> Normal(m[k], norm)
    case _ => true
  }

  lemma {:induction false} RewrittenSame(v: Json, norm: string -> string)
    ensures Rewritten(v, norm) == v <==> Normal(v, norm)
    decreases v
  {
    match v
    case Arr(items) =>
      var items' := Rewritten(v, norm).items;
      forall i | 0 <= i < |items| ensures items'[i] == items[i] <==> Normal(items[i], norm) {
        RewrittenSame(items[i], norm);
      }
      assert items' == items <==> forall i :: 0 <= i < |items| ==> items'[i] == items[i];
    case Obj(m) =>
      var m' := Rewritten(v, norm).members;
      forall k | k in m ensures m'[k] == m[k] <==> Normal(m[k], norm) {
        RewrittenSame(m[k], norm);
      }
      assert m' == m <==> forall k :: k in m ==> m'[k] == m[k];
    case _ =>
  }

  /**
   Arguments read back from storage give the key they were stored under exactly when storage rewrites none
   of their numbers.
  */
  lemma KeySurvivesStorage(tool: string, raw: string, stored: string, norm: string -> string, goal: string, step: nat)
    requires ValidGoalId(goal) && Decode(raw).Success?
    requires Decode(stored) == Success(Rewritten(Decode(raw).value, norm))
    ensures KeyOfRaw(tool, stored, goal, step) == KeyOfRaw(tool, raw, goal, step) <==> Normal(Decode(raw).value, norm)
  {
    hide KeyOfRaw, Decode;
    RawKeysAgree(tool, stored, goal, step, tool, raw, goal, step);
    RewrittenSame(Decode(raw).value, norm);
  }

  /** An exponent is enough: the recorded call and the one read back have different keys. */
  lemma ExponentChangesKey(tool: string, goal: string, step: nat)
    requires ValidGoalId(goal)
    ensures KeyOf(tool, Num("100"), goal, step) != KeyOf(tool, Num("1e2"), goal, step)
  {
    assert IsNumber("100") && IsNumber("1e2");
    if KeyOf(tool, Num("100"), goal, step) == KeyOf(tool, Num("1e2"), goal, step) {
      KeyInjective(tool, Num("100"), goal, step, tool, Num("1e2"), goal, step);
      assert false;
    }
  }
}
