/** Strings as the canonical printer and the spool see them: byte order, sorting, splitting. */
module Text {

  /** Lexicographic order, which for Unicode scalars is also the byte order of UTF-8. */
  predicate Leq(a: string, b: string) {
    a == "" || (b != "" && (a[0] < b[0] || (a[0] == b[0] && Leq(a[1..], b[1..]))))
  }

  lemma {:induction false} LeqTotal(a: string, b: string)
    ensures Leq(a, b) || Leq(b, a)
  {
    if a != "" && b != "" && a[0] == b[0] {
      LeqTotal(a[1..], b[1..]);
    }
  }

  lemma {:induction false} LeqAntisymmetric(a: string, b: string)
    requires Leq(a, b) && Leq(b, a)
    ensures a == b
  {
    if a != "" {
      LeqAntisymmetric(a[1..], b[1..]);
      assert a == [a[0]] + a[1..] && b == [b[0]] + b[1..];
    }
  }

  lemma {:induction false} LeqTransitive(a: string, b: string, c: string)
    requires Leq(a, b) && Leq(b, c)
    ensures Leq(a, c)
  {
    if a != "" && b[0] == a[0] && c[0] == b[0] {
      LeqTransitive(a[1..], b[1..], c[1..]);
    }
  }

  /** The first place where two strings differ decides, and a prefix comes before what extends it. */
  lemma {:induction false} LeqByFirstDifference(a: string, b: string, i: nat)
    requires i <= |a| && i <= |b| && a[..i] == b[..i]
    ensures i == |a| ==> Leq(a, b)
    ensures i < |a| && (i == |b| || a[i] > b[i]) ==> !Leq(a, b)
    ensures i < |a| && i < |b| && a[i] < b[i] ==> Leq(a, b)
  {
    if i > 0 {
      assert a[0] == a[..i][0] == b[..i][0] == b[0];
      assert a[1..][..i - 1] == a[..i][1..] && b[1..][..i - 1] == b[..i][1..];
      LeqByFirstDifference(a[1..], b[1..], i - 1);
    }
  }

  predicate IsLeast(k: string, s: set<string>) {
    k in s && forall j :: j in s ==> Leq(k, j)
  }

  lemma {:induction false} LeastExists(s: set<string>)
    requires s != {}
    ensures exists k :: IsLeast(k, s)
    decreases |s|
  {
    var x :| x in s;
    var rest := s - {x};
    LeqTotal(x, x);
    if rest == {} {
      assert s == {x};
      assert IsLeast(x, s);
    } else {
      LeastExists(rest);
      var k :| IsLeast(k, rest);
      LeqTotal(x, k);
      var m := if Leq(x, k) then x else k;
      forall j | j in s ensures Leq(m, j) {
        if j != x && m == x {
          LeqTransitive(x, k, j);
        }
      }
      assert IsLeast(m, s);
    }
  }

  function Least(s: set<string>): (k: string)
    requires s != {}
    ensures IsLeast(k, s)
  {
    LeastExists(s);
    assert forall a, b :: IsLeast(a, s) && IsLeast(b, s) ==> a == b by {
      forall a, b | IsLeast(a, s) && IsLeast(b, s) ensures a == b { LeqAntisymmetric(a, b); }
    }
    var k :| IsLeast(k, s);
    k
  }

  /** The members of `s` in increasing order, as sort.Strings leaves a map's keys. */
  function SortedKeys(s: set<string>): (ks: seq<string>)
    ensures forall k :: k in ks <==> k in s
    ensures forall i, j :: 0 <= i < j < |ks| ==> ks[i] != ks[j] && Leq(ks[i], ks[j])
    decreases |s|
  {
    if s == {} then []
    else
      var k := Least(s);
      var rest := SortedKeys(s - {k});
      assert forall j :: 0 <= j < |rest| ==> rest[j] in s - {k};
      [k] + rest
  }

  /** Everything before and after the last occurrence of a separator is determined by the whole. */
  lemma {:induction false} SplitAtLast(a1: string, b1: string, a2: string, b2: string, sep: char)
    requires a1 + [sep] + b1 == a2 + [sep] + b2
    requires sep !in b1 && sep !in b2
    ensures a1 == a2 && b1 == b2
  {
    var t := a1 + [sep] + b1;
    assert t[|a1|] == sep && t[|a2|] == sep;
    assert forall i :: |a1| < i < |t| ==> t[i] == b1[i - |a1| - 1];
    assert forall i :: |a2| < i < |t| ==> t[i] == b2[i - |a2| - 1];
    assert |a1| == |a2|;
    assert a1 == t[..|a1|] && a2 == t[..|a2|];
    assert b1 == t[|a1| + 1..] && b2 == t[|a2| + 1..];
  }
}
