/** Spool file names: the time, a counter and a random suffix, padded so that they sort into write order. */
module FileName {
  import opened Text

  /** The digit's character; hexadecimal digits are lower case. */
  function Digit(d: nat): char
    requires d < 16
  {
    if d < 10 then '0' + d as char else 'a' + (d - 10) as char
  }

  function Power(base: nat, width: nat): nat { if width == 0 then 1 else base * Power(base, width - 1) }

  /** All digits but the last, and the last. */
  function Front(n: nat, base: nat): nat
    requires base >= 2
  {
    n / base
  }

  function Last(n: nat, base: nat): (d: nat)
    requires base >= 2
    ensures d < base
  {
    n % base
  }

  /** `n` in the given base, padded with zeros to `width` digits. */
  function Padded(n: nat, base: nat, width: nat): (s: string)
    requires 2 <= base <= 16
    ensures |s| == width
    decreases width
  {
    if width == 0 then "" else Padded(Front(n, base), base, width - 1) + [Digit(Last(n, base))]
  }

  /** %020d-%08x-%s.json */
  function NameOf(nanos: nat, count: nat, suffix: string): string {
    Padded(nanos, 10, 20) + ("-" + (Padded(count, 16, 8) + ("-" + suffix + ".json")))
  }

  predicate Below(a: string, b: string) { Leq(a, b) && a != b }

  /** Two strings of one length decide the order of whatever follows them. */
  lemma {:induction false} PrefixDecides(a: string, b: string, x: string, y: string)
    requires |a| == |b| && Below(a, b)
    ensures Below(a + x, b + y)
  {
    assert (a + x)[..|a|] == a && (b + y)[..|b|] == b;
    assert (a + x)[1..] == a[1..] + x && (b + y)[1..] == b[1..] + y;
    if a[0] == b[0] {
      assert a == [a[0]] + a[1..] && b == [b[0]] + b[1..];
      PrefixDecides(a[1..], b[1..], x, y);
    }
  }

  lemma {:induction false} SamePrefix(a: string, x: string, y: string)
    requires Below(x, y)
    ensures Below(a + x, a + y)
  {
    if a == "" {
      assert a + x == x && a + y == y;
    } else {
      SamePrefix(a[1..], x, y);
      assert (a + x)[1..] == a[1..] + x && (a + y)[1..] == a[1..] + y;
    }
  }

  lemma Scaled(a: nat, b: nat, base: nat)
    ensures a >= b ==> a * base >= b * base
  {
  }

  lemma DivisionOrder(m: nat, n: nat, base: nat)
    requires 2 <= base && m < n
    ensures Front(m, base) < Front(n, base) || (Front(m, base) == Front(n, base) && Last(m, base) < Last(n, base))
  {
    assert m == m / base * base + m % base && n == n / base * base + n % base;
    Scaled(m / base, n / base + 1, base);
  }

  lemma {:induction false} PaddedOrder(m: nat, n: nat, base: nat, width: nat)
    requires 2 <= base <= 16 && m < n < Power(base, width)
    ensures Below(Padded(m, base, width), Padded(n, base, width))
    decreases width
  {
    DivisionOrder(m, n, base);
    if width > 0 {
      FrontFits(n, base, width);
    }
    hide Front, Last;
    var a, b := [Digit(Last(m, base))], [Digit(Last(n, base))];
    if Front(m, base) < Front(n, base) {
      PaddedOrder(Front(m, base), Front(n, base), base, width - 1);
      PrefixDecides(Padded(Front(m, base), base, width - 1), Padded(Front(n, base), base, width - 1), a, b);
    } else {
      SamePrefix(Padded(Front(m, base), base, width - 1), a, b);
    }
  }

  lemma FrontFits(n: nat, base: nat, width: nat)
    requires 2 <= base && width > 0 && n < Power(base, width)
    ensures Front(n, base) < Power(base, width - 1)
  {
    Scaled(n / base, Power(base, width - 1), base);
  }

  /**
   Names grow with the clock and, within one tick, with the process's counter, as long as both fit their
   padding: the clock in 20 decimal digits and the counter in 8 hexadecimal ones.
  */
  lemma NamesIncrease(t: nat, n: nat, x: string, t': nat, n': nat, x': string)
    requires t < t' || (t == t' && n < n')
    requires t' < Power(10, 20) && n < Power(16, 8) && n' < Power(16, 8)
    ensures Below(NameOf(t, n, x), NameOf(t', n', x'))
  {
    hide Padded;
    var rest, rest' := "-" + x + ".json", "-" + x' + ".json";
    if t < t' {
      PaddedOrder(t, t', 10, 20);
      PrefixDecides(Padded(t, 10, 20), Padded(t', 10, 20), "-" + (Padded(n, 16, 8) + rest),
        "-" + (Padded(n', 16, 8) + rest'));
    } else {
      PaddedOrder(n, n', 16, 8);
      PrefixDecides(Padded(n, 16, 8), Padded(n', 16, 8), rest, rest');
      SamePrefix("-", Padded(n, 16, 8) + rest, Padded(n', 16, 8) + rest');
      SamePrefix(Padded(t, 10, 20), "-" + (Padded(n, 16, 8) + rest), "-" + (Padded(n', 16, 8) + rest'));
    }
  }
}
