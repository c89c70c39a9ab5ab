/** String helpers: ASCII digits, decimal rendering of integers (what a
    template literal does with `${n}`), and "occurs in" for generated text.
 */
module Text {

  /** What the regular-expression class `\d` matches (no `u` flag). */
  predicate IsDigit(c: char) {
    '0' <= c <= '9'
  }

  predicate AllDigits(s: string) {
    forall k :: 0 <= k < |s| ==> IsDigit(s[k])
  }

  function DigitChar(d: nat): (c: char)
    requires d < 10
    ensures IsDigit(c)
  {
    "0123456789"[d]
  }

  /** Decimal digits of a natural number, most significant first. */
  function NatToString(n: nat): (s: string)
    ensures |s| > 0 && AllDigits(s)
    decreases n
  {
    if n < 10 then [DigitChar(n)] else NatToString(n / 10) + [DigitChar(n % 10)]
  }

  /** `${n}` for an integer `n`. */
  function IntToString(n: int): (s: string)
    ensures |s| > 0
    ensures n >= 0 ==> AllDigits(s)
    ensures n < 0 ==> s[0] == '-' && AllDigits(s[1..])
  {
    if n >= 0 then NatToString(n) else "-" + NatToString(-n)
  }

  /** The number a string of decimal digits denotes. */
  function DigitsValue(s: string): nat
    requires AllDigits(s)
    decreases |s|
  {
    if |s| == 0 then 0
    else 10 * DigitsValue(s[..|s| - 1]) + (s[|s| - 1] as int - '0' as int)
  }

  /** Rendering a natural number and reading its digits back gives the
      number again, so distinct ids render as distinct texts. */
  lemma {:induction false} NatToStringRoundTrip(n: nat)
    ensures DigitsValue(NatToString(n)) == n
    decreases n
  {
    var s := NatToString(n);
    if n < 10 {
      assert s[..0] == [];
    } else {
      NatToStringRoundTrip(n / 10);
      assert s[..|s| - 1] == NatToString(n / 10);
    }
  }

  lemma NatToStringInjective(a: nat, b: nat)
    requires NatToString(a) == NatToString(b)
    ensures a == b
  {
    NatToStringRoundTrip(a);
    NatToStringRoundTrip(b);
  }

  /** Different integers render differently. */
  lemma IntToStringInjective(m: int, n: int)
    requires IntToString(m) == IntToString(n)
    ensures m == n
  {
    var s := IntToString(m);
    if m >= 0 {
      assert IsDigit(s[0]);
      assert n >= 0;
      NatToStringInjective(m, n);
    } else {
      assert s[0] == '-';
      assert n < 0;
      assert s[1..] == NatToString(-m);
      assert s[1..] == NatToString(-n);
      NatToStringInjective(-m, -n);
    }
  }

  predicate IsPrefix(p: string, t: string) {
    |p| <= |t| && t[..|p|] == p
  }

  /** `p` occurs somewhere in `t` (JavaScript's `t.includes(p)`). */
  predicate IsInfix(p: string, t: string)
    decreases |t|
  {
    IsPrefix(p, t) || (|t| > 0 && IsInfix(p, t[1..]))
  }

  /** Whatever stands between `a` and `b` occurs in `a + p + b`. */
  lemma {:induction false} InfixOfConcat(a: string, p: string, b: string)
    ensures IsInfix(p, a + p + b)
    decreases |a|
  {
    if |a| == 0 {
      assert (a + p + b)[..|p|] == p;
    } else {
      InfixOfConcat(a[1..], p, b);
      assert (a + p + b)[1..] == a[1..] + p + b;
    }
  }

  /** A string occurs in anything it starts. */
  lemma InfixOfPrefix(p: string, b: string)
    ensures IsInfix(p, p + b)
  {
    assert (p + b)[..|p|] == p;
  }

  /** A string occurs in anything it ends. */
  lemma InfixOfSuffix(a: string, p: string)
    ensures IsInfix(p, a + p)
  {
    InfixOfConcat(a, p, "");
    assert a + p + "" == a + p;
  }

  /** A four-part concatenation starts with its first part. */
  lemma PrefixOfFour(a: string, b: string, c: string, d: string)
    ensures IsPrefix(a, a + b + c + d)
  {
    assert (a + b + c + d)[..|a|] == a;
  }

  lemma PrefixTransitive(p: string, q: string, t: string)
    requires IsPrefix(p, q) && IsPrefix(q, t)
    ensures IsPrefix(p, t)
  {
    assert t[..|p|] == q[..|p|];
  }

  /** Each of the first three parts of a four-part concatenation occurs in it. */
  lemma InfixOfFour(a: string, b: string, c: string, d: string)
    ensures IsInfix(a, a + b + c + d) && IsInfix(b, a + b + c + d) && IsInfix(c, a + b + c + d)
  {
    InfixOfPrefix(a + b + c, d);
    InfixOfPrefix(a + b, c);
    InfixOfPrefix(a, b);
    InfixOfSuffix(a, b);
    InfixOfSuffix(a + b, c);
    InfixTransitive(a + b, a + b + c, a + b + c + d);
    InfixTransitive(a, a + b, a + b + c + d);
    InfixTransitive(b, a + b, a + b + c + d);
    InfixTransitive(c, a + b + c, a + b + c + d);
  }

  /** Occurrence is transitive: a part of a part of `t` is a part of `t`. */
  lemma {:induction false} InfixTransitive(p: string, q: string, t: string)
    requires IsInfix(p, q) && IsInfix(q, t)
    ensures IsInfix(p, t)
    decreases |t|
  {
    if IsPrefix(q, t) {
      PrefixThenInfix(p, q, t);
    } else {
      InfixTransitive(p, q, t[1..]);
    }
  }

  lemma {:induction false} PrefixThenInfix(p: string, q: string, t: string)
    requires IsInfix(p, q) && IsPrefix(q, t)
    ensures IsInfix(p, t)
    decreases |q|
  {
    if IsPrefix(p, q) {
      assert t[..|p|] == q[..|p|];
    } else {
      assert |q| > 0;
      PrefixThenInfix(p, q[1..], t[1..]);
    }
  }
}
