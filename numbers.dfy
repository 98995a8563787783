/** Number formatting and arithmetic of the JavaScript runtime used by the quote code:
    decimal rendering of integers, `toFixed(0)`, `Math.round`, `Math.floor` of a
    random draw, and the sums and counts built with `reduce` and `filter`. */
module Numbers {

  predicate IsDigit(c: char) {
    '0' <= c <= '9'
  }

  predicate AllDigits(s: string) {
    forall k :: 0 <= k < |s| ==> IsDigit(s[k])
  }

  function DigitChar(d: nat): (c: char)
    requires d < 10
    ensures IsDigit(c)
  {
    ('0' as int + d) as char
  }

  function DigitValue(c: char): (d: nat)
    requires IsDigit(c)
    ensures d < 10
  {
    c as int - '0' as int
  }

  /** Decimal rendering of a natural number, without leading zeros. */
  function NatToString(n: nat): (r: string)
    ensures |r| >= 1 && AllDigits(r)
    ensures r[0] == '0' ==> n == 0
  {
    if n < 10 then [DigitChar(n)] else NatToString(n / 10) + [DigitChar(n % 10)]
  }

  /** Reads a string of decimal digits back as a number. */
  function ParseNat(s: string): nat
    requires AllDigits(s)
  {
    if s == [] then 0 else 10 * ParseNat(s[..|s| - 1]) + DigitValue(s[|s| - 1])
  }

  /** Rendering a number in decimal and reading it back gives the number. */
  lemma {:induction false} ParseNatToString(n: nat)
    ensures ParseNat(NatToString(n)) == n
  {
    var r := NatToString(n);
    if n >= 10 {
      ParseNatToString(n / 10);
      assert r[..|r| - 1] == NatToString(n / 10);
    }
  }

  /** Template-literal rendering of an integer (`${n}`). */
  function IntToString(i: int): (r: string)
    ensures i >= 0 ==> AllDigits(r) && ParseNat(r) == i
    ensures i < 0 ==> |r| >= 2 && r[0] == '-' && AllDigits(r[1..]) && ParseNat(r[1..]) == -i
  {
    if i < 0 then
      ParseNatToString(-i);
      assert ("-" + NatToString(-i))[1..] == NatToString(-i);
      "-" + NatToString(-i)
    else
      ParseNatToString(i);
      NatToString(i)
  }

  /** `Math.round(x)`: the nearest integer, halves rounded up. */
  function Round(x: real): (r: int)
    ensures r as real - 0.5 <= x < r as real + 0.5
  {
    (x + 0.5).Floor
  }

  /** `x.toFixed(0)`: the sign, then the magnitude rounded to the nearest integer,
      halves rounded away from zero (so -0.4 renders as "-0"). */
  function ToFixed0(x: real): string
  {
    if x < 0.0 then "-" + NatToString(Round(-x)) else NatToString(Round(x))
  }

  /** A non-negative amount renders as plain digits within one half of it. */
  lemma ToFixed0NonNegative(x: real)
    requires x >= 0.0
    ensures AllDigits(ToFixed0(x))
    ensures var n := ParseNat(ToFixed0(x)) as real; n - 0.5 <= x < n + 0.5
  {
    ParseNatToString(Round(x));
  }

  /** A negative amount renders as a minus sign and digits within one half of its magnitude. */
  lemma ToFixed0Negative(x: real)
    requires x < 0.0
    ensures var s := ToFixed0(x); |s| >= 2 && s[0] == '-' && AllDigits(s[1..])
    ensures var n := ParseNat(ToFixed0(x)[1..]) as real; n - 0.5 <= -x < n + 0.5
  {
    ParseNatToString(Round(-x));
    assert ToFixed0(x)[1..] == NatToString(Round(-x));
  }

  /** `Math.floor(1000 + Math.random() * 9000)` for a draw `r` in [0, 1): a four-digit token. */
  function FourDigitToken(r: real): (t: int)
    requires 0.0 <= r < 1.0
    ensures 1000 <= t <= 9999
  {
    (1000.0 + r * 9000.0).Floor
  }

  /** A token between 1000 and 9999 is written with four digits. */
  lemma {:induction false} TokenWidth(n: nat)
    requires 1000 <= n <= 9999
    ensures |NatToString(n)| == 4
  {
    assert NatToString(n / 1000) == [DigitChar(n / 1000)];
    assert NatToString(n / 100) == NatToString(n / 1000) + [DigitChar(n / 100 % 10)];
    assert NatToString(n / 10) == NatToString(n / 100) + [DigitChar(n / 10 % 10)];
  }

  /** `xs.reduce((sum, x) => sum + x, 0)`. */
  function Sum(xs: seq<real>): real
  {
    if xs == [] then 0.0 else Sum(xs[..|xs| - 1]) + xs[|xs| - 1]
  }

  /** The sum of a concatenation is the sum of the parts. */
  lemma {:induction false} SumAppend(a: seq<real>, b: seq<real>)
    ensures Sum(a + b) == Sum(a) + Sum(b)
  {
    if b != [] {
      assert (a + b)[..|a + b| - 1] == a + b[..|b| - 1];
      SumAppend(a, b[..|b| - 1]);
    } else {
      assert a + b == a;
    }
  }

  /** Dividing every term by the same positive number divides the sum by it. */
  lemma {:induction false} SumDivide(xs: seq<real>, ys: seq<real>, d: real)
    requires d > 0.0 && |xs| == |ys|
    requires forall k :: 0 <= k < |xs| ==> ys[k] == xs[k] / d
    ensures Sum(ys) == Sum(xs) / d
  {
    if xs != [] {
      var n := |xs| - 1;
      SumDivide(xs[..n], ys[..n], d);
      assert (Sum(xs[..n]) + xs[n]) / d == Sum(xs[..n]) / d + xs[n] / d;
    }
  }

  /** `xs.filter(p).length`. */
  function Count<T>(xs: seq<T>, p: T -> bool): (n: nat)
    ensures n <= |xs|
  {
    if xs == [] then 0 else Count(xs[..|xs| - 1], p) + (if p(xs[|xs| - 1]) then 1 else 0)
  }

  /** A filter every element passes keeps everything. */
  lemma {:induction false} CountAll<T>(xs: seq<T>, p: T -> bool)
    requires forall x :: p(x)
    ensures Count(xs, p) == |xs|
  {
    if xs != [] {
      CountAll(xs[..|xs| - 1], p);
    }
  }

  /** A weaker filter keeps at least as much. */
  lemma {:induction false} CountMonotone<T>(xs: seq<T>, p: T -> bool, q: T -> bool)
    requires forall x :: p(x) ==> q(x)
    ensures Count(xs, p) <= Count(xs, q)
  {
    if xs != [] {
      CountMonotone(xs[..|xs| - 1], p, q);
    }
  }

  /** Counts of two exclusive filters add up to the count of their union. */
  lemma {:induction false} CountDisjoint<T>(xs: seq<T>, p: T -> bool, q: T -> bool, pq: T -> bool)
    requires forall x :: !(p(x) && q(x))
    requires forall x :: pq(x) == (p(x) || q(x))
    ensures Count(xs, p) + Count(xs, q) == Count(xs, pq)
  {
    if xs != [] {
      CountDisjoint(xs[..|xs| - 1], p, q, pq);
    }
  }
}
