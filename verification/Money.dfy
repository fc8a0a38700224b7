/**
 Money is counted in cents. A NUMERIC(_, 2) column holds a whole number of cents
 and is an `int`; a request's floating-point amount is a `real` number of cents.
 `Round` is the program's `round2`: to the nearest cent, halves away from zero.
 */
module Money {

  function Round(x: real): (n: int)
    ensures -0.5 <= n as real - x <= 0.5
    ensures x >= 0.0 ==> n >= 0
    ensures x <= 0.0 ==> n <= 0
  {
    if x >= 0.0 then (x + 0.5).Floor else -((0.5 - x).Floor)
  }

  function Abs(x: real): (r: real)
    ensures r >= 0.0 && (r == x || r == -x)
  {
    if x < 0.0 then -x else x
  }

  function Max(a: int, b: int): (m: int)
    ensures m >= a && m >= b && (m == a || m == b)
  {
    if a < b then b else a
  }

  function Min(a: int, b: int): (m: int)
    ensures m <= a && m <= b && (m == a || m == b)
  {
    if a < b then a else b
  }

  predicate IsWhole(x: real) {
    x == x.Floor as real
  }

  lemma RoundWhole(k: int)
    ensures Round(k as real) == k
  {
    if k >= 0 {
      assert (k as real + 0.5).Floor == k;
    } else {
      assert (0.5 - k as real).Floor == -k;
    }
  }

  /** A half cent goes away from zero. */
  lemma RoundHalves(k: int)
    requires k >= 0
    ensures Round(k as real + 0.5) == k + 1 && Round(-(k as real) - 0.5) == -k - 1
  {
    assert (k as real + 0.5 + 0.5).Floor == k + 1;
  }

  lemma RoundMonotone(x: real, y: real)
    requires x <= y
    ensures Round(x) <= Round(y)
  {
  }

  lemma RoundOdd(x: real)
    ensures Round(-x) == -Round(x)
  {
  }

  /** Rounding commutes with adding whole cents as long as no sign changes. */
  lemma RoundShift(x: real, k: int)
    requires x >= 0.0 && x + k as real >= 0.0
    ensures Round(x + k as real) == Round(x) + k
  {
    assert ((x + k as real) + 0.5).Floor == (x + 0.5).Floor + k;
  }

  /** Two roundings of the parts miss the rounding of the whole by at most a cent. */
  lemma RoundSplit(whole: real, part: real)
    ensures -1 <= Round(whole) - (Round(whole - part) + Round(part)) <= 1
  {
  }

  // ---------- quotients ----------

  lemma Quotient(a: real, t: real, x: real)
    requires t > 0.0 && x * t == a
    ensures a / t == x
  {
  }

  lemma QuotientAdds(a: real, b: real, t: real)
    requires t > 0.0
    ensures (a + b) / t == a / t + b / t
  {
  }

  lemma Distribute(a: real, b: real, c: real)
    ensures (a + b) * c == a * c + b * c && c * (a + b) == c * a + c * b
  {
  }

  lemma QuotientOfItself(s: real, t: real)
    requires t > 0.0
    ensures t * s / t == s && s * t / t == s
  {
    Quotient(t * s, t, s);
  }

  /** The proportion of `t + d`, less the proportion of `t` itself, is that of d. */
  lemma OffBy(a: real, t: real, d: real, s: real)
    requires t > 0.0 && a == t + d
    ensures a * s / t == s + d * s / t
  {
    Distribute(t, d, s);
    var product := a * s;
    assert product == t * s + d * s;
    QuotientAdds(t * s, d * s, t);
    QuotientOfItself(s, t);
    assert product / t == s + d * s / t;
  }

  lemma ProductSign(x: real, t: real)
    requires x >= 0.0 && t >= 0.0
    ensures x * t >= 0.0
  {
  }

  /** A quotient by at least the multiplier is a part of what was multiplied. */
  lemma PartOf(d: real, share: real, t: real)
    requires 0.0 <= share <= t && t > 0.0
    ensures d >= 0.0 ==> 0.0 <= d * share / t <= d
    ensures d <= 0.0 ==> d <= d * share / t <= 0.0
  {
    Fraction(share, t);
    var r := share / t;
    assert d * share / t == d * r;
    if d >= 0.0 {
      ProductSign(d, r);
      ProductSign(d, 1.0 - r);
      Distribute(1.0, -r, d);
    } else {
      ProductSign(-d, r);
      ProductSign(-d, 1.0 - r);
      Distribute(1.0, -r, d);
    }
  }

  /** So the proportion of `a` lies between the share itself and the share moved by all of d. */
  lemma ScaledBetween(a: real, s: real, t: real, d: real)
    requires 0.0 <= s <= t && t > 0.0 && a == t + d
    ensures d >= 0.0 ==> s <= a * s / t <= s + d
    ensures d <= 0.0 ==> s + d <= a * s / t <= s
  {
    var x := d * s / t;
    PartOf(d, s, t);
    OffBy(a, t, d, s);
    var y := a * s / t;
    assert y == s + x;
  }

  lemma Fraction(a: real, t: real)
    requires 0.0 <= a <= t && t > 0.0
    ensures 0.0 <= a / t <= 1.0 && (a / t) * t == a
  {
  }
}
