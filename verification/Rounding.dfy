// The roundings the money code applies, and how two of them add up.

module Rounding {
  import RefundAmounts

  // Nearest integer, halves up.
  function RoundHalfUp(x: real): int { (x + 0.5).Floor }

  // a / b to the nearest integer, halves up.
  function RoundDiv(a: nat, b: nat): (q: nat)
    requires b > 0
    ensures 2 * (b * q) <= 2 * a + b < 2 * (b * q) + 2 * b
  {
    var q := (2 * a + b) / (2 * b);
    assert 2 * b * q == 2 * (b * q);
    q
  }

  lemma RoundDivOrder(a: nat, b: nat, c: nat)
    requires b > 0
    ensures a <= b * c ==> RoundDiv(a, b) <= c
    ensures b * c <= 2 * a ==> 2 * RoundDiv(a, b) >= c
  {
    if a <= b * c { AtMost(RoundDiv(a, b), a, b, c); }
    if b * c <= 2 * a { AtLeast(RoundDiv(a, b), a, b, c); }
  }

  lemma AtMost(q: nat, a: nat, b: nat, c: nat)
    requires b > 0 && 2 * (b * q) <= 2 * a + b && a <= b * c
    ensures q <= c
  {
    RefundAmounts.CancelFactor(c + 1, q, b);
    NextMultiple(b, c);
  }

  lemma AtLeast(q: nat, a: nat, b: nat, c: nat)
    requires b > 0 && 2 * a + b < 2 * (b * q) + 2 * b && b * c <= 2 * a
    ensures 2 * q >= c
  {
    RefundAmounts.CancelFactor(2 * q + 1, c, b);
    NextMultiple(b, 2 * q);
    Doubled(b, q);
  }

  lemma NextMultiple(b: int, c: int)
    ensures b * (c + 1) == b * c + b
  {}

  lemma Doubled(b: int, q: int)
    ensures b * (2 * q) == 2 * (b * q)
  {}

  function Abs(x: int): nat { if x < 0 then -x else x }

  lemma Scale(k: nat, x: int, y: int)
    requires x <= y
    ensures k * x <= k * y
  {
    if k > 0 { RefundAmounts.CancelFactor(x, y, k); }
  }

  lemma ScaleAbs(k: nat, x: int, y: int)
    requires Abs(x) <= y
    ensures Abs(k * x) <= k * y
  {
    Scale(k, x, y);
    Scale(k, -y, x);
  }

  // Two roundings in a row, each off by half a unit of its divisor: q of p * t
  // over scale, and p of scale * c over rate.
  lemma TwoErrors(scale: nat, rate: nat, q: nat, t: nat, p: nat, c: nat)
    requires Abs(2 * (scale * q) - 2 * (t * p)) <= scale
    requires Abs(2 * (rate * p) - 2 * (scale * c)) <= rate
    ensures Abs(2 * (scale * (rate * q)) - 2 * (scale * (t * c))) <= rate * scale + t * rate
  {
    ScaleAbs(rate, 2 * (scale * q) - 2 * (t * p), scale);
    ScaleAbs(t, 2 * (rate * p) - 2 * (scale * c), rate);
    SumOfErrors(scale, rate, q, t, p, c);
  }

  lemma SumOfErrors(scale: int, rate: int, q: int, t: int, p: int, c: int)
    ensures rate * (2 * (scale * q) - 2 * (t * p)) + t * (2 * (rate * p) - 2 * (scale * c))
         == 2 * (scale * (rate * q)) - 2 * (scale * (t * c))
  {}
}
