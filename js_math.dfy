/**
 * `Math.ceil`, `Math.round` and division as the sizing formulas use them,
 * over exact reals (IEEE-754 rounding is not modelled).
 */
module JsMath {

  /** `Math.ceil(x)`: the least integer not below `x`. */
  function Ceil(x: real): (n: int)
    ensures x <= n as real < x + 1.0
  {
    -((-x).Floor)
  }

  /** `Math.round(x)`: the nearest integer, halves rounded towards +infinity. */
  function Round(x: real): (n: int)
    ensures x - 0.5 < n as real <= x + 0.5
  {
    (x + 0.5).Floor
  }

  /** No integer below `Ceil(x)` reaches `x`. */
  lemma CeilIsLeast(x: real, m: int)
    requires x <= m as real
    ensures Ceil(x) <= m
  {
  }

  /** `Math.ceil` is monotone. */
  lemma CeilMonotone(x: real, y: real)
    requires x <= y
    ensures Ceil(x) <= Ceil(y)
  {
    CeilIsLeast(x, Ceil(y));
  }

  lemma MulMonotone(x: real, y: real, c: real)
    requires x <= y && c > 0.0
    ensures x * c <= y * c
    ensures x < y ==> x * c < y * c
  {
    assert (y - x) * c >= 0.0;
    assert x < y ==> (y - x) * c > 0.0;
  }

  /**
   * For a positive divisor, `Math.ceil(a / b)` is the least count `n` with
   * `n * b >= a`: the smallest sufficient number of units of size `b`.
   */
  lemma CeilQuotientIsLeastSufficient(a: real, b: real)
    requires b > 0.0
    ensures Ceil(a / b) as real * b >= a
    ensures (Ceil(a / b) - 1) as real * b < a
  {
    var n, q := Ceil(a / b), a / b;
    assert q * b == a;
    MulMonotone(q, n as real, b);
    assert (n - 1) as real < q;
    MulMonotone((n - 1) as real, q, b);
    assert (n - 1) as real * b < q * b == a;
    assert (Ceil(a / b) - 1) as real * b < a;
  }

  /** The value of `Math.ceil(a / b)` in JavaScript, where `b` may be 0. */
  datatype Count = Finite(n: int) | PosInfinity | NegInfinity | NotANumber

  /**
   * `Math.ceil(a / b)`: for a non-zero divisor the least integer `n` with
   * `n >= a / b`; dividing by zero gives `Infinity`, `-Infinity` or `NaN`
   * according to the sign of `a`, and `Math.ceil` keeps those.
   */
  function CeilQuotient(a: real, b: real): (c: Count)
    ensures b != 0.0 ==> c.Finite? && c.n == Ceil(a / b)
    ensures b == 0.0 ==> (c == PosInfinity <==> a > 0.0) && (c == NotANumber <==> a == 0.0)
                         && (c == NegInfinity <==> a < 0.0)
  {
    if b != 0.0 then Finite(Ceil(a / b))
    else if a > 0.0 then PosInfinity
    else if a < 0.0 then NegInfinity
    else NotANumber
  }
}
