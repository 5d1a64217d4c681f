/** Quotients rounded up, and rounded to the nearest integer with halves to the even one. */
module Arithmetic {

  function RoundHalfEven(a: int, b: int): int
    requires b > 0
  {
    var q, r := a / b, a % b;
    if 2 * r < b || (2 * r == b && q % 2 == 0) then q else q + 1
  }

  /** The result is within one half of the quotient. */
  lemma RoundWithinHalf(a: int, b: int)
    requires b > 0
    ensures -b <= 2 * a - 2 * (b * RoundHalfEven(a, b)) <= b
  {
    var q := a / b;
    assert a == b * q + a % b;
    assert b * (q + 1) == b * q + b;
  }

  /** And at exactly one half the result is even. */
  lemma HalvesToEven(a: int, b: int)
    requires b > 0 && (2 * a - 2 * (b * RoundHalfEven(a, b)) == b || 2 * a - 2 * (b * RoundHalfEven(a, b)) == -b)
    ensures RoundHalfEven(a, b) % 2 == 0
  {
    var q := a / b;
    assert a == b * q + a % b;
    assert b * (q + 1) == b * q + b;
  }

  lemma {:induction false} MulCancel(a: int, b: int, d: int)
    requires d > 0 && d * a < d * b
    ensures a < b
  {
    if a >= b { MulMonotone(b, a, d); }
  }

  lemma MulMonotone(a: int, b: int, d: int)
    requires a <= b && d >= 0
    ensures d * a <= d * b
  {
    assert d * (b - a) >= 0;
  }

  lemma RoundExact(q: int, b: int)
    requires b > 0
    ensures RoundHalfEven(q * b, b) == q
  {
    RoundWithinHalf(q * b, b);
    var r := RoundHalfEven(q * b, b);
    assert b * (r + 1) == b * r + b && b * (q + 1) == b * q + b && q * b == b * q;
    if r < q {
      MulMonotone(r + 1, q, b);
    } else if q < r {
      MulMonotone(q + 1, r, b);
    }
  }

  /** Python's -(-a // b), and math.ceil of the quotient. */
  function CeilDiv(a: int, b: int): int
    requires b > 0
  {
    -((-a) / b)
  }

  lemma CeilDivPositive(a: int, b: int)
    requires a > 0 && b > 0
    ensures CeilDiv(a, b) >= 1
  {
    var q := (-a) / b;
    assert q * b <= -a;
    if q >= 0 { MulNonNegative(q, b); }
  }

  /** The least whole number that is not below the quotient. */
  lemma CeilDivMeaning(a: int, b: int)
    requires b > 0
    ensures b * (CeilDiv(a, b) - 1) < a <= b * CeilDiv(a, b)
  {
    var q := (-a) / b;
    assert b * (-q) == -(b * q) && b * (-q - 1) == -(b * q) - b;
  }

  lemma MulNonNegative(a: int, b: int)
    requires a >= 0 && b >= 0
    ensures a * b >= 0
  {}

  lemma CeilDivMonotone(a: int, b: int, d: int)
    requires a <= b && d > 0
    ensures CeilDiv(a, d) <= CeilDiv(b, d)
  {
    var p, q := (-b) / d, (-a) / d;
    assert p * d <= -b && -a < q * d + d;
    if p > q { MulMonotone(q + 1, p, d); }
  }
}
