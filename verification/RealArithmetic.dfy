/** Products of reals, one step at a time. */
module RealArithmetic {

  /** The product, as a function of its own so that equal arguments give equal terms. */
  function Mul(a: real, b: real): real {
    a * b
  }

  function Abs(x: real): real {
    if x < 0.0 then -x else x
  }

  lemma MulZero(a: real, b: real)
    requires b == 0.0
    ensures Mul(a, b) == 0.0
  {
  }

  lemma MulNegate(a: real, b: real)
    ensures Mul(-a, b) == -Mul(a, b)
  {
  }

  lemma MulDistribute(c: real, s: real, t: real, sum: real)
    requires sum == s + t
    ensures Mul(c, sum) == Mul(c, s) + Mul(c, t)
  {
    Distribute(c, s, t, sum);
  }

  lemma PositiveProduct(a: real, b: real, r: real)
    requires a > 0.0 && b > 0.0 && r == a * b
    ensures r > 0.0
  {
  }

  lemma MulSquare(a: real)
    ensures Mul(a, a) >= 0.0
    ensures a != 0.0 ==> Mul(a, a) > 0.0
    ensures a == 0.0 ==> Mul(a, a) == 0.0
  {
    if a > 0.0 { PositiveProduct(a, a, Mul(a, a)); }
    if a < 0.0 { PositiveProduct(-a, -a, Mul(a, a)); }
    if a == 0.0 { MulZero(a, a); }
  }

  lemma MulOrder(a: real, b: real, v: real)
    requires a <= b && v >= 0.0
    ensures a * v <= b * v
  {
  }

  lemma MulOrderStrict(a: real, b: real, v: real)
    requires a < b && v > 0.0
    ensures a * v < b * v
  {
  }

  lemma MulCancel(a: real, b: real, v: real)
    requires v > 0.0 && a * v < b * v
    ensures a < b
  {
    if a >= b { MulOrder(b, a, v); }
  }

  lemma MulCancelWeak(a: real, b: real, v: real)
    requires v > 0.0 && v * a <= v * b
    ensures a <= b
  {
    if a > b { MulOrderStrict(b, a, v); }
  }

  lemma MulSucc(k: real, k': real, w: real)
    requires k' == k + 1.0
    ensures k' * w == k * w + w
  {
  }

  lemma SquareNonNegative(a: real)
    ensures a * a >= 0.0
  {
    if a >= 0.0 { MulOrder(0.0, a, a); } else { MulOrder(0.0, -a, -a); }
  }

  lemma SquareUp(a: real, b: real)
    requires 0.0 <= a < b
    ensures a * a < b * b
  {
    MulOrderStrict(0.0, b - a, b + a);
    assert b * b - a * a == (b - a) * (b + a);
  }

  lemma SquareOrder(a: real, b: real)
    requires a >= 0.0 && b >= 0.0
    ensures a < b <==> a * a < b * b
  {
    if a < b { SquareUp(a, b); } else if b < a { SquareUp(b, a); }
  }

  lemma SquareOfProduct(a: real, b: real)
    ensures (a * b) * (a * b) == (a * a) * (b * b)
  {
    assert (a * b) * (a * b) == a * (b * (a * b));
    assert b * (a * b) == a * (b * b);
  }

  lemma Distribute(d: real, s: real, r: real, t: real)
    requires t == s + r
    ensures d * t == d * s + d * r
  {
  }

  lemma DivMul(a: real, b: real)
    requires b != 0.0
    ensures (a / b) * b == a
  {
  }
}
