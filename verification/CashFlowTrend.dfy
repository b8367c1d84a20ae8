/**
 * The trend of the cash-flow projection
 * (src/insights/cash-flow-projection/cash-flow-projection.service.ts): a least
 * squares line through the daily net amounts, on exact reals.
 */
module CashFlowTrend {
  import opened RealArithmetic
  import opened RealSums

  datatype DailyTotal = DailyTotal(day: int, income: real, expense: real)

  function Nets(data: seq<DailyTotal>): (ys: seq<real>)
    ensures |ys| == |data| && forall i :: 0 <= i < |data| ==> ys[i] == data[i].income - data[i].expense
  {
    seq(|data|, i requires 0 <= i < |data| => data[i].income - data[i].expense)
  }

  /** The positions 0, 1, ..., n - 1. */
  function Xs(n: nat): (xs: seq<real>)
    ensures |xs| == n && forall i :: 0 <= i < n ==> xs[i] == i as real
  {
    seq(n, i => i as real)
  }

  function Ones(n: nat): (r: seq<real>)
    ensures |r| == n && forall i :: 0 <= i < n ==> r[i] == 1.0
  {
    seq(n, _ => 1.0)
  }

  function SumX(n: nat): real {
    Sum(Xs(n))
  }

  function SumXX(n: nat): real {
    Sum(Products(Xs(n), Xs(n)))
  }

  function SumXY(ys: seq<real>): real {
    Sum(Products(Xs(|ys|), ys))
  }

  /** The quotient the service computes from its accumulators. */
  function DenominatorOf(n: real, sx: real, sxx: real): real {
    n * sxx - sx * sx
  }

  function SlopeOf(n: real, sx: real, sxx: real, sy: real, sxy: real): real
    requires DenominatorOf(n, sx, sxx) != 0.0
  {
    (n * sxy - sx * sy) / DenominatorOf(n, sx, sxx)
  }

  function InterceptOf(n: real, sx: real, sy: real, b: real): real
    requires n != 0.0
  {
    (sy - b * sx) / n
  }

  lemma {:induction false} SumOnes(n: nat)
    ensures Sum(Ones(n)) == n as real
  {
    if n > 0 {
      SumOnes(n - 1);
      assert Ones(n) == Ones(n - 1) + [1.0];
      SumAppend(Ones(n - 1), 1.0);
    }
  }

  lemma {:induction false} SumXStep(n: nat, x: real, xx: real)
    requires x == n as real && xx == Mul(x, x)
    ensures SumX(n + 1) == SumX(n) + x && SumXX(n + 1) == SumXX(n) + xx
  {
    assert Xs(n + 1) == Xs(n) + [x];
    SumAppend(Xs(n), x);
    ProductsAppend(Xs(n), Xs(n), x, x, xx);
    SumAppend(Products(Xs(n), Xs(n)), xx);
  }

  /** The sums of the first positions and of their squares, as integers. */
  function Triangle(n: nat): nat {
    if n == 0 then 0 else Triangle(n - 1) + (n - 1)
  }

  function Pyramid(n: nat): nat {
    if n == 0 then 0 else Pyramid(n - 1) + (n - 1) * (n - 1)
  }

  lemma {:induction false} TriangleClosed(n: nat)
    ensures 2 * Triangle(n) == n * (n - 1)
  {
    if n > 0 { TriangleClosed(n - 1); }
  }

  lemma {:induction false} PyramidClosed(n: nat)
    ensures 6 * Pyramid(n) == (n - 1) * n * (2 * n - 1)
  {
    if n > 0 {
      PyramidClosed(n - 1);
      PyramidStep(n - 1);
    }
  }

  lemma PyramidStep(k: int)
    ensures (k - 1) * k * (2 * k - 1) + 6 * (k * k) == k * (k + 1) * (2 * (k + 1) - 1)
  {
  }

  lemma SquareCast(k: int, x: real)
    requires x == k as real
    ensures (k * k) as real == Mul(x, x)
  {
  }

  lemma {:induction false} SumXIsTriangle(n: nat)
    ensures SumX(n) == Triangle(n) as real && SumXX(n) == Pyramid(n) as real
  {
    if n > 0 {
      var x := (n - 1) as real;
      SumXIsTriangle(n - 1);
      SumXStep(n - 1, x, Mul(x, x));
      SquareCast(n - 1, x);
    }
  }

  /** The closed forms of the sums of the first positions and of their squares. */
  ghost predicate ClosedForms(m: real, sx: real, sxx: real) {
    2.0 * sx == Mul(m, m - 1.0) && 6.0 * sxx == Mul(Mul(m - 1.0, m), 2.0 * m - 1.0)
  }

  lemma {:induction false} SumsClosed(n: nat, m: real, sx: real, sxx: real)
    requires m == n as real && sx == SumX(n) && sxx == SumXX(n)
    ensures ClosedForms(m, sx, sxx)
  {
    SumXIsTriangle(n);
    TriangleClosed(n);
    PyramidClosed(n);
    ClosedCast(n, Triangle(n), Pyramid(n), m, sx, sxx);
  }

  lemma ClosedCast(n: int, t: int, p: int, m: real, sx: real, sxx: real)
    requires m == n as real && sx == t as real && sxx == p as real
    requires 2 * t == n * (n - 1) && 6 * p == (n - 1) * n * (2 * n - 1)
    ensures ClosedForms(m, sx, sxx)
  {
    assert (n * (n - 1)) as real == m * (m - 1.0);
    assert ((n - 1) * n * (2 * n - 1)) as real == (m - 1.0) * m * (2.0 * m - 1.0);
  }

  /** The accumulated denominator is n²(n² - 1)/12, so the test for zero never fires. */
  lemma {:induction false} DenominatorPositive(n: nat, m: real, sx: real, sxx: real)
    requires n >= 2 && m == n as real && sx == SumX(n) && sxx == SumXX(n)
    ensures 12.0 * DenominatorOf(m, sx, sxx) == (m * m) * (m * m - 1.0)
    ensures DenominatorOf(m, sx, sxx) > 0.0
  {
    SumsClosed(n, m, sx, sxx);
    DenominatorArithmetic(m, sx, sxx);
  }

  lemma DenominatorArithmetic(m: real, sx: real, sxx: real)
    requires m >= 2.0 && ClosedForms(m, sx, sxx)
    ensures 12.0 * DenominatorOf(m, sx, sxx) == (m * m) * (m * m - 1.0)
    ensures DenominatorOf(m, sx, sxx) > 0.0
  {
    var t := m * (m - 1.0);
    assert 4.0 * (sx * sx) == t * t by { assert (2.0 * sx) * (2.0 * sx) == 4.0 * (sx * sx); }
    assert 12.0 * (m * sxx) == 2.0 * (m * (6.0 * sxx));
    assert 2.0 * (m * ((m - 1.0) * m * (2.0 * m - 1.0))) - 3.0 * (t * t) == (m * m) * (m * m - 1.0);
    SquareUp(1.0, m);
    MulOrderStrict(0.0, m * m, m * m - 1.0);
  }

  // The line.

  function Slope(ys: seq<real>): real
    requires |ys| >= 2
  {
    DenominatorPositive(|ys|, |ys| as real, SumX(|ys|), SumXX(|ys|));
    SlopeOf(|ys| as real, SumX(|ys|), SumXX(|ys|), Sum(ys), SumXY(ys))
  }

  function Intercept(ys: seq<real>): real
    requires |ys| >= 2
  {
    InterceptOf(|ys| as real, SumX(|ys|), Sum(ys), Slope(ys))
  }

  /** The distances of the values from the line a + b·i. */
  function Residuals(ys: seq<real>, a: real, b: real): (r: seq<real>)
    ensures |r| == |ys| && forall i :: 0 <= i < |ys| ==> r[i] == ys[i] - (a + Mul(b, i as real))
  {
    seq(|ys|, i requires 0 <= i < |ys| => ys[i] - (a + Mul(b, i as real)))
  }

  function Squares(rs: seq<real>): seq<real> {
    Products(rs, rs)
  }

  /** Sum of the squared residuals of the line a + b·i. */
  function Error(ys: seq<real>, a: real, b: real): real {
    Sum(Squares(Residuals(ys, a, b)))
  }

  lemma {:induction false} ResidualsExpand(ys: seq<real>, a: real, b: real)
    ensures Residuals(ys, a, b) == Add(ys, Add(Scale(-a, Ones(|ys|)), Scale(-b, Xs(|ys|))))
  {
    var rs, expanded := Residuals(ys, a, b), Add(ys, Add(Scale(-a, Ones(|ys|)), Scale(-b, Xs(|ys|))));
    forall i | 0 <= i < |ys| ensures rs[i] == expanded[i] {
      ResidualPoint(i as real, ys[i], a, b);
    }
  }

  lemma ResidualPoint(x: real, y: real, a: real, b: real)
    ensures y - (a + Mul(b, x)) == y + (Mul(-a, 1.0) + Mul(-b, x))
  {
    MulNegate(b, x);
  }

  lemma {:induction false} ResidualSum(ys: seq<real>, a: real, b: real, n: real, sx: real)
    requires n == |ys| as real && sx == SumX(|ys|)
    ensures Sum(Residuals(ys, a, b)) == Sum(ys) + (Mul(-a, n) + Mul(-b, sx))
  {
    var ones, xs := Ones(|ys|), Xs(|ys|);
    ResidualsExpand(ys, a, b);
    SumOnes(|ys|);
    SumScale(-a, ones, n);
    SumScale(-b, xs, sx);
    SumAdd(Scale(-a, ones), Scale(-b, xs));
    SumAdd(ys, Add(Scale(-a, ones), Scale(-b, xs)));
  }

  lemma {:induction false} WeightedResiduals(ys: seq<real>, a: real, b: real)
    ensures var xs := Xs(|ys|);
      Products(xs, Residuals(ys, a, b)) == Add(Products(xs, ys), Add(Scale(-a, xs), Scale(-b, Products(xs, xs))))
  {
    var xs := Xs(|ys|);
    var weighted := Products(xs, Residuals(ys, a, b));
    var expanded := Add(Products(xs, ys), Add(Scale(-a, xs), Scale(-b, Products(xs, xs))));
    forall i | 0 <= i < |ys| ensures weighted[i] == expanded[i] {
      WeightedPoint(xs[i], ys[i], a, b);
    }
  }

  lemma WeightedPoint(x: real, y: real, a: real, b: real)
    ensures Mul(x, y - (a + Mul(b, x))) == Mul(x, y) + (Mul(-a, x) + Mul(-b, Mul(x, x)))
  {
    var bx := b * x;
    assert x * (y - (a + bx)) == x * y - x * a - x * bx;
    assert x * bx == b * (x * x);
  }

  lemma {:induction false} WeightedSum(ys: seq<real>, a: real, b: real, sx: real, sxx: real)
    requires sx == SumX(|ys|) && sxx == SumXX(|ys|)
    ensures Sum(Products(Xs(|ys|), Residuals(ys, a, b))) == SumXY(ys) + (Mul(-a, sx) + Mul(-b, sxx))
  {
    var xs := Xs(|ys|);
    var xx := Products(xs, xs);
    WeightedResiduals(ys, a, b);
    SumScale(-a, xs, sx);
    SumScale(-b, xx, sxx);
    SumAdd(Scale(-a, xs), Scale(-b, xx));
    SumAdd(Products(xs, ys), Add(Scale(-a, xs), Scale(-b, xx)));
  }

  /** The residuals of the least squares line sum to zero, also when weighted by position. */
  lemma {:induction false} NormalEquations(ys: seq<real>)
    requires |ys| >= 2
    ensures Sum(Residuals(ys, Intercept(ys), Slope(ys))) == 0.0
    ensures Sum(Products(Xs(|ys|), Residuals(ys, Intercept(ys), Slope(ys)))) == 0.0
  {
    var n, sx, sxx, sy, sxy := |ys| as real, SumX(|ys|), SumXX(|ys|), Sum(ys), SumXY(ys);
    var a, b := Intercept(ys), Slope(ys);
    DenominatorPositive(|ys|, n, sx, sxx);
    ResidualSum(ys, a, b, n, sx);
    WeightedSum(ys, a, b, sx, sxx);
    NormalScalars(n, sx, sxx, sy, sxy, a, b);
  }

  lemma NormalScalars(n: real, sx: real, sxx: real, sy: real, sxy: real, a: real, b: real)
    requires n > 0.0 && DenominatorOf(n, sx, sxx) > 0.0
    requires b == SlopeOf(n, sx, sxx, sy, sxy) && a == InterceptOf(n, sx, sy, b)
    ensures sy + (Mul(-a, n) + Mul(-b, sx)) == 0.0
    ensures sxy + (Mul(-a, sx) + Mul(-b, sxx)) == 0.0
  {
    var den, num := DenominatorOf(n, sx, sxx), n * sxy - sx * sy;
    DivMul(num, den);
    DivMul(sy - b * sx, n);
    NormalArithmetic(n, sx, sxx, sy, sxy, a, b, den);
    assert (-a) * n == -(a * n) && (-b) * sx == -(b * sx);
    assert (-a) * sx == -(a * sx) && (-b) * sxx == -(b * sxx);
  }

  lemma NormalArithmetic(n: real, sx: real, sxx: real, sy: real, sxy: real, a: real, b: real, den: real)
    requires n > 0.0 && den == n * sxx - sx * sx
    requires b * den == n * sxy - sx * sy && a * n == sy - b * sx
    ensures sy - a * n - b * sx == 0.0
    ensures sxy - a * sx - b * sxx == 0.0
  {
    var r := sxy - a * sx - b * sxx;
    assert b * den == b * (n * sxx) - b * (sx * sx);
    assert n * (a * sx) == (a * n) * sx;
    assert (a * n) * sx == sy * sx - (b * sx) * sx;
    assert (b * sx) * sx == b * (sx * sx);
    assert n * (b * sxx) == b * (n * sxx);
    assert n * r == n * sxy - n * (a * sx) - n * (b * sxx);
    assert n * r == 0.0;
    if r > 0.0 { MulOrderStrict(0.0, r, n); }
    if r < 0.0 { MulOrderStrict(r, 0.0, n); }
  }

  /** The heights of the line d + e·i. */
  function Heights(n: nat, d: real, e: real): (hs: seq<real>)
    ensures |hs| == n && forall i :: 0 <= i < n ==> hs[i] == d + Mul(e, i as real)
  {
    seq(n, i => d + Mul(e, i as real))
  }

  /** Moving a line whose residuals cancel by d + e·i adds the squares of the move. */
  lemma {:induction false} MovedLine(ys: seq<real>, a: real, b: real, a': real, b': real, d: real, e: real)
    requires a' == a - d && b' == b - e
    requires Sum(Residuals(ys, a, b)) == 0.0 && Sum(Products(Xs(|ys|), Residuals(ys, a, b))) == 0.0
    ensures Error(ys, a', b') == Error(ys, a, b) + Sum(Squares(Heights(|ys|, d, e)))
  {
    var rs, hs, xs := Residuals(ys, a, b), Heights(|ys|, d, e), Xs(|ys|);
    var xr, d2, e2 := Products(xs, rs), 2.0 * d, 2.0 * e;
    MovedSquares(ys, a, b, a', b', d, e);
    CancellingScales(rs, xr, d2, e2);
    MovedSum(Squares(Residuals(ys, a', b')), Squares(rs), Squares(hs), Add(Scale(d2, rs), Scale(e2, xr)));
  }

  lemma {:induction false} MovedSum(ts: seq<real>, us: seq<real>, vs: seq<real>, ws: seq<real>)
    requires |us| == |vs| == |ws| && ts == Add(Add(us, vs), ws) && Sum(ws) == 0.0
    ensures Sum(ts) == Sum(us) + Sum(vs)
  {
    SumAdd(us, vs);
    SumAdd(Add(us, vs), ws);
  }

  lemma {:induction false} CancellingScales(us: seq<real>, vs: seq<real>, c: real, d: real)
    requires |us| == |vs| && Sum(us) == 0.0 && Sum(vs) == 0.0
    ensures Sum(Add(Scale(c, us), Scale(d, vs))) == 0.0
  {
    SumScale(c, us, 0.0);
    SumScale(d, vs, 0.0);
    MulZero(c, 0.0);
    MulZero(d, 0.0);
    SumAdd(Scale(c, us), Scale(d, vs));
  }

  lemma {:induction false} MovedSquares(ys: seq<real>, a: real, b: real, a': real, b': real, d: real, e: real)
    requires a' == a - d && b' == b - e
    ensures var rs, hs := Residuals(ys, a, b), Heights(|ys|, d, e);
      Squares(Residuals(ys, a', b')) ==
      Add(Add(Squares(rs), Squares(hs)), Add(Scale(2.0 * d, rs), Scale(2.0 * e, Products(Xs(|ys|), rs))))
  {
    var rs, rs', hs, xs := Residuals(ys, a, b), Residuals(ys, a', b'), Heights(|ys|, d, e), Xs(|ys|);
    var moved := Squares(rs');
    var expanded := Add(Add(Squares(rs), Squares(hs)), Add(Scale(2.0 * d, rs), Scale(2.0 * e, Products(xs, rs))));
    forall i | 0 <= i < |ys| ensures moved[i] == expanded[i] {
      MovedResidual(ys[i], xs[i], a, b, a', b', d, e);
      MovedSquare(xs[i], rs[i], rs'[i], d, e, hs[i]);
    }
  }

  lemma MovedResidual(y: real, x: real, a: real, b: real, a': real, b': real, d: real, e: real)
    requires a' == a - d && b' == b - e
    ensures y - (a' + Mul(b', x)) == (y - (a + Mul(b, x))) + (d + Mul(e, x))
  {
    assert b' * x == b * x - e * x;
  }

  lemma MovedSquare(x: real, r: real, r': real, d: real, e: real, h: real)
    requires h == d + Mul(e, x) && r' == r + h
    ensures Mul(r', r') == (Mul(r, r) + Mul(h, h)) + (Mul(2.0 * d, r) + Mul(2.0 * e, Mul(x, r)))
  {
    var ex := e * x;
    assert r' * r' == r * r + h * h + 2.0 * (h * r);
    assert h * r == d * r + ex * r;
    assert ex * r == e * (x * r);
  }

  lemma {:induction false} HeightsPositive(n: nat, d: real, e: real)
    requires n >= 2 && (d != 0.0 || e != 0.0)
    ensures Sum(Squares(Heights(n, d, e))) > 0.0
  {
    MulZero(e, 0.0);
    assert Mul(e, 1.0) == e;
    SquaresPositive(Heights(n, d, e), if d != 0.0 then 0 else 1);
  }

  /** Every other line has a larger sum of squared residuals. */
  lemma {:induction false} LeastSquares(ys: seq<real>, a: real, b: real)
    requires |ys| >= 2
    ensures (a == Intercept(ys) && b == Slope(ys)) || Error(ys, Intercept(ys), Slope(ys)) < Error(ys, a, b)
  {
    var a0, b0 := Intercept(ys), Slope(ys);
    NormalEquations(ys);
    hide Intercept, Slope, Error;
    MovedLine(ys, a0, b0, a, b, a0 - a, b0 - b);
    if a != a0 || b != b0 { HeightsPositive(|ys|, a0 - a, b0 - b); }
  }

  /** On values that lie on a line, the slope and the intercept are that line's. */
  lemma {:induction false} SlopeOfLine(ys: seq<real>, a: real, b: real)
    requires |ys| >= 2 && forall i :: 0 <= i < |ys| ==> ys[i] == a + Mul(b, i as real)
    ensures Slope(ys) == b && Intercept(ys) == a
  {
    SquaresZero(Residuals(ys, a, b));
    SquaresNonNegative(Residuals(ys, Intercept(ys), Slope(ys)));
    LeastSquares(ys, a, b);
  }

  /** The slope relative to the mean, in hundredths; a zero mean counts as one. */
  function Trend(data: seq<DailyTotal>): real {
    if |data| < 2 then 0.0
    else
      var ys := Nets(data);
      var mean := Sum(ys) / |ys| as real;
      Slope(ys) / (if mean == 0.0 then 1.0 else mean) * 0.01
  }

  /**
   * Of net amounts that lie on a line, the trend is a hundredth of the line's slope over their mean, or
   * of the slope itself if the mean is zero; a single day has no trend.
   */
  lemma TrendOfLine(data: seq<DailyTotal>, a: real, b: real, mean: real)
    requires |data| >= 2 && mean * |data| as real == Sum(Nets(data))
    requires forall i :: 0 <= i < |data| ==> data[i].income - data[i].expense == a + Mul(b, i as real)
    ensures mean != 0.0 ==> Trend(data) * (100.0 * mean) == b
    ensures mean == 0.0 ==> Trend(data) * 100.0 == b
  {
    hide Slope, Intercept, Sum, Nets;
    SlopeOfLine(Nets(data), a, b);
    MeanIs(Sum(Nets(data)), |data| as real, mean);
    if mean != 0.0 { Relative(b, mean); }
  }

  lemma OneDayHasNoTrend(data: seq<DailyTotal>)
    requires |data| < 2
    ensures Trend(data) == 0.0
  {
  }

  lemma Relative(b: real, mean: real)
    requires mean != 0.0
    ensures b / mean * 0.01 * (100.0 * mean) == b
  {
    assert b / mean * mean == b;
  }

  lemma MeanIs(sum: real, n: real, mean: real)
    requires n > 0.0 && mean * n == sum
    ensures sum / n == mean
  {
  }

  lemma {:induction false} PrefixSums(ys: seq<real>, i: nat, x: real, xy: real)
    requires i < |ys| && x == i as real && xy == Mul(x, ys[i])
    ensures Sum(ys[..i + 1]) == Sum(ys[..i]) + ys[i]
    ensures SumXY(ys[..i + 1]) == SumXY(ys[..i]) + xy
  {
    assert ys[..i + 1] == ys[..i] + [ys[i]];
    SumAppend(ys[..i], ys[i]);
    assert Xs(i + 1) == Xs(i) + [x];
    ProductsAppend(Xs(i), ys[..i], x, ys[i], xy);
    SumAppend(Products(Xs(i), ys[..i]), xy);
  }

  /** The last steps of the trend: the denominator, its test, and the quotient. */
  method AccumulatedSlope(n: real, sumX: real, sumXX: real, sumY: real, sumXY: real) returns (slope: real)
    requires DenominatorOf(n, sumX, sumXX) > 0.0
    ensures slope == SlopeOf(n, sumX, sumXX, sumY, sumXY)
  {
    var denominator := n * sumXX - sumX * sumX;
    if denominator == 0.0 { assert false; }
    slope := (n * sumXY - sumX * sumY) / denominator;
  }

  /** The four accumulators of the loop. */
  method Accumulate(ys: seq<real>) returns (sumX: real, sumY: real, sumXY: real, sumXX: real)
    ensures sumX == SumX(|ys|) && sumXX == SumXX(|ys|) && sumY == Sum(ys) && sumXY == SumXY(ys)
  {
    sumX, sumY, sumXY, sumXX := 0.0, 0.0, 0.0, 0.0;
    for i := 0 to |ys|
      invariant sumX == SumX(i) && sumXX == SumXX(i)
      invariant sumY == Sum(ys[..i]) && sumXY == SumXY(ys[..i])
    {
      var x, val := i as real, ys[i];
      SumXStep(i, x, Mul(x, x));
      PrefixSums(ys, i, x, Mul(x, val));
      sumX := sumX + x;
      sumY := sumY + val;
      sumXY := sumXY + Mul(x, val);
      sumXX := sumXX + Mul(x, x);
    }
    assert ys[..|ys|] == ys;
  }

  method CalculateTrend(data: seq<DailyTotal>) returns (trend: real)
    ensures trend == Trend(data)
  {
    if |data| < 2 { return 0.0; }
    var n := |data|;
    var ys := Nets(data);
    var sumX, sumY, sumXY, sumXX := Accumulate(ys);
    DenominatorPositive(n, n as real, sumX, sumXX);
    var slope := AccumulatedSlope(n as real, sumX, sumXX, sumY, sumXY);
    var mean := sumY / n as real;
    trend := slope / (if mean == 0.0 then 1.0 else mean) * 0.01;
  }
}
