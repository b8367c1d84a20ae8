/**
 * The two statistical outlier filters
 * (src/insights/anomaly-detection/anomaly-detection.service.ts and
 * src/modules/analytics/anomaly-detection.service.ts), on exact reals. The
 * square root is the runtime's: the standard deviation comes in as a parameter,
 * the non-negative number whose square is the variance.
 */
module AnomalyStatistics {
  import opened RealArithmetic
  import opened RealSums

  function SumSquares(ds: seq<real>): real {
    if ds == [] then 0.0 else SumSquares(ds[..|ds| - 1]) + ds[|ds| - 1] * ds[|ds| - 1]
  }

  function Mean(xs: seq<real>): real
    requires xs != []
  {
    Sum(xs) / |xs| as real
  }

  /** Each value less m. */
  function Shift(xs: seq<real>, m: real): (ds: seq<real>)
    ensures |ds| == |xs| && forall i :: 0 <= i < |xs| ==> ds[i] == xs[i] - m
  {
    seq(|xs|, i requires 0 <= i < |xs| => xs[i] - m)
  }

  function Deviations(xs: seq<real>): seq<real>
    requires xs != []
  {
    Shift(xs, Mean(xs))
  }

  function Variance(xs: seq<real>): real
    requires xs != []
  {
    SumSquares(Deviations(xs)) / |xs| as real
  }

  /** The positions of the deviations beyond the limit, in order. */
  function Beyond(ds: seq<real>, limit: real): seq<nat> {
    if ds == [] then []
    else
      var n := |ds| - 1;
      if Abs(ds[n]) > limit then Beyond(ds[..n], limit) + [n] else Beyond(ds[..n], limit)
  }

  lemma {:induction false} BeyondExactly(ds: seq<real>, limit: real)
    ensures forall i :: i in Beyond(ds, limit) <==> 0 <= i < |ds| && Abs(ds[i]) > limit
  {
    if ds != [] { BeyondExactly(ds[..|ds| - 1], limit); }
  }

  datatype Severity = LOW | MEDIUM | CRITICAL

  function GetSeverity(z: real): Severity {
    if z > 5.0 then CRITICAL else if z > 3.0 then MEDIUM else LOW
  }

  ghost predicate IsDeviation(xs: seq<real>, sigma: real)
    requires xs != []
  {
    sigma >= 0.0 && sigma * sigma == Variance(xs)
  }

  /** A zero deviation is replaced by one. */
  function Divisor(sigma: real): real {
    if sigma == 0.0 then 1.0 else sigma
  }

  const MIN_SAMPLE := 5

  /** The insights detector: the positions of the anomalous transactions. */
  function DetectAnomalies(amounts: seq<real>, sigma: real): seq<nat> {
    if |amounts| < MIN_SAMPLE then [] else Beyond(Deviations(amounts), 2.0 * Divisor(sigma))
  }

  function DeviationScore(amounts: seq<real>, sigma: real, i: nat): real
    requires i < |amounts|
  {
    Abs(Deviations(amounts)[i]) / Divisor(sigma)
  }

  /** The anomalies are the positions whose score exceeds two, in samples of at least five. */
  lemma {:induction false} AnomaliesExactly(amounts: seq<real>, sigma: real)
    requires sigma >= 0.0
    ensures |amounts| < MIN_SAMPLE ==> DetectAnomalies(amounts, sigma) == []
    ensures |amounts| >= MIN_SAMPLE ==>
      forall i :: i in DetectAnomalies(amounts, sigma) <==>
        0 <= i < |amounts| && DeviationScore(amounts, sigma, i) > 2.0
  {
    if |amounts| >= MIN_SAMPLE {
      BeyondExactly(Deviations(amounts), 2.0 * Divisor(sigma));
      forall i | 0 <= i < |amounts|
        ensures DeviationScore(amounts, sigma, i) > 2.0 <==> Abs(Deviations(amounts)[i]) > 2.0 * Divisor(sigma)
      {
        QuotientOrder(Abs(Deviations(amounts)[i]), Divisor(sigma), 2.0);
      }
    }
  }

  function ZScore(amounts: seq<real>, sigma: real, i: nat): real
    requires i < |amounts|
  {
    if sigma == 0.0 then 0.0 else Abs(Deviations(amounts)[i] / sigma)
  }

  /** The analytics detector, which runs on samples of at least thirty. */
  function DetectZScoreOutliers(amounts: seq<real>, sigma: real): seq<nat>
    requires amounts != []
  {
    if sigma == 0.0 then [] else Beyond(Deviations(amounts), 2.5 * sigma)
  }

  /** The positions whose score exceeds the threshold. */
  lemma {:induction false} ZScoreOutliersExactly(amounts: seq<real>, sigma: real)
    requires amounts != [] && sigma >= 0.0
    ensures forall i :: i in DetectZScoreOutliers(amounts, sigma) <==>
      0 <= i < |amounts| && ZScore(amounts, sigma, i) > 2.5
  {
    if sigma != 0.0 {
      BeyondExactly(Deviations(amounts), 2.5 * sigma);
      forall i | 0 <= i < |amounts|
        ensures ZScore(amounts, sigma, i) > 2.5 <==> Abs(Deviations(amounts)[i]) > 2.5 * sigma
      {
        QuotientAbove(Deviations(amounts)[i], sigma, 2.5);
      }
    }
  }

  lemma QuotientAbove(d: real, s: real, c: real)
    requires s > 0.0
    ensures Abs(d / s) == Abs(d) / s
    ensures Abs(d) / s > c <==> Abs(d) > c * s
  {
    var q := d / s;
    DivMul(d, s);
    if q < 0.0 { MulOrderStrict(q, 0.0, s); } else { MulOrder(0.0, q, s); }
    QuotientOrder(Abs(d), s, c);
    assert (-d) / s == -(d / s) by { DivMul(-d, s); assert (-q) * s == -(q * s); DivUnique(-d, s, -q); }
  }

  lemma DivUnique(a: real, b: real, q: real)
    requires b > 0.0 && q * b == a
    ensures a / b == q
  {
  }

  lemma QuotientOrder(d: real, s: real, c: real)
    requires s > 0.0
    ensures d / s > c <==> d > c * s
  {
    DivMul(d, s);
    if d / s > c { MulOrderStrict(c, d / s, s); } else { MulOrder(d / s, c, s); }
  }

  // At most one value in four, or four in twenty-five, is an outlier.

  lemma {:induction false} SumSquaresNonNegative(ds: seq<real>)
    ensures SumSquares(ds) >= 0.0
  {
    if ds != [] {
      SumSquaresNonNegative(ds[..|ds| - 1]);
      SquareNonNegative(ds[|ds| - 1]);
    }
  }

  lemma BeyondSquared(d: real, limit: real)
    requires limit >= 0.0
    ensures Abs(d) > limit <==> d * d > limit * limit
  {
    SquareOrder(limit, Abs(d));
  }

  /** A weight for each deviation beyond the limit. */
  function Weight(ds: seq<real>, limit: real, w: real): real {
    if ds == [] then 0.0
    else Weight(ds[..|ds| - 1], limit, w) + if Abs(ds[|ds| - 1]) > limit then w else 0.0
  }

  /** The weight w taken k times. */
  function Times(k: nat, w: real): real {
    if k == 0 then 0.0 else Times(k - 1, w) + w
  }

  lemma {:induction false} TimesIsProduct(k: nat, w: real)
    ensures Times(k, w) == k as real * w
  {
    if k > 0 {
      TimesIsProduct(k - 1, w);
      MulSucc((k - 1) as real, k as real, w);
    }
  }

  lemma {:induction false} WeightIsTimes(ds: seq<real>, limit: real, w: real)
    ensures Weight(ds, limit, w) == Times(|Beyond(ds, limit)|, w)
  {
    if ds != [] { WeightIsTimes(ds[..|ds| - 1], limit, w); }
  }

  lemma {:induction false} WeightIsProduct(ds: seq<real>, limit: real, w: real, k: real)
    requires k == |Beyond(ds, limit)| as real
    ensures Weight(ds, limit, w) == k * w
  {
    WeightIsTimes(ds, limit, w);
    TimesIsProduct(|Beyond(ds, limit)|, w);
  }

  /** Each deviation beyond the limit contributes more than the squared limit to the sum of squares. */
  lemma {:induction false} BeyondWeighs(ds: seq<real>, limit: real, w: real)
    requires limit >= 0.0 && w == limit * limit
    ensures Weight(ds, limit, w) <= SumSquares(ds)
    ensures Beyond(ds, limit) != [] ==> Weight(ds, limit, w) < SumSquares(ds)
  {
    if ds != [] {
      BeyondWeighs(ds[..|ds| - 1], limit, w);
      BeyondSquared(ds[|ds| - 1], limit);
      SquareNonNegative(ds[|ds| - 1]);
    }
  }

  /** Fewer than n / c² of n values lie more than c standard deviations from the mean. */
  lemma {:induction false} OutliersRare(xs: seq<real>, sigma: real, c: real, limit: real, k: real)
    requires xs != [] && IsDeviation(xs, sigma) && c > 0.0 && limit == c * sigma
    requires k == |Beyond(Deviations(xs), limit)| as real
    ensures c * c * k < |xs| as real
  {
    var v, w, cc := Variance(xs), limit * limit, c * c;
    ScaledSquare(c, sigma, limit, cc, v);
    VarianceNonNegative(xs);
    var sum, n := SumSquares(Deviations(xs)), |xs| as real;
    DivMul(sum, n);
    RareDeviations(Deviations(xs), limit, w, k, cc, v, n, sum);
  }

  lemma ScaledSquare(c: real, sigma: real, limit: real, cc: real, v: real)
    requires c >= 0.0 && sigma >= 0.0 && limit == c * sigma && cc == c * c && v == sigma * sigma
    ensures limit >= 0.0 && cc >= 0.0 && limit * limit == cc * v
  {
    MulOrder(0.0, c, sigma);
    MulOrder(0.0, c, c);
    SquareOfProduct(c, sigma);
  }

  lemma {:induction false} RareDeviations(ds: seq<real>, limit: real, w: real, k: real, cc: real, v: real,
          n: real, sum: real)
    requires limit >= 0.0 && w == limit * limit && w == cc * v && cc >= 0.0 && v >= 0.0 && n > 0.0
    requires k == |Beyond(ds, limit)| as real && sum == SumSquares(ds) && sum == v * n
    ensures cc * k < n
  {
    BeyondWeighs(ds, limit, w);
    WeightIsProduct(ds, limit, w, k);
    assert k > 0.0 ==> k * w < sum;
    RareArithmetic(k, cc, v, n, w, sum);
  }

  lemma RareArithmetic(k: real, cc: real, v: real, n: real, w: real, sum: real)
    requires k >= 0.0 && cc >= 0.0 && n > 0.0 && v >= 0.0 && sum == v * n && w == cc * v
    requires k > 0.0 ==> k * w < sum
    ensures cc * k < n
  {
    if k > 0.0 {
      assert k * (cc * v) == (cc * k) * v;
      assert v * n == n * v;
      if v > 0.0 { MulCancel(cc * k, n, v); }
    }
  }

  /** Fewer than a quarter of the sample is anomalous. */
  lemma {:induction false} AnomaliesRare(amounts: seq<real>, sigma: real)
    requires amounts != [] && IsDeviation(amounts, sigma)
    ensures 4 * |DetectAnomalies(amounts, sigma)| < |amounts|
  {
    if sigma == 0.0 {
      NothingBeyondWithoutDeviation(amounts, 2.0);
    } else {
      OutliersRare(amounts, sigma, 2.0, 2.0 * sigma, |Beyond(Deviations(amounts), 2.0 * sigma)| as real);
    }
  }

  /** Fewer than four in twenty-five are outliers for the analytics detector. */
  lemma {:induction false} ZScoreOutliersRare(amounts: seq<real>, sigma: real)
    requires amounts != [] && IsDeviation(amounts, sigma)
    ensures 25 * |DetectZScoreOutliers(amounts, sigma)| < 4 * |amounts|
  {
    if sigma != 0.0 {
      OutliersRare(amounts, sigma, 2.5, 2.5 * sigma, |Beyond(Deviations(amounts), 2.5 * sigma)| as real);
    }
  }

  lemma {:induction false} NothingBeyondWithoutDeviation(xs: seq<real>, limit: real)
    requires xs != [] && Variance(xs) == 0.0 && limit > 0.0
    ensures Beyond(Deviations(xs), limit) == []
  {
    var ds := Deviations(xs);
    var k, w := |Beyond(ds, limit)| as real, limit * limit;
    DivMul(SumSquares(ds), |xs| as real);
    SquareNonNegative(limit);
    BeyondWeighs(ds, limit, w);
    WeightIsProduct(ds, limit, w, k);
    MulOrder(0.0, k, w);
  }

  // How far a single value can be.

  lemma {:induction false} SumSplit(a: seq<real>, b: seq<real>)
    ensures Sum(a + b) == Sum(a) + Sum(b)
    ensures SumSquares(a + b) == SumSquares(a) + SumSquares(b)
    decreases |b|
  {
    if b == [] {
      assert a + b == a;
    } else {
      var n := |b| - 1;
      assert (a + b)[..|a + b| - 1] == a + b[..n];
      SumSplit(a, b[..n]);
    }
  }

  lemma SumOne(x: real)
    ensures Sum([x]) == x && SumSquares([x]) == x * x
  {
    assert [x][..0] == [];
  }

  lemma {:induction false} SplitOne(ds: seq<real>, i: nat)
    requires i < |ds|
    ensures Sum(ds) == Sum(ds[..i] + ds[i + 1..]) + ds[i]
    ensures SumSquares(ds) == SumSquares(ds[..i] + ds[i + 1..]) + ds[i] * ds[i]
  {
    hide Sum, SumSquares;
    var one := [ds[i]];
    SumOne(ds[i]);
    assert ds == ds[..i] + (one + ds[i + 1..]);
    SumSplit(ds[..i], one + ds[i + 1..]);
    SumSplit(one, ds[i + 1..]);
    SumSplit(ds[..i], ds[i + 1..]);
  }

  lemma {:induction false} SumShift(xs: seq<real>, m: real)
    ensures Sum(Shift(xs, m)) == Sum(xs) - |xs| as real * m
  {
    if xs != [] {
      var k := |xs| - 1;
      assert Shift(xs, m)[..k] == Shift(xs[..k], m);
      SumShift(xs[..k], m);
      assert |xs| as real * m == k as real * m + m;
    }
  }

  lemma {:induction false} DeviationsCancel(xs: seq<real>)
    requires xs != []
    ensures Sum(Deviations(xs)) == 0.0
  {
    SumShift(xs, Mean(xs));
    DivMul(Sum(xs), |xs| as real);
  }

  /** The square of a sum of n terms is at most n times the sum of their squares. */
  lemma {:induction false} Cauchy(ds: seq<real>)
    ensures Sum(ds) * Sum(ds) <= |ds| as real * SumSquares(ds)
  {
    if ds != [] {
      var k := |ds| - 1;
      Cauchy(ds[..k]);
      SumSquaresNonNegative(ds[..k]);
      CauchyStep(k as real, Sum(ds[..k]), SumSquares(ds[..k]), ds[k]);
    }
  }

  lemma CauchyStep(n: real, s: real, q: real, d: real)
    requires n >= 0.0 && s * s <= n * q && q >= 0.0
    ensures (s + d) * (s + d) <= (n + 1.0) * (q + d * d)
  {
    assert (s + d) * (s + d) == s * s + 2.0 * (s * d) + d * d;
    assert (n + 1.0) * (q + d * d) == n * q + n * (d * d) + q + d * d;
    if n == 0.0 {
      SquareZero(s);
      assert s * d == 0.0;
    } else {
      CauchyGap(n, s, q, d);
    }
  }

  lemma SquareZero(s: real)
    requires s * s <= 0.0
    ensures s == 0.0
  {
    if s > 0.0 { SquareUp(0.0, s); }
    if s < 0.0 { SquareUp(0.0, -s); }
  }

  lemma CauchyGap(n: real, s: real, q: real, d: real)
    requires n > 0.0 && s * s <= n * q
    ensures n * (d * d) + q - 2.0 * (s * d) >= 0.0
  {
    var gap := n * (d * d) + q - 2.0 * (s * d);
    SquareNonNegative(n * d - s);
    GapExpansion(n, s, d);
    assert n * gap == n * (n * (d * d)) + n * q - 2.0 * (n * (s * d));
    MulCancelWeak(0.0, gap, n);
  }

  lemma GapExpansion(n: real, s: real, d: real)
    ensures (n * d - s) * (n * d - s) == n * (n * (d * d)) - 2.0 * (n * (s * d)) + s * s
  {
    var nd := n * d;
    assert (nd - s) * (nd - s) == nd * nd - 2.0 * (nd * s) + s * s;
    assert nd * nd == n * (n * (d * d)) by { SquareOfProduct(n, d); }
    assert nd * s == n * (s * d);
  }

  /** No value is farther from the mean than the square root of n - 1 standard deviations. */
  lemma {:induction false} DistanceBound(xs: seq<real>, i: nat, k: real)
    requires i < |xs| && k == (|xs| - 1) as real
    ensures Deviations(xs)[i] * Deviations(xs)[i] <= k * Variance(xs)
  {
    var n, v, sum := |xs| as real, Variance(xs), SumSquares(Deviations(xs));
    DeviationsCancel(xs);
    DivMul(sum, n);
    CancellingBound(Deviations(xs), i, n, k, v, sum);
  }

  lemma {:induction false} CancellingBound(ds: seq<real>, i: nat, n: real, k: real, v: real, sum: real)
    requires i < |ds| && n == |ds| as real && k == (|ds| - 1) as real
    requires Sum(ds) == 0.0 && sum == SumSquares(ds) && v * n == sum
    ensures ds[i] * ds[i] <= k * v
  {
    var others := ds[..i] + ds[i + 1..];
    SplitOne(ds, i);
    var s, q := Sum(others), SumSquares(others);
    Cauchy(others);
    assert |others| as real == k;
    DistanceArithmetic(n, k, ds[i], s, q, v);
  }

  lemma DistanceArithmetic(n: real, k: real, d: real, s: real, q: real, v: real)
    requires n >= 1.0 && k == n - 1.0 && s == -d && s * s <= k * q && v * n == q + d * d
    ensures d * d <= k * v
  {
    var dd := d * d;
    assert s * s == dd;
    assert k * q == k * (v * n) - k * dd;
    assert n * dd == k * dd + dd;
    assert k * (v * n) == n * (k * v);
    MulCancelWeak(dd, k * v, n);
  }

  function Zeros(n: nat): (r: seq<real>)
    ensures |r| == n && forall i :: 0 <= i < n ==> r[i] == 0.0
  {
    seq(n, _ => 0.0)
  }

  /** A sample of n values whose last lies at the bound of DistanceBound. */
  function Spike(n: nat): seq<real>
    requires n >= 1
  {
    Zeros(n - 1) + [n as real]
  }

  lemma {:induction false} ZerosSums(n: nat)
    ensures Sum(Zeros(n)) == 0.0 && SumSquares(Shift(Zeros(n), 1.0)) == n as real
  {
    if n > 0 {
      assert Zeros(n)[..n - 1] == Zeros(n - 1);
      assert Shift(Zeros(n), 1.0)[..n - 1] == Shift(Zeros(n - 1), 1.0);
      ZerosSums(n - 1);
    }
  }

  lemma SpikeArithmetic(n: real, k: real, kk: real, sum: real)
    requires k >= 0.0 && n == k + 1.0 && kk == k * k && sum == k + kk
    ensures sum / n == k
  {
    assert k * n == sum;
    DivUnique(sum, n, k);
  }

  lemma {:induction false} SpikeReachesBound(n: nat)
    requires n >= 1
    ensures |Spike(n)| == n && Variance(Spike(n)) == (n - 1) as real
    ensures Deviations(Spike(n))[n - 1] == (n - 1) as real
  {
    var xs := Spike(n);
    var k := (n - 1) as real;
    ZerosSums(n - 1);
    assert xs[..n - 1] == Zeros(n - 1);
    assert Sum(xs) == n as real;
    assert Mean(xs) == 1.0;
    var ds := Deviations(xs);
    assert ds[..n - 1] == Shift(Zeros(n - 1), 1.0);
    assert ds[n - 1] == k;
    SpikeArithmetic(n as real, k, k * k, SumSquares(ds));
  }

  /** Some value's squared deviation exceeds c variances. */
  ghost predicate Reaches(xs: seq<real>, c: real)
    requires xs != []
  {
    exists i :: 0 <= i < |xs| && Deviations(xs)[i] * Deviations(xs)[i] > c * Variance(xs)
  }

  /** Samples of n values that reach c variances exist exactly when n > c + 1. */
  lemma {:induction false} ReachIff(n: nat, c: real)
    requires n >= 1 && c >= 0.0
    ensures (exists xs :: |xs| == n && Reaches(xs, c)) <==> (n - 1) as real > c
  {
    if (n - 1) as real > c {
      SpikeReachesBound(n);
      var xs := Spike(n);
      MulOrderStrict(c, (n - 1) as real, (n - 1) as real);
      assert Deviations(xs)[n - 1] * Deviations(xs)[n - 1] > c * Variance(xs);
      assert Reaches(xs, c);
    } else {
      forall xs | |xs| == n ensures !Reaches(xs, c) {
        forall i | 0 <= i < |xs| ensures Deviations(xs)[i] * Deviations(xs)[i] <= c * Variance(xs) {
          DistanceBound(xs, i, (n - 1) as real);
          VarianceNonNegative(xs);
          MulOrder((n - 1) as real, c, Variance(xs));
        }
      }
    }
  }

  lemma {:induction false} VarianceNonNegative(xs: seq<real>)
    requires xs != []
    ensures Variance(xs) >= 0.0
  {
    SumSquaresNonNegative(Deviations(xs));
  }

  /** A deviation score above c needs more than c² + 1 transactions. */
  lemma {:induction false} ScoreNeedsSample(amounts: seq<real>, sigma: real, i: nat, c: real)
    requires i < |amounts| && IsDeviation(amounts, sigma) && c >= 0.0
    requires DeviationScore(amounts, sigma, i) > c
    ensures (|amounts| - 1) as real > c * c
  {
    var k, d, s := (|amounts| - 1) as real, Deviations(amounts)[i], Divisor(sigma);
    DistanceBound(amounts, i, k);
    QuotientOrder(Abs(d), s, c);
    ScoreArithmetic(d, sigma, s, k, c);
  }

  lemma ScoreArithmetic(d: real, sigma: real, s: real, k: real, c: real)
    requires sigma >= 0.0 && k >= 0.0 && c >= 0.0 && s == Divisor(sigma)
    requires d * d <= k * (sigma * sigma) && Abs(d) > c * s
    ensures k > c * c
  {
    if sigma == 0.0 {
      assert k * (sigma * sigma) == 0.0;
      SquareZero(d);
    } else {
      MulOrder(0.0, c, s);
      BeyondSquared(d, c * s);
      SquareOfProduct(c, sigma);
      MulOrderStrict(0.0, sigma, sigma);
      MulCancel(c * c, k, sigma * sigma);
    }
  }

  /** Five transactions are never anomalous; MEDIUM needs eleven and CRITICAL twenty-seven. */
  lemma {:induction false} SeverityNeedsSample(amounts: seq<real>, sigma: real)
    requires amounts != [] && IsDeviation(amounts, sigma)
    ensures |amounts| == 5 ==> DetectAnomalies(amounts, sigma) == []
    ensures forall i :: 0 <= i < |amounts| && GetSeverity(DeviationScore(amounts, sigma, i)) != LOW ==> |amounts| >= 11
    ensures forall i :: 0 <= i < |amounts| && GetSeverity(DeviationScore(amounts, sigma, i)) == CRITICAL ==>
      |amounts| >= 27
  {
    forall i | 0 <= i < |amounts|
      ensures GetSeverity(DeviationScore(amounts, sigma, i)) != LOW ==> |amounts| >= 11
      ensures GetSeverity(DeviationScore(amounts, sigma, i)) == CRITICAL ==> |amounts| >= 27
    {
      var z := DeviationScore(amounts, sigma, i);
      if z > 5.0 { ScoreNeedsSample(amounts, sigma, i, 5.0); }
      if z > 3.0 { ScoreNeedsSample(amounts, sigma, i, 3.0); }
    }
    var found := DetectAnomalies(amounts, sigma);
    if found != [] {
      var i := found[0];
      BeyondExactly(Deviations(amounts), 2.0 * Divisor(sigma));
      assert i in found;
      QuotientOrder(Abs(Deviations(amounts)[i]), Divisor(sigma), 2.0);
      ScoreNeedsSample(amounts, sigma, i, 2.0);
    }
  }

  /** The last value of a spike scores the deviation itself, the root of n - 1. */
  lemma SpikeScore(n: nat, sigma: real)
    requires n >= 2 && IsDeviation(Spike(n), sigma)
    ensures |Spike(n)| == n && sigma > 0.0 && sigma * sigma == (n - 1) as real
    ensures DeviationScore(Spike(n), sigma, n - 1) == sigma == ZScore(Spike(n), sigma, n - 1)
  {
    SpikeReachesBound(n);
    var d := Deviations(Spike(n))[n - 1];
    assert d == sigma * sigma && sigma > 0.0;
    DivUnique(d, sigma, sigma);
  }

  lemma RootAbove(sigma: real, c: real, square: real)
    requires sigma >= 0.0 && c >= 0.0 && square == sigma * sigma
    ensures sigma > c <==> square > c * c
  {
    if sigma > c { SquareUp(c, sigma); }
    if sigma <= c { SquareOrder(sigma, c); }
  }

  /**
   * The sample sizes are exact: the last value of a spike is anomalous from six values on, MEDIUM from
   * eleven and CRITICAL from twenty-seven, and an outlier of the other detector from eight.
   */
  lemma SpikeSeverity(n: nat, sigma: real)
    requires n >= 2 && IsDeviation(Spike(n), sigma)
    ensures |Spike(n)| == n
    ensures n - 1 in DetectAnomalies(Spike(n), sigma) <==> n >= 6
    ensures GetSeverity(DeviationScore(Spike(n), sigma, n - 1)) != LOW <==> n >= 11
    ensures GetSeverity(DeviationScore(Spike(n), sigma, n - 1)) == CRITICAL <==> n >= 27
    ensures n - 1 in DetectZScoreOutliers(Spike(n), sigma) <==> n >= 8
  {
    SpikeScore(n, sigma);
    RootAbove(sigma, 2.0, (n - 1) as real);
    RootAbove(sigma, 2.5, (n - 1) as real);
    RootAbove(sigma, 3.0, (n - 1) as real);
    RootAbove(sigma, 5.0, (n - 1) as real);
    AnomaliesExactly(Spike(n), sigma);
    ZScoreOutliersExactly(Spike(n), sigma);
    hide DeviationScore, ZScore, DetectAnomalies, DetectZScoreOutliers, Spike;
  }
}
