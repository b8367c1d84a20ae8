/** Finite sums of reals, and the term-wise operations they distribute over. */
module RealSums {
  import opened RealArithmetic

  function Sum(ts: seq<real>): real {
    if ts == [] then 0.0 else Sum(ts[..|ts| - 1]) + ts[|ts| - 1]
  }

  function Add(us: seq<real>, vs: seq<real>): (r: seq<real>)
    requires |us| == |vs|
    ensures |r| == |us| && forall i :: 0 <= i < |us| ==> r[i] == us[i] + vs[i]
  {
    seq(|us|, i requires 0 <= i < |us| => us[i] + vs[i])
  }

  function Scale(c: real, vs: seq<real>): (r: seq<real>)
    ensures |r| == |vs| && forall i :: 0 <= i < |vs| ==> r[i] == Mul(c, vs[i])
  {
    seq(|vs|, i requires 0 <= i < |vs| => Mul(c, vs[i]))
  }

  function Products(us: seq<real>, vs: seq<real>): (r: seq<real>)
    requires |us| == |vs|
    ensures |r| == |us| && forall i :: 0 <= i < |us| ==> r[i] == Mul(us[i], vs[i])
  {
    seq(|us|, i requires 0 <= i < |us| => Mul(us[i], vs[i]))
  }

  lemma {:induction false} SumAppend(ts: seq<real>, t: real)
    ensures Sum(ts + [t]) == Sum(ts) + t
  {
    assert (ts + [t])[..|ts|] == ts;
  }

  lemma {:induction false} ProductsAppend(us: seq<real>, vs: seq<real>, u: real, v: real, uv: real)
    requires |us| == |vs| && uv == Mul(u, v)
    ensures Products(us + [u], vs + [v]) == Products(us, vs) + [uv]
  {
    assert Products(us + [u], vs + [v]) == Products(us, vs) + [uv];
  }

  lemma {:induction false} SumAdd(us: seq<real>, vs: seq<real>)
    requires |us| == |vs|
    ensures Sum(Add(us, vs)) == Sum(us) + Sum(vs)
  {
    if us != [] {
      var n := |us| - 1;
      SumAdd(us[..n], vs[..n]);
      assert Add(us, vs)[..n] == Add(us[..n], vs[..n]);
    }
  }

  lemma {:induction false} SumScale(c: real, vs: seq<real>, s: real)
    requires s == Sum(vs)
    ensures Sum(Scale(c, vs)) == Mul(c, s)
  {
    if vs == [] {
      MulZero(c, s);
    } else {
      var n := |vs| - 1;
      var s0, v := Sum(vs[..n]), vs[n];
      SumScale(c, vs[..n], s0);
      assert Scale(c, vs)[..n] == Scale(c, vs[..n]);
      MulDistribute(c, s0, v, s);
    }
  }

  /** Squares sum to something non-negative. */
  lemma {:induction false} SquaresNonNegative(vs: seq<real>)
    ensures Sum(Products(vs, vs)) >= 0.0
  {
    if vs != [] {
      var n := |vs| - 1;
      SquaresNonNegative(vs[..n]);
      assert Products(vs, vs)[..n] == Products(vs[..n], vs[..n]);
      MulSquare(vs[n]);
    }
  }

  lemma {:induction false} SquaresPositive(vs: seq<real>, i: nat)
    requires i < |vs| && vs[i] != 0.0
    ensures Sum(Products(vs, vs)) > 0.0
  {
    var n := |vs| - 1;
    assert Products(vs, vs)[..n] == Products(vs[..n], vs[..n]);
    MulSquare(vs[n]);
    if i < n { SquaresPositive(vs[..n], i); } else { SquaresNonNegative(vs[..n]); }
  }

  lemma {:induction false} SquaresZero(vs: seq<real>)
    requires forall i :: 0 <= i < |vs| ==> vs[i] == 0.0
    ensures Sum(Products(vs, vs)) == 0.0
  {
    if vs != [] {
      var n := |vs| - 1;
      SquaresZero(vs[..n]);
      assert Products(vs, vs)[..n] == Products(vs[..n], vs[..n]);
      MulSquare(vs[n]);
    }
  }
}
