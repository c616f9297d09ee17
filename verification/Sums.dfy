/**
  Left-to-right sums of reals, as `reduce((sum, v) => sum + v, 0)` computes
  them, and the inner products the regression is built from.

  Products of sums are kept behind scalar parameters in the lemmas below (a
  parameter `sx` with `sx == Sum(x)` rather than `Sum(x)` itself), which keeps
  each algebraic step a statement about numbers.
 */
module Sums {

  function Sum(xs: seq<real>): real {
    if xs == [] then 0.0 else Sum(xs[..|xs| - 1]) + xs[|xs| - 1]
  }

  function Times(a: real, b: real): real {
    a * b
  }

  function Max(a: real, b: real): real {
    if a >= b then a else b
  }

  function Dot(u: seq<real>, v: seq<real>): real
    requires |u| == |v|
  {
    if u == [] then 0.0
    else
      var n := |u| - 1;
      Dot(u[..n], v[..n]) + Times(u[n], v[n])
  }

  /** `sum of (u - a) * (v - b)`. */
  function CoScatter(u: seq<real>, v: seq<real>, a: real, b: real): real
    requires |u| == |v|
  {
    if u == [] then 0.0
    else
      var n := |u| - 1;
      CoScatter(u[..n], v[..n], a, b) + Times(u[n] - a, v[n] - b)
  }

  /** Sum of squared deviations from `m`. */
  function Scatter(xs: seq<real>, m: real): real {
    CoScatter(xs, xs, m, m)
  }

  function Mean(xs: seq<real>): real
    requires xs != []
  {
    Sum(xs) / |xs| as real
  }

  /** `Math.sqrt`, as any function that inverts squaring on the non-negative reals. */
  ghost predicate IsSqrt(sqrt: real -> real) {
    forall v: real :: v >= 0.0 ==> sqrt(v) >= 0.0 && Times(sqrt(v), sqrt(v)) == v
  }

  function StdDev(xs: seq<real>, m: real, sqrt: real -> real): real
    requires xs != []
  {
    sqrt(Scatter(xs, m) / |xs| as real)
  }

  // ---------- Facts ----------

  lemma SumSnoc(xs: seq<real>, x: real)
    ensures Sum(xs + [x]) == Sum(xs) + x
  {
  }

  lemma {:induction false} SumAppend(xs: seq<real>, ys: seq<real>)
    ensures Sum(xs + ys) == Sum(xs) + Sum(ys)
  {
    if ys == [] {
      assert xs + ys == xs;
    } else {
      var n := |ys| - 1;
      SumAppend(xs, ys[..n]);
      assert xs + ys == (xs + ys[..n]) + [ys[n]];
      SumSnoc(xs + ys[..n], ys[n]);
    }
  }

  lemma {:induction false} SumNonNegative(xs: seq<real>)
    requires forall i :: 0 <= i < |xs| ==> xs[i] >= 0.0
    ensures Sum(xs) >= 0.0
  {
    if xs != [] {
      SumNonNegative(xs[..|xs| - 1]);
    }
  }

  lemma TimesPositive(x: real, y: real)
    requires x > 0.0 && y > 0.0
    ensures Times(x, y) > 0.0
  {
  }

  lemma SquarePositive(x: real)
    requires x != 0.0
    ensures Times(x, x) > 0.0
  {
    if x > 0.0 {
      TimesPositive(x, x);
    } else {
      TimesPositive(-x, -x);
    }
  }

  lemma SquareSign(x: real)
    ensures Times(x, x) >= 0.0
    ensures Times(x, x) == 0.0 <==> x == 0.0
  {
    if x != 0.0 {
      SquarePositive(x);
    } else {
      assert Times(0.0, 0.0) == 0.0;
    }
  }

  lemma {:induction false} ScatterNonNegative(xs: seq<real>, m: real)
    ensures Scatter(xs, m) >= 0.0
  {
    if xs != [] {
      ScatterNonNegative(xs[..|xs| - 1], m);
      SquareSign(xs[|xs| - 1] - m);
    }
  }

  lemma MeanTimesCount(xs: seq<real>, n: real, mean: real)
    requires xs != [] && n == |xs| as real && mean == Mean(xs)
    ensures Times(mean, n) == Sum(xs)
  {
  }

  lemma DivTimes(a: real, b: real)
    requires b > 0.0
    ensures Times(a / b, b) == a
    ensures a >= 0.0 ==> a / b >= 0.0
  {
  }

  lemma StdDevIs(xs: seq<real>, m: real, sqrt: real -> real, n: real, s: real)
    requires xs != [] && IsSqrt(sqrt) && n == |xs| as real && s == StdDev(xs, m, sqrt)
    ensures s >= 0.0
    ensures Times(Times(s, s), n) == Scatter(xs, m)
  {
    ScatterNonNegative(xs, m);
    DivTimes(Scatter(xs, m), n);
  }

  lemma CoScatterStep(x: real, y: real, a: real, b: real, n: real, xy: real, sx: real, sy: real)
    ensures (xy - Times(a, sy) - Times(b, sx) + Times(n - 1.0, Times(a, b))) + Times(x - a, y - b) ==
            (xy + Times(x, y)) - Times(a, sy + y) - Times(b, sx + x) + Times(n, Times(a, b))
  {
  }

  lemma {:induction false} CoScatterIs(
    u: seq<real>, v: seq<real>, a: real, b: real, n: real, uv: real, su: real, sv: real)
    requires |u| == |v| && n == |u| as real && uv == Dot(u, v) && su == Sum(u) && sv == Sum(v)
    ensures CoScatter(u, v, a, b) == uv - Times(a, sv) - Times(b, su) + Times(n, Times(a, b))
  {
    if u != [] {
      var k := |u| - 1;
      var p, s, t := Dot(u[..k], v[..k]), Sum(u[..k]), Sum(v[..k]);
      CoScatterIs(u[..k], v[..k], a, b, n - 1.0, p, s, t);
      CoScatterStep(u[k], v[k], a, b, n, p, s, t);
    }
  }
}
