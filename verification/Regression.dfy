/**
  The multi-month trend: ordinary least squares over monthly totals, indexed
  0, 1, 2, ... and projected forward.
 */
module Regression {
  import opened Sums

  const MIN_MONTHS := 3

  datatype Line = Line(slope: real, intercept: real) {
    function At(x: real): real {
      intercept + Times(slope, x)
    }
  }

  /** The month indices 0 .. n-1. */
  function Indices(n: nat): (xs: seq<real>)
    ensures |xs| == n
  {
    if n == 0 then [] else Indices(n - 1) + [(n - 1) as real]
  }

  /** The line through the data that the code computes from means and centred sums. */
  function Fit(ys: seq<real>): Line
    requires ys != []
  {
    var xs := Indices(|ys|);
    var xMean, yMean := Mean(xs), Mean(ys);
    var numerator, denominator := CoScatter(xs, ys, xMean, yMean), Scatter(xs, xMean);
    var slope := if denominator > 0.0 then numerator / denominator else 0.0;
    Line(slope, yMean - Times(slope, xMean))
  }

  /** `ys[i] - l(xs[i])` for every `i`. */
  function Misses(ys: seq<real>, xs: seq<real>, l: Line): (rs: seq<real>)
    requires |ys| == |xs|
    ensures |rs| == |ys|
  {
    if ys == [] then []
    else
      var n := |ys| - 1;
      Misses(ys[..n], xs[..n], l) + [ys[n] - l.At(xs[n])]
  }

  function Residuals(ys: seq<real>, l: Line): (rs: seq<real>)
    ensures |rs| == |ys|
  {
    Misses(ys, Indices(|ys|), l)
  }

  /** What least squares minimises. */
  function SquaredError(ys: seq<real>, l: Line): real {
    var rs := Residuals(ys, l);
    Dot(rs, rs)
  }

  // ---------- The normal equations ----------

  lemma SumStep(c: real, m: real, n: real, y: real, x: real, s: real, t: real)
    ensures (s - Times(c, n - 1.0) - Times(m, t)) + (y - (c + Times(m, x))) ==
            (s + y) - Times(c, n) - Times(m, t + x)
  {
  }

  lemma {:induction false} SumOfMisses(ys: seq<real>, xs: seq<real>, l: Line, n: real, sy: real, sx: real)
    requires |ys| == |xs| && n == |ys| as real && sy == Sum(ys) && sx == Sum(xs)
    ensures Sum(Misses(ys, xs, l)) == sy - Times(l.intercept, n) - Times(l.slope, sx)
  {
    if ys != [] {
      var k := |ys| - 1;
      var s, t := Sum(ys[..k]), Sum(xs[..k]);
      SumOfMisses(ys[..k], xs[..k], l, n - 1.0, s, t);
      SumStep(l.intercept, l.slope, n, ys[k], xs[k], s, t);
    }
  }

  lemma DotStep(z: real, y: real, x: real, r: real, c: real, m: real, zy: real, sz: real, zx: real)
    requires r == y - (c + Times(m, x))
    ensures (zy - Times(c, sz) - Times(m, zx)) + Times(z, r) ==
            (zy + Times(z, y)) - Times(c, sz + z) - Times(m, zx + Times(z, x))
  {
  }

  lemma {:induction false} DotOfMisses(
    zs: seq<real>, ys: seq<real>, xs: seq<real>, l: Line, zy: real, sz: real, zx: real)
    requires |zs| == |ys| == |xs| && zy == Dot(zs, ys) && sz == Sum(zs) && zx == Dot(zs, xs)
    ensures Dot(zs, Misses(ys, xs, l)) == zy - Times(l.intercept, sz) - Times(l.slope, zx)
  {
    if zs != [] {
      var k := |zs| - 1;
      var p, s, q := Dot(zs[..k], ys[..k]), Sum(zs[..k]), Dot(zs[..k], xs[..k]);
      DotOfMisses(zs[..k], ys[..k], xs[..k], l, p, s, q);
      DotStep(zs[k], ys[k], xs[k], Misses(ys, xs, l)[k], l.intercept, l.slope, p, s, q);
    }
  }

  lemma SolveSum(n: real, a: real, b: real, sx: real, sy: real, m: real, c: real)
    requires Times(a, n) == sx && Times(b, n) == sy && c == b - Times(m, a)
    ensures sy - Times(c, n) - Times(m, sx) == 0.0
  {
  }

  lemma SolveDot(n: real, a: real, b: real, sx: real, sy: real, sxy: real, sxx: real, m: real, c: real)
    requires Times(a, n) == sx && Times(b, n) == sy && c == b - Times(m, a)
    requires Times(m, sxx - Times(a, sx) - Times(a, sx) + Times(n, Times(a, a))) ==
             sxy - Times(a, sy) - Times(b, sx) + Times(n, Times(a, b))
    ensures sxy - Times(c, sx) - Times(m, sxx) == 0.0
  {
  }

  lemma {:induction false} ScatterPositive(n: nat, a: real)
    requires n >= 2
    ensures Scatter(Indices(n), a) > 0.0
  {
    var xs := Indices(n);
    var u, v := xs[n - 1] - a, xs[n - 2] - a;
    SquareSign(u);
    SquareSign(v);
    ScatterNonNegative(xs[..n - 1][..n - 2], a);
    assert Scatter(xs, a) == Scatter(xs[..n - 1], a) + Times(u, u);
    assert Scatter(xs[..n - 1], a) == Scatter(xs[..n - 1][..n - 2], a) + Times(v, v);
  }

  /** The means, numerator and denominator of the code, as facts about numbers. */
  lemma FitFacts(ys: seq<real>) returns (n: real, a: real, b: real, sx: real, sy: real, sxy: real, sxx: real)
    requires |ys| >= 2
    ensures n == |ys| as real && sx == Sum(Indices(|ys|)) && sy == Sum(ys)
    ensures sxy == Dot(Indices(|ys|), ys) && sxx == Dot(Indices(|ys|), Indices(|ys|))
    ensures Times(a, n) == sx && Times(b, n) == sy
    ensures Fit(ys).intercept == b - Times(Fit(ys).slope, a)
    ensures Times(Fit(ys).slope, sxx - Times(a, sx) - Times(a, sx) + Times(n, Times(a, a))) ==
            sxy - Times(a, sy) - Times(b, sx) + Times(n, Times(a, b))
  {
    var xs := Indices(|ys|);
    n, a, b := |ys| as real, Mean(xs), Mean(ys);
    sx, sy, sxy, sxx := Sum(xs), Sum(ys), Dot(xs, ys), Dot(xs, xs);
    MeanTimesCount(xs, n, a);
    MeanTimesCount(ys, n, b);
    ScatterPositive(|ys|, a);
    CoScatterIs(xs, ys, a, b, n, sxy, sx, sy);
    CoScatterIs(xs, xs, a, a, n, sxx, sx, sx);
    DivTimes(CoScatter(xs, ys, a, b), Scatter(xs, a));
  }

  /** The residuals of the fitted line sum to zero and are orthogonal to the month index. */
  lemma {:induction false} NormalEquations(ys: seq<real>)
    requires |ys| >= 2
    ensures Sum(Residuals(ys, Fit(ys))) == 0.0
    ensures Dot(Indices(|ys|), Residuals(ys, Fit(ys))) == 0.0
  {
    var n, a, b, sx, sy, sxy, sxx := FitFacts(ys);
    var l, xs := Fit(ys), Indices(|ys|);
    SumOfMisses(ys, xs, l, n, sy, sx);
    SolveSum(n, a, b, sx, sy, l.slope, l.intercept);
    DotOfMisses(xs, ys, xs, l, sxy, sx, sxx);
    SolveDot(n, a, b, sx, sy, sxy, sxx, l.slope, l.intercept);
  }

  // ---------- Optimality ----------

  function Shift(l: Line, d: Line): Line {
    Line(l.slope + d.slope, l.intercept + d.intercept)
  }

  function Minus(u: seq<real>, v: seq<real>): (r: seq<real>)
    requires |u| == |v|
    ensures |r| == |u|
  {
    if u == [] then []
    else
      var n := |u| - 1;
      Minus(u[..n], v[..n]) + [u[n] - v[n]]
  }

  /** The values of a line at the points `xs`. */
  function Values(xs: seq<real>, d: Line): (vs: seq<real>)
    ensures |vs| == |xs|
  {
    if xs == [] then []
    else
      var n := |xs| - 1;
      Values(xs[..n], d) + [d.At(xs[n])]
  }

  lemma ShiftAt(l: Line, d: Line, x: real)
    ensures Shift(l, d).At(x) == l.At(x) + d.At(x)
  {
  }

  lemma {:induction false} MissesOfShift(ys: seq<real>, xs: seq<real>, l: Line, d: Line)
    requires |ys| == |xs|
    ensures Misses(ys, xs, Shift(l, d)) == Minus(Misses(ys, xs, l), Values(xs, d))
  {
    if ys != [] {
      var n := |ys| - 1;
      MissesOfShift(ys[..n], xs[..n], l, d);
      ShiftAt(l, d, xs[n]);
      assert Values(xs, d)[..n] == Values(xs[..n], d);
    }
  }

  lemma {:induction false} NormOfMinus(u: seq<real>, v: seq<real>)
    requires |u| == |v|
    ensures Dot(Minus(u, v), Minus(u, v)) == Dot(u, u) - 2.0 * Dot(u, v) + Dot(v, v)
  {
    if u != [] {
      var n := |u| - 1;
      NormOfMinus(u[..n], v[..n]);
      assert Minus(u, v)[..n] == Minus(u[..n], v[..n]);
    }
  }

  lemma CrossStep(r: real, x: real, v: real, c: real, m: real, s: real, t: real)
    requires v == c + Times(m, x)
    ensures Times(c, s) + Times(m, t) + Times(r, v) == Times(c, s + r) + Times(m, t + Times(x, r))
  {
  }

  /** Against the values of a line, only a vector's sum and its product with the indices matter. */
  lemma {:induction false} CrossIs(rs: seq<real>, xs: seq<real>, d: Line, s: real, t: real)
    requires |rs| == |xs| && s == Sum(rs) && t == Dot(xs, rs)
    ensures Dot(rs, Values(xs, d)) == Times(d.intercept, s) + Times(d.slope, t)
  {
    if rs != [] {
      var n := |rs| - 1;
      var p, q := Sum(rs[..n]), Dot(xs[..n], rs[..n]);
      CrossIs(rs[..n], xs[..n], d, p, q);
      assert Values(xs, d)[..n] == Values(xs[..n], d);
      CrossStep(rs[n], xs[n], d.At(xs[n]), d.intercept, d.slope, p, q);
    }
  }

  lemma {:induction false} NormNonNegative(vs: seq<real>)
    ensures Dot(vs, vs) >= 0.0
    ensures Dot(vs, vs) == 0.0 ==> forall i :: 0 <= i < |vs| ==> vs[i] == 0.0
  {
    if vs != [] {
      var n := |vs| - 1;
      NormNonNegative(vs[..n]);
      SquareSign(vs[n]);
      if Dot(vs, vs) == 0.0 {
        forall i | 0 <= i < |vs|
          ensures vs[i] == 0.0
        {
          assert i < n ==> vs[i] == vs[..n][i];
        }
      }
    }
  }

  lemma {:induction false} ValuesAt(n: nat, d: Line, i: nat)
    requires i < n
    ensures Values(Indices(n), d)[i] == d.At(i as real)
  {
    assert Indices(n)[..n - 1] == Indices(n - 1);
    if i < n - 1 {
      ValuesAt(n - 1, d, i);
    }
  }

  /** A line that is zero at two months is zero. */
  lemma ZeroLine(n: nat, d: Line)
    requires n >= 2
    ensures var vs := Values(Indices(n), d); Dot(vs, vs) >= 0.0 && (Dot(vs, vs) == 0.0 ==> d == Line(0.0, 0.0))
  {
    var vs := Values(Indices(n), d);
    NormNonNegative(vs);
    if Dot(vs, vs) == 0.0 {
      ValuesAt(n, d, 0);
      ValuesAt(n, d, 1);
      assert d.slope * 0.0 == 0.0;
      assert d.slope * 1.0 == d.slope;
    }
  }

  /** The fitted line beats every other line, strictly. */
  lemma LeastSquares(ys: seq<real>, other: Line)
    requires |ys| >= 2 && other != Fit(ys)
    ensures SquaredError(ys, Fit(ys)) < SquaredError(ys, other)
  {
    var l, xs := Fit(ys), Indices(|ys|);
    var d := Line(other.slope - l.slope, other.intercept - l.intercept);
    var rs, vs := Residuals(ys, l), Values(xs, d);
    assert Shift(l, d) == other;
    MissesOfShift(ys, xs, l, d);
    NormOfMinus(rs, vs);
    assert Dot(rs, vs) == 0.0 by {
      NormalEquations(ys);
      CrossIs(rs, xs, d, 0.0, 0.0);
      assert Times(d.intercept, 0.0) == 0.0 && Times(d.slope, 0.0) == 0.0;
    }
    ZeroLine(|ys|, d);
  }

  // ---------- The forecast ----------

  datatype Point = Point(monthsAhead: nat, projected: real, low: real, high: real)

  datatype Forecast = TooFew | Forecast(points: seq<Point>, slopePerMonth: real, residualStddev: real)

  function PointAt(l: Line, months: nat, h: nat, spread: real): Point
    requires months >= 1 && h >= 1
  {
    var projected := Max(0.0, l.At((months - 1 + h) as real));
    Point(h, projected, Max(0.0, projected - spread), projected + spread)
  }

  ghost predicate BestLine(ys: seq<real>, best: Line) {
    forall other: Line :: other != best ==> SquaredError(ys, best) < SquaredError(ys, other)
  }

  lemma {:induction false} ScatterAboutZero(xs: seq<real>)
    ensures Scatter(xs, 0.0) == Dot(xs, xs)
  {
    if xs != [] {
      ScatterAboutZero(xs[..|xs| - 1]);
    }
  }

  lemma FitIsBest(ys: seq<real>)
    requires |ys| >= 2
    ensures BestLine(ys, Fit(ys))
  {
    forall other: Line | other != Fit(ys)
      ensures SquaredError(ys, Fit(ys)) < SquaredError(ys, other)
    {
      LeastSquares(ys, other);
    }
  }

  /** Point `h` is the line `h` months after the last total, floored at zero, with the spread on either side. */
  ghost predicate PointIs(pt: Point, best: Line, months: nat, h: nat, spread: real) {
    var there := best.intercept + Times(best.slope, (months - 1 + h) as real);
    pt.monthsAhead == h &&
    pt.projected == (if there >= 0.0 then there else 0.0) &&
    pt.low == (if pt.projected - spread >= 0.0 then pt.projected - spread else 0.0) &&
    pt.high == pt.projected + spread
  }

  /** The forecast drawn from a line: its slope, its root-mean-square residual, its points. */
  ghost predicate DrawnFrom(f: Forecast, ys: seq<real>, horizon: int, best: Line)
    requires f.Forecast?
  {
    BestLine(ys, best) && f.slopePerMonth == best.slope && f.residualStddev >= 0.0 &&
    Times(Times(f.residualStddev, f.residualStddev), |ys| as real) == SquaredError(ys, best) &&
    |f.points| == horizon &&
    forall i :: 0 <= i < horizon ==> PointIs(f.points[i], best, |ys|, i + 1, f.residualStddev)
  }

  /** The forecast continues a straight line: each point is the total that comes next, with no band. */
  ghost predicate Continues(f: Forecast, more: seq<real>)
    requires f.Forecast? && |f.points| == |more|
  {
    f.residualStddev == 0.0 &&
    forall i :: 0 <= i < |more| ==>
      f.points[i].projected == more[i] && f.points[i].low == more[i] && f.points[i].high == more[i]
  }

  lemma BestIsThatLine(ys: seq<real>, best: Line, l: Line)
    requires BestLine(ys, best) && OnLine(ys, l)
    ensures best == l && SquaredError(ys, best) == 0.0
  {
    NoErrorIffOnLine(ys, l);
    NormNonNegative(Residuals(ys, best));
  }

  lemma NoSpread(s: real, n: real)
    requires s >= 0.0 && n > 0.0 && Times(Times(s, s), n) == 0.0
    ensures s == 0.0
  {
    if s > 0.0 {
      TimesPositive(s, s);
      TimesPositive(Times(s, s), n);
    }
  }

  /** When the totals and those that follow lie on one line, never below zero, the forecast is those that follow. */
  lemma LineContinues(f: Forecast, ys: seq<real>, more: seq<real>, best: Line, l: Line)
    requires f.Forecast? && ys != [] && DrawnFrom(f, ys, |more|, best) && OnLine(ys + more, l)
    requires forall i :: 0 <= i < |more| ==> more[i] >= 0.0
    ensures Continues(f, more)
  {
    assert OnLine(ys, l) by {
      assert forall i :: 0 <= i < |ys| ==> (ys + more)[i] == ys[i];
    }
    BestIsThatLine(ys, best, l);
    NoSpread(f.residualStddev, |ys| as real);
    forall i | 0 <= i < |more|
      ensures f.points[i].projected == more[i]
    {
      assert (ys + more)[|ys| + i] == more[i];
      assert PointIs(f.points[i], best, |ys|, i + 1, f.residualStddev);
    }
  }

  /**
    `forecastMultiMonth`. With enough months and a positive horizon the points
    lie on the one line that minimises squared error, floored at zero, and the
    band is that line's root-mean-square residual; a straight line is continued.
   */
  method ForecastMultiMonth(ys: seq<real>, horizon: int, sqrt: real -> real) returns (f: Forecast)
    requires IsSqrt(sqrt)
    ensures f.TooFew? <==> |ys| < 3 || horizon < 1
    ensures f.Forecast? ==> |f.points| == horizon && exists best: Line :: DrawnFrom(f, ys, horizon, best)
    ensures f.Forecast? ==>
      forall more: seq<real>, l: Line ::
        |more| == horizon && OnLine(ys + more, l) && (forall i :: 0 <= i < |more| ==> more[i] >= 0.0) ==>
        Continues(f, more)
  {
    if |ys| < MIN_MONTHS || horizon < 1 {
      return TooFew;
    }
    var l := Fit(ys);
    var rs := Residuals(ys, l);
    var spread := StdDev(rs, 0.0, sqrt);
    var points: seq<Point> := [];
    for h := 1 to horizon + 1
      invariant |points| == h - 1
      invariant forall i :: 0 <= i < h - 1 ==> PointIs(points[i], l, |ys|, i + 1, spread)
    {
      points := points + [PointAt(l, |ys|, h, spread)];
    }
    f := Forecast(points, l.slope, spread);
    FitIsBest(ys);
    StdDevIs(rs, 0.0, sqrt, |ys| as real, spread);
    ScatterAboutZero(rs);
    assert DrawnFrom(f, ys, horizon, l);
    forall more: seq<real>, line: Line |
      |more| == horizon && OnLine(ys + more, line) && (forall i :: 0 <= i < |more| ==> more[i] >= 0.0)
      ensures Continues(f, more)
    {
      LineContinues(f, ys, more, l, line);
    }
  }

  /** The residual deviation about zero is the deviation about the residuals' own mean. */
  lemma DeviationAboutOwnMean(ys: seq<real>, sqrt: real -> real)
    requires |ys| >= 2
    ensures
      var rs := Residuals(ys, Fit(ys));
      Mean(rs) == 0.0 && StdDev(rs, 0.0, sqrt) == StdDev(rs, Mean(rs), sqrt)
  {
    NormalEquations(ys);
    assert Mean(Residuals(ys, Fit(ys))) == 0.0;
  }

  ghost predicate OnLine(ys: seq<real>, l: Line) {
    forall i :: 0 <= i < |ys| ==> ys[i] == l.At(i as real)
  }

  lemma {:induction false} ResidualAt(ys: seq<real>, l: Line, i: nat)
    requires i < |ys|
    ensures Residuals(ys, l)[i] == ys[i] - l.At(i as real)
  {
    var n := |ys| - 1;
    assert Indices(|ys|)[..n] == Indices(n);
    if i < n {
      ResidualAt(ys[..n], l, i);
    }
  }

  lemma {:induction false} NormOfZeros(vs: seq<real>)
    requires forall i :: 0 <= i < |vs| ==> vs[i] == 0.0
    ensures Dot(vs, vs) == 0.0
  {
    if vs != [] {
      NormOfZeros(vs[..|vs| - 1]);
      SquareSign(vs[|vs| - 1]);
    }
  }

  /** A line leaves no error exactly on data that lies on it. */
  lemma NoErrorIffOnLine(ys: seq<real>, l: Line)
    ensures SquaredError(ys, l) == 0.0 <==> OnLine(ys, l)
  {
    var rs := Residuals(ys, l);
    NormNonNegative(rs);
    forall i | 0 <= i < |ys|
      ensures rs[i] == ys[i] - l.At(i as real)
    {
      ResidualAt(ys, l, i);
    }
    if OnLine(ys, l) {
      NormOfZeros(rs);
    }
  }

  /** Totals on a straight line are recovered exactly, with no residual. */
  lemma LinearRecovered(ys: seq<real>, l: Line)
    requires |ys| >= 2 && OnLine(ys, l)
    ensures Fit(ys) == l && SquaredError(ys, Fit(ys)) == 0.0
  {
    NoErrorIffOnLine(ys, l);
    NormNonNegative(Residuals(ys, Fit(ys)));
    if l != Fit(ys) {
      LeastSquares(ys, l);
    }
  }
}
