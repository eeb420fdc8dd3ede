/** The straight line fitted to a monitor's hourly history (watchpost/forecast.py). */
module Fits {
  import opened Wrappers
  import opened Vectors

  datatype Point = Point(ts: real, value: real)

  datatype Fit = Fit(slopePerDay: real, intercept: real, r2: real, n: nat, spanHours: real, lastValue: real) {
    /** The slope in units per second. */
    function Slope(): real {
      slopePerDay / 86400.0
    }

    function ValueAt(ts: real): real {
      intercept + slopePerDay / 86400.0 * ts
    }
  }

  function Times(points: seq<Point>): (t: seq<real>)
    ensures |t| == |points|
  {
    seq(|points|, i requires 0 <= i < |points| => points[i].ts)
  }

  function Values(points: seq<Point>): (v: seq<real>)
    ensures |v| == |points|
  {
    seq(|points|, i requires 0 <= i < |points| => points[i].value)
  }

  /** What the line a + b * t leaves unexplained at each point. */
  function Residuals(t: seq<real>, v: seq<real>, a: real, b: real): (r: seq<real>)
    requires |t| == |v|
    ensures |r| == |t| && forall i | 0 <= i < |t| :: r[i] == v[i] - (a + b * t[i])
  {
    seq(|t|, i requires 0 <= i < |t| => v[i] - (a + b * t[i]))
  }

  /** Sum of the squared residuals of a line over the points. */
  function Loss(points: seq<Point>, a: real, b: real): real {
    var r := Residuals(Times(points), Values(points), a, b);
    Dot(r, r)
  }

  /** k / 10000 is the multiple of 1/10000 nearest to x, the even one of two as near. */
  predicate Nearest(x: real, k: int) {
    -0.5 <= x * 10000.0 - k as real <= 0.5
      && ((x * 10000.0 - k as real == 0.5 || k as real - x * 10000.0 == 0.5) ==> k % 2 == 0)
  }

  /** Python's round(x, 4). */
  function Round4(x: real): (r: real)
    ensures -0.00005 <= r - x <= 0.00005
    ensures exists k: int :: r == k as real / 10000.0 && Nearest(x, k)
  {
    var scaled := x * 10000.0;
    var down := scaled.Floor;
    var rest := scaled - down as real;
    var k := if rest < 0.5 || (rest == 0.5 && down % 2 == 0) then down else down + 1;
    assert Nearest(x, k);
    k as real / 10000.0
  }

  function Determination(ssRes: real, ssTot: real): real {
    if ssTot == 0.0 then 1.0 else Max(0.0, 1.0 - ssRes / ssTot)
  }

  function Max(a: real, b: real): real {
    if a >= b then a else b
  }

  /** Points with the first time stamp as origin, and both coordinates centred. */
  datatype Centred = Centred(t0: real, ts: seq<real>, mt: real, mv: real, u: seq<real>, w: seq<real>)

  function Centre(points: seq<Point>): (c: Centred)
    requires points != []
    ensures |c.ts| == |c.u| == |c.w| == |points|
  {
    var t0 := points[0].ts;
    var ts := Minus(Times(points), t0);
    var vs := Values(points);
    Centred(t0, ts, Mean(ts), Mean(vs), Minus(ts, Mean(ts)), Minus(vs, Mean(vs)))
  }

  function Ratio(sxy: real, sxx: real): real
    requires sxx != 0.0
  {
    sxy / sxx
  }

  /** The intercept of a line of slope b after moving the origin of time back by t. */
  function Back(a: real, b: real, t: real): real {
    a - b * t
  }

  /** The line of slope b through the centre of the points, with its figures of merit. */
  function LineThroughCentre(points: seq<Point>, b: real): Fit
    requires points != []
  {
    var c := Centre(points);
    var aCentred := Back(c.mv, b, c.mt);
    var residuals := Residuals(c.ts, Values(points), aCentred, b);
    var r2 := Determination(Dot(residuals, residuals), Dot(c.w, c.w));
    Fit(b * 86400.0, Back(aCentred, b, c.t0), Round4(r2), |points|,
        (c.ts[|points| - 1] - c.ts[0]) / 3600.0, points[|points| - 1].value)
  }

  function LeastSquares(points: seq<Point>): Option<Fit> {
    if |points| < 2 then None else
      var c := Centre(points);
      if Dot(c.u, c.u) == 0.0 then None
      else Some(LineThroughCentre(points, Ratio(Dot(c.u, c.w), Dot(c.u, c.u))))
  }

  // ----- What makes a line a regression line -----

  /** a + b * t goes through the centre (m, mv) and has the slope the normal equations ask for. */
  ghost predicate Regression(t: seq<real>, v: seq<real>, m: real, mv: real, a: real, b: real) {
    && |t| == |v|
    && Sum(Minus(t, m)) == 0.0
    && Sum(Minus(v, mv)) == 0.0
    && Balanced(Dot(Minus(v, mv), Minus(t, m)), Dot(Minus(t, m), Minus(t, m)), m, mv, a, b)
  }

  predicate Balanced(sxy: real, sxx: real, m: real, mv: real, a: real, b: real) {
    sxy == b * sxx && a == mv - b * m
  }

  /** In centred coordinates a residual is w - b * u. */
  lemma ResidualsCentred(t: seq<real>, v: seq<real>, m: real, mv: real, a: real, b: real)
    requires |t| == |v| && a == mv - b * m
    ensures Combines(Residuals(t, v, a, b), Minus(v, mv), -b, Minus(t, m))
  {
    var r, w, u := Residuals(t, v, a, b), Minus(v, mv), Minus(t, m);
    forall i | 0 <= i < |t|
      ensures r[i] == w[i] + -b * u[i]
    {
      ResidualAt(v[i], t[i], m, mv, a, b);
    }
  }

  lemma ResidualAt(v: real, t: real, m: real, mv: real, a: real, b: real)
    requires a == mv - b * m
    ensures v - (a + b * t) == (v - mv) + -b * (t - m)
  {
  }

  lemma ResidualsCancel(t: seq<real>, v: seq<real>, m: real, mv: real, a: real, b: real)
    requires Regression(t, v, m, mv, a, b)
    ensures Sum(Residuals(t, v, a, b)) == 0.0
  {
    var r, w, u := Residuals(t, v, a, b), Minus(v, mv), Minus(t, m);
    ResidualsCentred(t, v, m, mv, a, b);
    SumCombines(r, w, -b, u);
  }

  lemma ResidualsUncorrelated(t: seq<real>, v: seq<real>, m: real, mv: real, a: real, b: real)
    requires Regression(t, v, m, mv, a, b)
    ensures Dot(Residuals(t, v, a, b), Minus(t, m)) == 0.0
  {
    var r, w, u := Residuals(t, v, a, b), Minus(v, mv), Minus(t, m);
    ResidualsCentred(t, v, m, mv, a, b);
    DotCombines(r, w, -b, u, u);
    Cancel(Dot(r, u), Dot(w, u), Dot(u, u), m, mv, a, b);
  }

  lemma Cancel(ru: real, sxy: real, sxx: real, m: real, mv: real, a: real, b: real)
    requires Balanced(sxy, sxx, m, mv, a, b) && IsSum(ru, sxy, -b, sxx)
    ensures ru == 0.0
  {
  }

  /** The residuals of a regression line are orthogonal to the constants and to time. */
  lemma NormalEquations(t: seq<real>, v: seq<real>, m: real, mv: real, a: real, b: real)
    requires Regression(t, v, m, mv, a, b)
    ensures Sum(Residuals(t, v, a, b)) == 0.0
    ensures Dot(Minus(t, m), Residuals(t, v, a, b)) == 0.0
  {
    ResidualsCancel(t, v, m, mv, a, b);
    ResidualsUncorrelated(t, v, m, mv, a, b);
    DotCommutes(Minus(t, m), Residuals(t, v, a, b));
  }

  /** d is the distance of two lines at the centre, k their difference in slope. */
  predicate Apart(d: real, k: real, m: real, a: real, b: real, a': real, b': real) {
    d == (a - a') + (b - b') * m && k == b - b'
  }

  /** Two lines differ by d + k * u. */
  lemma LinesDiffer(t: seq<real>, v: seq<real>, m: real, a: real, b: real, a': real, b': real, d: real, k: real)
    requires |t| == |v| && Apart(d, k, m, a, b, a', b')
    ensures Combines(Residuals(t, v, a', b'), Residuals(t, v, a, b), 1.0, LineValues(d, k, Minus(t, m)))
  {
    var z, r, y := Residuals(t, v, a', b'), Residuals(t, v, a, b), LineValues(d, k, Minus(t, m));
    forall i | 0 <= i < |t|
      ensures z[i] == r[i] + 1.0 * y[i]
    {
      DifferenceAt(v[i], t[i], m, a, b, a', b', d, k);
    }
  }

  lemma DifferenceAt(v: real, t: real, m: real, a: real, b: real, a': real, b': real, d: real, k: real)
    requires Apart(d, k, m, a, b, a', b')
    ensures v - (a' + b' * t) == v - (a + b * t) + 1.0 * (d + k * (t - m))
  {
    assert k * (t - m) == (b - b') * t - (b - b') * m;
  }

  /**
   * A line loses against the regression line exactly what its distance at the
   * centre and its difference in slope cost.
   */
  lemma ExcessLoss(t: seq<real>, v: seq<real>, m: real, mv: real, a: real, b: real, a': real, b': real,
                   d: real, k: real)
    requires Regression(t, v, m, mv, a, b) && Apart(d, k, m, a, b, a', b')
    ensures var r, z, u := Residuals(t, v, a, b), Residuals(t, v, a', b'), Minus(t, m);
      Exceeds(Dot(z, z), Dot(r, r), |t| as real, d, k, Dot(u, u))
  {
    var r, z, u := Residuals(t, v, a, b), Residuals(t, v, a', b'), Minus(t, m);
    LinesDiffer(t, v, m, a, b, a', b', d, k);
    NormalEquations(t, v, m, mv, a, b);
    AddLine(z, r, LineValues(d, k, u), d, k, u);
  }

  // ----- The fit is the regression line -----

  lemma CentreIsCentred(points: seq<Point>)
    requires points != []
    ensures var c := Centre(points);
      && Minus(Times(points), c.t0 + c.mt) == c.u
      && Minus(Values(points), c.mv) == c.w
      && Sum(c.u) == 0.0 && Sum(c.w) == 0.0
  {
    var c := Centre(points);
    assert Minus(Times(points), c.t0 + c.mt) == c.u;
    CentredSum(c.ts);
    CentredSum(Values(points));
  }

  lemma FitIsRegression(points: seq<Point>)
    requires LeastSquares(points).Some?
    ensures var c, fit := Centre(points), LeastSquares(points).value;
      Regression(Times(points), Values(points), c.t0 + c.mt, c.mv, fit.intercept, fit.Slope())
  {
    var c, fit := Centre(points), LeastSquares(points).value;
    CentreIsCentred(points);
    FitLine(points);
    SlopeSolves(c, fit.intercept, fit.Slope());
  }

  /** The fit's line: the centred line, moved back to the epoch. */
  ghost predicate IsLine(c: Centred, a: real, b: real)
    requires |c.u| == |c.w|
  {
    Dot(c.u, c.u) != 0.0 && b == Ratio(Dot(c.u, c.w), Dot(c.u, c.u)) && a == Back(Back(c.mv, b, c.mt), b, c.t0)
  }

  lemma FitLine(points: seq<Point>)
    requires LeastSquares(points).Some?
    ensures IsLine(Centre(points), LeastSquares(points).value.intercept, LeastSquares(points).value.Slope())
  {
    var c := Centre(points);
    Undo(Ratio(Dot(c.u, c.w), Dot(c.u, c.u)));
  }

  lemma Undo(b: real)
    ensures b * 86400.0 / 86400.0 == b
  {
  }

  lemma SlopeSolves(c: Centred, a: real, b: real)
    requires |c.u| == |c.w| && IsLine(c, a, b)
    ensures Balanced(Dot(c.w, c.u), Dot(c.u, c.u), c.t0 + c.mt, c.mv, a, b)
  {
    DotCommutes(c.u, c.w);
    Solves(Dot(c.u, c.w), Dot(c.u, c.u), c.mt, c.mv, c.t0, a, b);
  }

  lemma Solves(sxy: real, sxx: real, mt: real, mv: real, t0: real, a: real, b: real)
    requires sxx != 0.0 && b == Ratio(sxy, sxx) && a == Back(Back(mv, b, mt), b, t0)
    ensures Balanced(sxy, sxx, t0 + mt, mv, a, b)
  {
    assert b * (t0 + mt) == b * mt + b * t0;
  }

  /** There is a line to fit exactly when two of the time stamps differ. */
  lemma FitExists(points: seq<Point>)
    ensures LeastSquares(points).Some? <==> Spread(points)
  {
    if |points| >= 2 {
      var c := Centre(points);
      DotSelf(c.u);
      if i, j :| 0 <= i < j < |points| && points[i].ts != points[j].ts {
        assert c.u[i] - c.u[j] == points[i].ts - points[j].ts;
        DotPos(c.u, if c.u[i] != 0.0 then i else j);
      } else {
        assert forall i | 0 < i < |points| :: points[0].ts == points[i].ts;
        Zeros(c.ts);
        Zeros(c.u);
      }
    }
  }

  /** Two of the time stamps differ. */
  ghost predicate Spread(points: seq<Point>) {
    exists i, j | 0 <= i < j < |points| :: points[i].ts != points[j].ts
  }

  /** What the fit says of the points themselves: how many, how long from the first to the last, and the last value. */
  lemma FitMeasures(points: seq<Point>)
    requires LeastSquares(points).Some?
    ensures var fit, first, last := LeastSquares(points).value, points[0], points[|points| - 1];
      fit.n == |points| && fit.spanHours == (last.ts - first.ts) / 3600.0 && fit.lastValue == last.value
  {
    var c := Centre(points);
    assert c.ts[|points| - 1] - c.ts[0] == points[|points| - 1].ts - points[0].ts;
  }

  /** The fit's value changes by `slopePerDay` in a day. */
  lemma SlopeIsPerDay(fit: Fit, ts: real)
    ensures fit.ValueAt(ts + 86400.0) - fit.ValueAt(ts) == fit.slopePerDay
  {
    var b := fit.slopePerDay / 86400.0;
    assert b * (ts + 86400.0) == b * ts + b * 86400.0;
  }

  /** The line a + b * t has the least squared error of all lines, and no other has as little. */
  ghost predicate Optimal(points: seq<Point>, a: real, b: real, a': real, b': real) {
    && Loss(points, a', b') >= Loss(points, a, b)
    && (Loss(points, a', b') == Loss(points, a, b) <==> a' == a && b' == b)
  }

  /** The fit has the least squared error of all lines, and no other line has as little. */
  lemma FitIsOptimal(points: seq<Point>, a: real, b: real)
    requires LeastSquares(points).Some?
    ensures var fit := LeastSquares(points).value;
      Optimal(points, fit.intercept, fit.Slope(), a, b)
  {
    var c, fit := Centre(points), LeastSquares(points).value;
    FitIsRegression(points);
    CentreIsCentred(points);
    DotSelf(c.u);
    RegressionIsOptimal(points, c.t0 + c.mt, c.mv, fit.intercept, fit.Slope(), a, b);
  }

  lemma RegressionIsOptimal(points: seq<Point>, m: real, mv: real, a: real, b: real, a': real, b': real)
    requires points != [] && Dot(Minus(Times(points), m), Minus(Times(points), m)) > 0.0
    requires Regression(Times(points), Values(points), m, mv, a, b)
    ensures Optimal(points, a, b, a', b')
  {
    var u := Minus(Times(points), m);
    var d, k := Distance(m, a, b, a', b');
    ExcessLoss(Times(points), Values(points), m, mv, a, b, a', b', d, k);
    SameLine(Loss(points, a', b'), Loss(points, a, b), |points| as real, d, k, a, b, a', b', m, Dot(u, u));
  }

  lemma Distance(m: real, a: real, b: real, a': real, b': real) returns (d: real, k: real)
    ensures Apart(d, k, m, a, b, a', b')
  {
    d, k := (a - a') + (b - b') * m, b - b';
  }

  lemma SameLine(zz: real, rr: real, n: real, d: real, k: real, a: real, b: real, a': real, b': real, m: real, uu: real)
    requires n > 0.0 && uu > 0.0
    requires Exceeds(zz, rr, n, d, k, uu) && Apart(d, k, m, a, b, a', b')
    ensures zz >= rr && (zz == rr <==> a' == a && b' == b)
  {
    ExcessIsPositive(zz, rr, n, d, k, uu);
    if b == b' {
      assert (b - b') * m == 0.0;
    }
  }

  // ----- The coefficient of determination -----

  /** The loss of the best horizontal line, the mean of the values. */
  ghost function FlatLoss(points: seq<Point>): real
    requires points != []
  {
    Loss(points, Mean(Values(points)), 0.0)
  }

  lemma FlatLossIsSpread(points: seq<Point>)
    requires points != []
    ensures FlatLoss(points) == Dot(Centre(points).w, Centre(points).w)
  {
    var mv := Mean(Values(points));
    assert Residuals(Times(points), Values(points), mv, 0.0) == Minus(Values(points), mv);
  }

  /** Moving the origin of time does not change what a line leaves unexplained. */
  lemma ShiftedResiduals(points: seq<Point>, t0: real, a: real, b: real)
    ensures Residuals(Minus(Times(points), t0), Values(points), a, b)
         == Residuals(Times(points), Values(points), Back(a, b, t0), b)
  {
    var shifted := Residuals(Minus(Times(points), t0), Values(points), a, b);
    var r := Residuals(Times(points), Values(points), Back(a, b, t0), b);
    forall i | 0 <= i < |points|
      ensures shifted[i] == r[i]
    {
      ShiftAt(points[i].ts, t0, a, b);
    }
  }

  lemma ShiftAt(t: real, t0: real, a: real, b: real)
    ensures a + b * (t - t0) == Back(a, b, t0) + b * t
  {
  }

  /** The share of the spread that the fit explains; 1 when there is no spread. */
  function Explained(best: real, flat: real): real {
    if flat == 0.0 then 1.0 else 1.0 - best / flat
  }

  lemma R2Clamped(points: seq<Point>, b: real)
    requires points != []
    ensures var fit := LineThroughCentre(points, b);
      fit.r2 == Round4(Determination(Loss(points, fit.intercept, fit.Slope()), FlatLoss(points)))
  {
    var c := Centre(points);
    FlatLossIsSpread(points);
    Undo(b);
    ShiftedResiduals(points, c.t0, Back(c.mv, b, c.mt), b);
  }

  /** r2 compares the fit with the mean; clamping it at zero never changes it. */
  lemma ClampNeverFires(points: seq<Point>)
    requires LeastSquares(points).Some?
    ensures var fit := LeastSquares(points).value;
      var best, flat := Loss(points, fit.intercept, fit.Slope()), FlatLoss(points);
      && 0.0 <= best <= flat
      && 0.0 <= Explained(best, flat) <= 1.0
      && fit.r2 == Round4(Explained(best, flat))
      && 0.0 <= fit.r2 <= 1.0
  {
    var c, fit := Centre(points), LeastSquares(points).value;
    FitIsOptimal(points, Mean(Values(points)), 0.0);
    R2Clamped(points, Ratio(Dot(c.u, c.w), Dot(c.u, c.u)));
    DotSelf(Residuals(Times(points), Values(points), fit.intercept, fit.Slope()));
    ShareInRange(Loss(points, fit.intercept, fit.Slope()), FlatLoss(points));
  }

  lemma ShareInRange(best: real, flat: real)
    requires 0.0 <= best <= flat
    ensures 0.0 <= Explained(best, flat) <= 1.0
    ensures Determination(best, flat) == Explained(best, flat)
    ensures 0.0 <= Round4(Explained(best, flat)) <= 1.0
  {
    if flat != 0.0 {
      assert 0.0 <= best / flat <= 1.0;
    }
  }

  lemma PerfectLine(points: seq<Point>, a: real, b: real)
    requires forall i | 0 <= i < |points| :: points[i].value == a + b * points[i].ts
    ensures Loss(points, a, b) == 0.0
  {
    Zeros(Residuals(Times(points), Values(points), a, b));
  }

  lemma LossIsPositive(points: seq<Point>, a: real, b: real)
    ensures Loss(points, a, b) >= 0.0
  {
    DotSelf(Residuals(Times(points), Values(points), a, b));
  }

  lemma FullyExplained(best: real, flat: real)
    requires best == 0.0
    ensures Round4(Explained(best, flat)) == 1.0
  {
    assert flat != 0.0 ==> 0.0 / flat == 0.0;
  }

  lemma OnlyLineOfNoLoss(points: seq<Point>, fit: Fit, a: real, b: real)
    requires Optimal(points, fit.intercept, fit.Slope(), a, b) && Loss(points, a, b) == 0.0
    ensures fit.intercept == a && fit.Slope() == b && Loss(points, fit.intercept, fit.Slope()) == 0.0
  {
    LossIsPositive(points, fit.intercept, fit.Slope());
  }

  /** Points that lie on one line give back that line, fully explained. */
  lemma ExactLineRecovered(points: seq<Point>, a: real, b: real)
    requires LeastSquares(points).Some?
    requires forall i | 0 <= i < |points| :: points[i].value == a + b * points[i].ts
    ensures var fit := LeastSquares(points).value;
      fit.intercept == a && fit.Slope() == b && fit.r2 == 1.0
  {
    var fit := LeastSquares(points).value;
    PerfectLine(points, a, b);
    FitIsOptimal(points, a, b);
    OnlyLineOfNoLoss(points, fit, a, b);
    ClampNeverFires(points);
    FullyExplained(Loss(points, fit.intercept, fit.Slope()), FlatLoss(points));
  }
}
