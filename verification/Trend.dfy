/**
 The least-squares projection of the KPI trend analyser and the warning level
 derived from it. Decimals and doubles are exact reals here.
 */
module Trend {
  import opened Common
  import opened RealArithmetic

  datatype Point = Point(x: real, y: real)
  datatype Line = Line(slope: real, intercept: real)

  function SumX(ps: seq<Point>): real { if ps == [] then 0.0 else ps[0].x + SumX(ps[1..]) }
  function SumY(ps: seq<Point>): real { if ps == [] then 0.0 else ps[0].y + SumY(ps[1..]) }
  function SumXY(ps: seq<Point>): real { if ps == [] then 0.0 else Times(ps[0].x, ps[0].y) + SumXY(ps[1..]) }
  function SumX2(ps: seq<Point>): real { if ps == [] then 0.0 else Times(ps[0].x, ps[0].x) + SumX2(ps[1..]) }

  /** n·Σx² − (Σx)², the determinant the fit divides by. */
  function Determinant(n: real, sx: real, sx2: real): real {
    n * sx2 - sx * sx
  }

  function Denominator(ps: seq<Point>): real {
    Determinant(|ps| as real, SumX(ps), SumX2(ps))
  }

  /** The line of the non-degenerate branch, from the four sums. */
  function SlopedLine(n: real, sx: real, sy: real, sxy: real, denom: real): Line
    requires n != 0.0 && denom != 0.0
  {
    var slope := (n * sxy - sx * sy) / denom;
    Line(slope, (sy - slope * sx) / n)
  }

  function LinearRegression(ps: seq<Point>): Line {
    var n := |ps|;
    if n < 2 then Line(0.0, if n == 1 then ps[0].y else 0.0)
    else
      var denom := Denominator(ps);
      if denom == 0.0 then Line(0.0, SumY(ps) / n as real)
      else SlopedLine(n as real, SumX(ps), SumY(ps), SumXY(ps), denom)
  }

  // ---- What the fit means ---------------------------------------------------

  function At(line: Line, x: real): real { line.intercept + line.slope * x }

  function Error(line: Line, x: real, y: real): real { y - At(line, x) }

  /** The sum of squared vertical errors of a line. */
  function SquaredError(ps: seq<Point>, line: Line): real {
    if ps == [] then 0.0 else Square(Error(line, ps[0].x, ps[0].y)) + SquaredError(ps[1..], line)
  }

  /** The sum of the squared heights of a line over the points' abscissas. */
  function SquaredHeights(ps: seq<Point>, line: Line): (r: real)
    ensures r >= 0.0
  {
    if ps == [] then 0.0
    else
      SquareSign(At(line, ps[0].x));
      Square(At(line, ps[0].x)) + SquaredHeights(ps[1..], line)
  }

  predicate SameX(ps: seq<Point>) {
    forall i, j :: 0 <= i < j < |ps| ==> ps[i].x == ps[j].x
  }

  /** t − slope·u − intercept·v, with sums (t, u, v) as the errors' moments. */
  function Residual(l: Line, t: real, u: real, v: real): real {
    t - l.slope * u - l.intercept * v
  }

  /** The errors of the line are orthogonal to constants and to x. */
  predicate NormalEquations(ps: seq<Point>, line: Line) {
    && Residual(line, SumY(ps), SumX(ps), |ps| as real) == 0.0
    && Residual(line, SumXY(ps), SumX2(ps), SumX(ps)) == 0.0
  }

  function Minus(a: Line, b: Line): Line { Line(a.slope - b.slope, a.intercept - b.intercept) }

  // ---- Polynomial identities, one per inductive step -------------------------

  /** Σ (i + s·x)², written with the sums the regression keeps. */
  function Quadratic(l: Line, sx2: real, sx: real, n: real): real {
    l.slope * l.slope * sx2 + 2.0 * l.slope * l.intercept * sx + l.intercept * l.intercept * n
  }

  /** The inner product of a line with the errors, from their two sums. */
  function Cross(d: Line, errorXSum: real, errorSum: real): real {
    d.slope * errorXSum + d.intercept * errorSum
  }

  lemma QuadraticStep(l: Line, x: real, sx2: real, sx: real, n: real)
    ensures Square(At(l, x)) + Quadratic(l, sx2, sx, n) == Quadratic(l, Times(x, x) + sx2, x + sx, n + 1.0)
  {
  }

  lemma ResidualStep(l: Line, x: real, y: real, t: real, u: real, v: real)
    ensures Error(l, x, y) + Residual(l, t, u, v) == Residual(l, y + t, x + u, v + 1.0)
  {
  }

  lemma ResidualXStep(l: Line, x: real, y: real, t: real, u: real, v: real, t1: real, u1: real)
    requires t1 == Times(x, y) + t && u1 == Times(x, x) + u
    ensures Times(Error(l, x, y), x) + Residual(l, t, u, v) == Residual(l, t1, u1, x + v)
  {
  }

  lemma CrossStep(d: Line, a: real, b: real, ex: real, e: real)
    ensures Cross(d, a, b) + Cross(d, ex, e) == Cross(d, a + ex, b + e)
  {
  }

  lemma CrossZero(d: Line)
    ensures Cross(d, 0.0, 0.0) == 0.0
  {
  }

  lemma ErrorDifference(x: real, y: real, best: Line, line: Line)
    ensures Error(line, x, y) == Error(best, x, y) - At(Minus(line, best), x)
  {
    assert (line.slope - best.slope) * x == line.slope * x - best.slope * x;
  }

  lemma SquareOfDifference(d: Line, x: real, e: real)
    ensures Square(e - At(d, x)) == Square(e) + Square(At(d, x)) - 2.0 * Cross(d, Times(e, x), e)
  {
    assert e * At(d, x) == d.slope * (e * x) + d.intercept * e;
  }

  lemma DecomposeStep(x: real, y: real, best: Line, line: Line)
    ensures var d, e := Minus(line, best), Error(best, x, y);
            Square(Error(line, x, y)) == Square(e) + Square(At(d, x)) - 2.0 * Cross(d, Times(e, x), e)
  {
    ErrorDifference(x, y, best, line);
    SquareOfDifference(Minus(line, best), x, Error(best, x, y));
  }

  lemma SpreadIdentity(n: real, sx: real, sx2: real, m: real)
    requires n > 0.0 && m == sx / n
    ensures Times(n, Quadratic(Line(1.0, -m), sx2, sx, n)) == Determinant(n, sx, sx2)
  {
    assert m * n == sx;
    var k := m * sx;
    assert (-m) * (-m) * n == k && n * k == sx * sx;
    assert n * (sx2 - k) == n * sx2 - n * k;
  }

  lemma SlopedLineSolves(n: real, sx: real, sy: real, sxy: real, sx2: real)
    requires n != 0.0 && Determinant(n, sx, sx2) != 0.0
    ensures var l := SlopedLine(n, sx, sy, sxy, Determinant(n, sx, sx2));
            Residual(l, sy, sx, n) == 0.0 && Residual(l, sxy, sx2, sx) == 0.0
  {
    var l := SlopedLine(n, sx, sy, sxy, Determinant(n, sx, sx2));
    QuotientIdentity(n * sxy - sx * sy, Determinant(n, sx, sx2), l.slope);
    QuotientIdentity(sy - l.slope * sx, n, l.intercept);
    NormalIdentity(n, sx, sy, sxy, sx2, l.slope, l.intercept);
  }

  lemma QuotientIdentity(a: real, b: real, q: real)
    requires b != 0.0 && q == a / b
    ensures q * b == a
  {
  }

  lemma NormalIdentity(n: real, sx: real, sy: real, sxy: real, sx2: real, slope: real, intercept: real)
    requires n != 0.0
    requires slope * (n * sx2 - sx * sx) == n * sxy - sx * sy
    requires intercept * n == sy - slope * sx
    ensures slope * sx2 + intercept * sx == sxy
  {
    assert n * (slope * sx2) == slope * (n * sx2);
    assert n * (intercept * sx) == (intercept * n) * sx;
    assert (sy - slope * sx) * sx == sx * sy - slope * (sx * sx);
    assert slope * (n * sx2 - sx * sx) == slope * (n * sx2) - slope * (sx * sx);
    assert n * (slope * sx2 + intercept * sx - sxy) == 0.0;
  }

  lemma {:induction false} HeightsExpanded(ps: seq<Point>, l: Line)
    ensures SquaredHeights(ps, l) == Quadratic(l, SumX2(ps), SumX(ps), |ps| as real)
  {
    if ps != [] {
      var rest := ps[1..];
      HeightsExpanded(rest, l);
      QuadraticStep(l, ps[0].x, SumX2(rest), SumX(rest), |rest| as real);
      assert |ps| as real == |rest| as real + 1.0;
    }
  }

  /** Σ (y − best(x)). */
  function ErrorSum(ps: seq<Point>, best: Line): real {
    if ps == [] then 0.0 else Error(best, ps[0].x, ps[0].y) + ErrorSum(ps[1..], best)
  }

  /** Σ (y − best(x))·x. */
  function ErrorXSum(ps: seq<Point>, best: Line): real {
    if ps == [] then 0.0 else Times(Error(best, ps[0].x, ps[0].y), ps[0].x) + ErrorXSum(ps[1..], best)
  }

  lemma {:induction false} ErrorSumExpanded(ps: seq<Point>, b: Line)
    ensures ErrorSum(ps, b) == Residual(b, SumY(ps), SumX(ps), |ps| as real)
  {
    if ps != [] {
      var rest := ps[1..];
      ErrorSumExpanded(rest, b);
      assert |ps| as real == |rest| as real + 1.0;
      ResidualStep(b, ps[0].x, ps[0].y, SumY(rest), SumX(rest), |rest| as real);
    }
  }

  lemma {:induction false} ErrorXSumExpanded(ps: seq<Point>, b: Line)
    ensures ErrorXSum(ps, b) == Residual(b, SumXY(ps), SumX2(ps), SumX(ps))
  {
    if ps != [] {
      var rest := ps[1..];
      ErrorXSumExpanded(rest, b);
      ResidualXStep(b, ps[0].x, ps[0].y, SumXY(rest), SumX2(rest), SumX(rest), SumXY(ps), SumX2(ps));
    }
  }

  lemma {:induction false} ErrorDecomposed(ps: seq<Point>, best: Line, line: Line)
    ensures SquaredError(ps, line) == SquaredError(ps, best) + SquaredHeights(ps, Minus(line, best))
                                      - 2.0 * Cross(Minus(line, best), ErrorXSum(ps, best), ErrorSum(ps, best))
  {
    if ps == [] {
      CrossZero(Minus(line, best));
    } else {
      var d, x, y, rest := Minus(line, best), ps[0].x, ps[0].y, ps[1..];
      ErrorDecomposed(rest, best, line);
      DecomposeStep(x, y, best, line);
      CrossStep(d, Times(Error(best, x, y), x), Error(best, x, y), ErrorXSum(rest, best), ErrorSum(rest, best));
    }
  }

  /**
   Pythagoras: for a line that solves the normal equations, any other line errs by exactly the squared distance
   more.
   */
  lemma ExcessError(ps: seq<Point>, best: Line, line: Line)
    requires NormalEquations(ps, best)
    ensures SquaredError(ps, line) == SquaredError(ps, best) + SquaredHeights(ps, Minus(line, best))
  {
    ErrorDecomposed(ps, best, line);
    ErrorSumExpanded(ps, best);
    ErrorXSumExpanded(ps, best);
    CrossZero(Minus(line, best));
  }

  lemma {:induction false} HeightsVanish(ps: seq<Point>, l: Line)
    ensures SquaredHeights(ps, l) == 0.0 <==> forall i :: 0 <= i < |ps| ==> At(l, ps[i].x) == 0.0
  {
    if ps != [] {
      HeightsVanish(ps[1..], l);
      assert forall i :: 0 < i < |ps| ==> ps[i] == ps[1..][i - 1];
      assert forall i :: 0 <= i < |ps[1..]| ==> ps[1..][i] == ps[i + 1];
      SquareSign(At(l, ps[0].x));
    }
  }

  function MeanX(ps: seq<Point>): real
    requires ps != []
  {
    SumX(ps) / |ps| as real
  }

  /** n·Σx² − (Σx)² is n times the squared spread of the abscissas around their mean. */
  lemma DenominatorIsSpread(ps: seq<Point>)
    requires ps != []
    ensures Denominator(ps) == Times(|ps| as real, SquaredHeights(ps, Line(1.0, -MeanX(ps))))
  {
    HeightsExpanded(ps, Line(1.0, -MeanX(ps)));
    SpreadIdentity(|ps| as real, SumX(ps), SumX2(ps), MeanX(ps));
  }

  /**
   The determinant is never negative, and zero exactly when all abscissas agree: the fallback is not a rounding
   guard.
   */
  lemma DenominatorSign(ps: seq<Point>)
    requires ps != []
    ensures Denominator(ps) >= 0.0
    ensures Denominator(ps) == 0.0 <==> SameX(ps)
  {
    DenominatorIsSpread(ps);
    ProductSign(|ps| as real, SquaredHeights(ps, Line(1.0, -MeanX(ps))));
    NoSpreadIffSameX(ps);
  }

  lemma NoSpreadIffSameX(ps: seq<Point>)
    requires ps != []
    ensures SquaredHeights(ps, Line(1.0, -MeanX(ps))) == 0.0 <==> SameX(ps)
  {
    var l := Line(1.0, -MeanX(ps));
    HeightsVanish(ps, l);
    assert forall i :: 0 <= i < |ps| ==> At(l, ps[i].x) == ps[i].x - MeanX(ps);
    if SameX(ps) {
      SameXSums(ps, ps[0].x);
      assert MeanX(ps) == ps[0].x by { MeanOfConstant(ps[0].x, |ps| as real, SumX(ps)); }
    }
  }

  lemma ProductSign(n: real, h: real)
    requires n > 0.0 && h >= 0.0
    ensures Times(n, h) >= 0.0 && (Times(n, h) == 0.0 <==> h == 0.0)
  {
  }

  lemma MeanOfConstant(c: real, n: real, sum: real)
    requires n > 0.0 && sum == Times(c, n)
    ensures sum / n == c
  {
  }

  lemma {:induction false} SameXSums(ps: seq<Point>, c: real)
    requires forall i :: 0 <= i < |ps| ==> ps[i].x == c
    ensures SumX(ps) == Times(c, |ps| as real)
    ensures SumXY(ps) == Times(c, SumY(ps))
  {
    if ps != [] {
      SameXSums(ps[1..], c);
      TimesSum(c, |ps[1..]| as real, 1.0);
      TimesSum(c, SumY(ps[1..]), ps[0].y);
      assert |ps| as real == |ps[1..]| as real + 1.0;
    }
  }

  lemma TimesSum(c: real, a: real, b: real)
    ensures Times(c, a + b) == Times(c, a) + c * b
  {
  }

  /** All three branches solve the normal equations. */
  lemma FitSolvesNormalEquations(ps: seq<Point>)
    requires ps != []
    ensures NormalEquations(ps, LinearRegression(ps))
  {
    if |ps| == 1 {
      assert ps[1..] == [];
    } else if Denominator(ps) == 0.0 {
      FlatFitSolves(ps);
    } else {
      SlopedFitSolves(ps);
    }
  }

  lemma FlatFitSolves(ps: seq<Point>)
    requires |ps| >= 2 && Denominator(ps) == 0.0
    ensures NormalEquations(ps, LinearRegression(ps))
  {
    var n, sy, mean := |ps| as real, SumY(ps), SumY(ps) / |ps| as real;
    assert LinearRegression(ps) == Line(0.0, mean);
    DenominatorSign(ps);
    SameXSums(ps, ps[0].x);
    MeanIdentity(n, sy, mean, ps[0].x, SumX(ps), SumXY(ps), SumX2(ps));
  }

  lemma MeanIdentity(n: real, sy: real, mean: real, c: real, sx: real, sxy: real, sx2: real)
    requires n > 0.0 && mean == sy / n
    requires sx == Times(c, n) && sxy == Times(c, sy)
    ensures Residual(Line(0.0, mean), sy, sx, n) == 0.0
    ensures Residual(Line(0.0, mean), sxy, sx2, sx) == 0.0
  {
    assert mean * n == sy;
    assert mean * (c * n) == c * (mean * n);
  }

  lemma SlopedFitSolves(ps: seq<Point>)
    requires |ps| >= 2 && Denominator(ps) != 0.0
    ensures NormalEquations(ps, LinearRegression(ps))
  {
    SlopedLineSolves(|ps| as real, SumX(ps), SumY(ps), SumXY(ps), SumX2(ps));
  }

  /** The fitted line minimises the sum of squared errors over all lines, in every branch. */
  lemma FitIsOptimal(ps: seq<Point>, line: Line)
    requires ps != []
    ensures SquaredError(ps, LinearRegression(ps)) <= SquaredError(ps, line)
  {
    FitSolvesNormalEquations(ps);
    ExcessError(ps, LinearRegression(ps), line);
  }

  /** The best line is unique exactly when two abscissas differ; otherwise the fallback picks the flat one. */
  lemma BestLineIsUnique(ps: seq<Point>)
    requires ps != []
    ensures !SameX(ps)
            <==> forall line | SquaredError(ps, line) <= SquaredError(ps, LinearRegression(ps)) ::
                   line == LinearRegression(ps)
  {
    if SameX(ps) {
      var other := TurnedLine(ps);
    } else {
      forall line | SquaredError(ps, line) <= SquaredError(ps, LinearRegression(ps))
        ensures line == LinearRegression(ps)
      {
        OnlyBestLine(ps, line);
      }
    }
  }

  /** Turning the line about a common abscissa changes no error. */
  lemma TurnedLine(ps: seq<Point>) returns (other: Line)
    requires ps != [] && SameX(ps)
    ensures other != LinearRegression(ps) && SquaredError(ps, other) == SquaredError(ps, LinearRegression(ps))
  {
    var fit := LinearRegression(ps);
    other := Line(fit.slope + 1.0, fit.intercept - ps[0].x);
    FitSolvesNormalEquations(ps);
    ExcessError(ps, fit, other);
    var d := Minus(other, fit);
    assert d == Line(1.0, -ps[0].x);
    assert forall i :: 0 <= i < |ps| ==> At(d, ps[i].x) == 0.0;
    HeightsVanish(ps, d);
  }

  lemma OnlyBestLine(ps: seq<Point>, line: Line)
    requires !SameX(ps)
    requires SquaredError(ps, line) <= SquaredError(ps, LinearRegression(ps))
    ensures line == LinearRegression(ps)
  {
    var fit := LinearRegression(ps);
    FitSolvesNormalEquations(ps);
    ExcessError(ps, fit, line);
    var d := Minus(line, fit);
    HeightsVanish(ps, d);
    var i, j :| 0 <= i < j < |ps| && ps[i].x != ps[j].x;
    assert At(d, ps[i].x) == 0.0 && At(d, ps[j].x) == 0.0;
    TwoRoots(d, ps[i].x, ps[j].x);
  }

  lemma TwoRoots(d: Line, x1: real, x2: real)
    requires x1 != x2 && At(d, x1) == 0.0 && At(d, x2) == 0.0
    ensures d == Line(0.0, 0.0)
  {
    assert d.slope * (x1 - x2) == 0.0;
  }

  /** Points on one line with two different abscissas give that line back. */
  lemma FitRecoversLine(ps: seq<Point>, line: Line)
    requires !SameX(ps)
    requires forall i :: 0 <= i < |ps| ==> ps[i].y == At(line, ps[i].x)
    ensures LinearRegression(ps) == line
  {
    NoErrorOnLine(ps, line);
    ErrorsNonNegative(ps, LinearRegression(ps));
    OnlyBestLine(ps, line);
  }

  lemma {:induction false} NoErrorOnLine(ps: seq<Point>, line: Line)
    requires forall i :: 0 <= i < |ps| ==> ps[i].y == At(line, ps[i].x)
    ensures SquaredError(ps, line) == 0.0
  {
    if ps != [] { NoErrorOnLine(ps[1..], line); }
  }

  lemma {:induction false} ErrorsNonNegative(ps: seq<Point>, line: Line)
    ensures SquaredError(ps, line) >= 0.0
  {
    if ps != [] {
      ErrorsNonNegative(ps[1..], line);
      SquareSign(Error(line, ps[0].x, ps[0].y));
    }
  }

  // ---- Warning levels --------------------------------------------------------

  datatype Level = NoWarning | Amber | Red
  datatype Direction = HigherBetter | LowerBetter

  function Grade(ratio: real): Level {
    if ratio < 0.85 then Red else if ratio < 0.99 then Amber else NoWarning
  }

  /** Decimal division throws on a zero divisor, which the scan logs and skips. */
  function ComputeWarningLevel(projected: real, target: real, direction: Direction): Result<Level> {
    if target == 0.0 then Ok(NoWarning)
    else if direction == HigherBetter then Ok(Grade(projected / target))
    else if projected == 0.0 then Err(DivideByZero)
    else Ok(Grade(target / projected))
  }

  function Severity(level: Level): int {
    match level case NoWarning => 0 case Amber => 1 case Red => 2
  }

  /** For a positive target a higher projection of a higher-is-better KPI never raises the warning. */
  lemma HigherBetterIsMonotone(p: real, q: real, target: real)
    requires target > 0.0 && p <= q
    ensures Severity(ComputeWarningLevel(q, target, HigherBetter).value)
            <= Severity(ComputeWarningLevel(p, target, HigherBetter).value)
  {
    assert q / target - p / target == (q - p) / target;
    assert p / target <= q / target;
  }

  /**
   A lower-is-better projection at or under a positive target should never warn.
   The code gets this right exactly for positive projections: zero throws and
   anything below zero is RED.
   */
  lemma OnTargetIsQuietIffPositive(projected: real, target: real)
    requires target > 0.0 && projected <= target
    ensures ComputeWarningLevel(projected, target, LowerBetter) == Ok(NoWarning) <==> projected > 0.0
    ensures projected < 0.0 ==> ComputeWarningLevel(projected, target, LowerBetter) == Ok(Red)
    ensures projected == 0.0 ==> ComputeWarningLevel(projected, target, LowerBetter) == Err(DivideByZero)
  {
    if projected != 0.0 {
      var ratio := target / projected;
      assert ratio * projected == target;
      assert projected < 0.0 ==> ratio < 0.0;
      assert projected > 0.0 ==> (ratio - 1.0) * projected >= 0.0;
      assert projected > 0.0 ==> ratio >= 1.0;
    }
  }

  /** How the two thresholds cut the ratio of two numbers, without dividing. */
  lemma GradeCuts(a: real, b: real)
    requires b > 0.0
    ensures Grade(a / b) == Red <==> 100.0 * a < 85.0 * b
    ensures Grade(a / b) == NoWarning <==> 100.0 * a >= 99.0 * b
  {
    var q := a / b;
    assert Times(q, b) == a;
    TimesOrder(q, 0.85, b);
    TimesOrder(q, 0.99, b);
  }

  lemma TimesOrder(p: real, q: real, b: real)
    requires b > 0.0
    ensures p < q <==> Times(p, b) < Times(q, b)
  {
    if p < q { assert (q - p) * b > 0.0; } else { assert (p - q) * b >= 0.0; }
  }

  /**
   For positive figures a projection warns RED when it misses the target by more than 15 percent and AMBER when by more
   than one, on the side the direction asks for.
   */
  lemma WarningIsMiss(projected: real, target: real)
    requires projected > 0.0 && target > 0.0
    ensures ComputeWarningLevel(projected, target, HigherBetter)
            == Ok(if 100.0 * projected < 85.0 * target then Red
                  else if 100.0 * projected < 99.0 * target then Amber else NoWarning)
    ensures ComputeWarningLevel(projected, target, LowerBetter)
            == Ok(if 100.0 * target < 85.0 * projected then Red
                  else if 100.0 * target < 99.0 * projected then Amber else NoWarning)
    ensures ComputeWarningLevel(projected, 0.0, HigherBetter) == Ok(NoWarning)
    ensures ComputeWarningLevel(projected, 0.0, LowerBetter) == Ok(NoWarning)
  {
    GradeCuts(projected, target);
    GradeCuts(target, projected);
  }
}
