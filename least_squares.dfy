/** Ordinary least squares over two paired sequences of exact reals, in the
    closed form the estimator uses: the slope, the intercept, the residual
    variance over n - 2 and the two squared standard errors. These are the
    reference definitions the estimator is proved against.

    The algebra is kept apart from the sequences: each inductive lemma states
    its result as a named relation between the sums of the samples, and a
    lemma over plain reals does the arithmetic on those sums. */
module LeastSquares {
  import opened Stats

  /** Every abscissa equals the first one. */
  predicate Constant(x: seq<real>)
  {
    forall i :: 0 <= i < |x| ==> x[i] == x[0]
  }

  /** The slope denominator `mean(x^2) - mean(x)^2`. */
  function Spread(x: seq<real>): real
    requires |x| > 0
  {
    MeanSquares(x) - Mean(x) * Mean(x)
  }

  /** Paired samples whose slope is defined. */
  predicate Solvable(x: seq<real>, y: seq<real>)
  {
    |x| == |y| && |x| > 0 && Spread(x) != 0.0
  }

  /** Paired samples whose slope and error terms are defined: at least three
      points, so that the division by n - 2 is safe. */
  predicate Estimable(x: seq<real>, y: seq<real>)
  {
    Solvable(x, y) && |x| >= 3
  }

  /** The slope: the mean product less the product of the means, over the
      spread. */
  function Incline(x: seq<real>, y: seq<real>): real
    requires Solvable(x, y)
  {
    (MeanProducts(x, y) - Mean(y) * Mean(x)) / Spread(x)
  }

  /** The intercept of the fitted line. */
  function Shift(x: seq<real>, y: seq<real>): real
    requires Solvable(x, y)
  {
    Mean(y) - Incline(x, y) * Mean(x)
  }

  /** The sum of the residuals `y[i] - a * x[i] - b` of the line a·x + b. */
  function ResidualSum(x: seq<real>, y: seq<real>, a: real, b: real): real
    requires |x| == |y|
  {
    if |x| == 0 then 0.0
    else (y[0] - a * x[0] - b) + ResidualSum(x[1..], y[1..], a, b)
  }

  /** `sum([(y[i] - a * x[i] - b) ** 2 for i in range(n)])`: the squared
      error of the line a·x + b over the samples. */
  function SquaredError(x: seq<real>, y: seq<real>, a: real, b: real): real
    requires |x| == |y|
  {
    if |x| == 0 then 0.0
    else Square(y[0] - a * x[0] - b) + SquaredError(x[1..], y[1..], a, b)
  }

  /** `(1 / (n - 2)) * sum(...)`: the squared error of the line a·x + b over
      n - 2, for n = len(y). */
  function Dispersion(x: seq<real>, y: seq<real>, a: real, b: real): real
    requires |x| == |y| && |y| != 2
  {
    (1.0 / ((|y| - 2) as real)) * SquaredError(x, y, a, b)
  }

  /** The residual variance of the fitted line. */
  function ResidualVariance(x: seq<real>, y: seq<real>): real
    requires Estimable(x, y)
  {
    Dispersion(x, y, Incline(x, y), Shift(x, y))
  }

  /** The squared standard error of the slope. */
  function InclineVariance(x: seq<real>, y: seq<real>): real
    requires Estimable(x, y)
  {
    ResidualVariance(x, y) / ((|x| as real) * Spread(x))
  }

  /** The squared standard error of the intercept. */
  function ShiftVariance(x: seq<real>, y: seq<real>): real
    requires Estimable(x, y)
  {
    Product(ResidualVariance(x, y), MeanSquares(x)) / ((|x| as real) * Spread(x))
  }

  /** The ordinates lie exactly on the line a·x + b. */
  predicate OnLine(x: seq<real>, y: seq<real>, a: real, b: real)
    requires |x| == |y|
  {
    forall i :: 0 <= i < |x| ==> y[i] == a * x[i] + b
  }

  // Relations between the sums of n samples: sx = sum(x), sy = sum(y),
  // sxx = sum(x^2), syy = sum(y^2), sxy = sum(x y); mx, my, mxx and mxy are
  // the corresponding means. The predicates and lemmas below take these as
  // plain reals, so that the algebra runs apart from the sequences.

  /** e is the squared error of the line a·x + b, written as a quadratic in
      a and b over the sums: the `sum(...)` of line 74 expanded. */
  predicate QuadraticError(e: real, syy: real, sxy: real, sy: real, sxx: real, sx: real, n: real,
                           a: real, b: real)
  {
    e == syy - 2.0 * a * sxy - 2.0 * b * sy + a * a * sxx + 2.0 * a * b * sx + n * (b * b)
  }

  /** e is the residual sum of the line a·x + b, written over the sums. */
  predicate LinearResidual(e: real, sy: real, sx: real, n: real, a: real, b: real)
  {
    e == sy - a * sx - n * b
  }

  /** The line a·x + b solves the two normal equations of least squares. */
  predicate NormalEquationsHold(sx: real, sy: real, sxx: real, sxy: real, n: real, a: real, b: real)
  {
    sy == a * sx + n * b && sxy == a * sxx + b * sx
  }

  lemma ExpansionStep(e: real, e': real, r: real, x0: real, y0: real, a: real, b: real,
                      syy: real, syy': real, sxy: real, sxy': real, sy: real, sy': real,
                      sxx: real, sxx': real, sx: real, sx': real, n: real, n': real)
    requires e == Square(r) + e' && r == y0 - a * x0 - b
    requires syy == Square(y0) + syy' && sxy == x0 * y0 + sxy' && sy == y0 + sy'
    requires sxx == Square(x0) + sxx' && sx == x0 + sx' && n == n' + 1.0
    ensures QuadraticError(e', syy', sxy', sy', sxx', sx', n', a, b) ==>
            QuadraticError(e, syy, sxy, sy, sxx, sx, n, a, b)
  {
  }

  lemma ExpansionBase(e: real, syy: real, sxy: real, sy: real, sxx: real, sx: real, n: real, a: real, b: real)
    requires e == 0.0 && syy == 0.0 && sxy == 0.0 && sy == 0.0 && sxx == 0.0 && sx == 0.0 && n == 0.0
    ensures QuadraticError(e, syy, sxy, sy, sxx, sx, n, a, b)
  {
  }

  /** The squared error of any line a·x + b is the quadratic
      `syy - 2 a sxy - 2 b sy + a^2 sxx + 2 a b sx + n b^2` in the sums. */
  lemma {:induction false} SquaredErrorExpansion(x: seq<real>, y: seq<real>, a: real, b: real)
    requires |x| == |y|
    ensures QuadraticError(SquaredError(x, y, a, b), SumSquares(y), SumProducts(x, y), Sum(y),
                           SumSquares(x), Sum(x), |x| as real, a, b)
  {
    if |x| > 0 {
      ExpansionStep(SquaredError(x, y, a, b), SquaredError(x[1..], y[1..], a, b), y[0] - a * x[0] - b,
                    x[0], y[0], a, b,
                    SumSquares(y), SumSquares(y[1..]), SumProducts(x, y), SumProducts(x[1..], y[1..]),
                    Sum(y), Sum(y[1..]), SumSquares(x), SumSquares(x[1..]), Sum(x), Sum(x[1..]),
                    |x| as real, |x[1..]| as real);
      SquaredErrorExpansion(x[1..], y[1..], a, b);
    } else {
      ExpansionBase(SquaredError(x, y, a, b), SumSquares(y), SumProducts(x, y), Sum(y),
                    SumSquares(x), Sum(x), |x| as real, a, b);
    }
  }

  lemma ResidualStep(e: real, e': real, x0: real, y0: real, a: real, b: real,
                     sy: real, sy': real, sx: real, sx': real, n: real, n': real)
    requires e == (y0 - a * x0 - b) + e' && sy == y0 + sy' && sx == x0 + sx' && n == n' + 1.0
    ensures LinearResidual(e', sy', sx', n', a, b) ==> LinearResidual(e, sy, sx, n, a, b)
  {
  }

  lemma ResidualBase(e: real, sy: real, sx: real, n: real, a: real, b: real)
    requires e == 0.0 && sy == 0.0 && sx == 0.0 && n == 0.0
    ensures LinearResidual(e, sy, sx, n, a, b)
  {
  }

  /** The residuals of any line a·x + b sum to `sy - a sx - n b`. */
  lemma {:induction false} ResidualSumExpansion(x: seq<real>, y: seq<real>, a: real, b: real)
    requires |x| == |y|
    ensures LinearResidual(ResidualSum(x, y, a, b), Sum(y), Sum(x), |x| as real, a, b)
  {
    if |x| > 0 {
      ResidualStep(ResidualSum(x, y, a, b), ResidualSum(x[1..], y[1..], a, b), x[0], y[0], a, b,
                   Sum(y), Sum(y[1..]), Sum(x), Sum(x[1..]), |x| as real, |x[1..]| as real);
      ResidualSumExpansion(x[1..], y[1..], a, b);
    } else {
      ResidualBase(ResidualSum(x, y, a, b), Sum(y), Sum(x), |x| as real, a, b);
    }
  }

  lemma ZeroStep(e: real, r: real, e': real)
    requires e == Square(r) + e'
    ensures e' >= 0.0 ==> e >= 0.0 && (e == 0.0 <==> r == 0.0 && e' == 0.0)
  {
    SquareSign(r);
  }

  lemma OnLineTail(x: seq<real>, y: seq<real>, a: real, b: real)
    requires |x| == |y| > 0
    ensures OnLine(x, y, a, b) <==> y[0] == a * x[0] + b && OnLine(x[1..], y[1..], a, b)
  {
    if y[0] == a * x[0] + b && OnLine(x[1..], y[1..], a, b) {
      forall i | 0 <= i < |x| ensures y[i] == a * x[i] + b {
        if i > 0 {
          assert y[i] == y[1..][i - 1] && x[i] == x[1..][i - 1];
        }
      }
    }
  }

  /** A squared error is never negative, and it is zero exactly when every
      sample lies on the line. */
  lemma {:induction false} SquaredErrorZero(x: seq<real>, y: seq<real>, a: real, b: real)
    requires |x| == |y|
    ensures SquaredError(x, y, a, b) >= 0.0
    ensures SquaredError(x, y, a, b) == 0.0 <==> OnLine(x, y, a, b)
  {
    if |x| > 0 {
      ZeroStep(SquaredError(x, y, a, b), y[0] - a * x[0] - b, SquaredError(x[1..], y[1..], a, b));
      OnLineTail(x, y, a, b);
      SquaredErrorZero(x[1..], y[1..], a, b);
    }
  }

  lemma SpreadArithmetic(e: real, ss: real, sp: real, s: real, n: real, m: real, ms: real, spr: real)
    requires QuadraticError(e, ss, sp, s, ss, s, n, 0.0, m)
    requires SpreadFormulas(n, s, ss, m, ms, spr) && e >= 0.0
    ensures spr >= 0.0 && (spr == 0.0 <==> e == 0.0)
  {
    assert s == n * m && ss == n * ms;
    assert e == n * spr;
  }

  /** Every abscissa lies on the horizontal line through the mean exactly when
      the abscissas are all equal. */
  lemma ConstantIsOnMean(x: seq<real>)
    requires |x| > 0
    ensures OnLine(x, x, 0.0, Mean(x)) <==> Constant(x)
  {
    var m := Mean(x);
    if Constant(x) {
      SumConstant(x, x[0]);
      assert m == x[0];
    }
  }

  /** The slope denominator is never negative, and it is zero exactly when
      every abscissa is the same: exactly the inputs on which the slope
      division fails. */
  lemma SpreadNonnegative(x: seq<real>)
    requires |x| > 0
    ensures Spread(x) >= 0.0
    ensures Spread(x) == 0.0 <==> Constant(x)
  {
    var m := Mean(x);
    SpreadUnfolded(x);
    SquaredErrorExpansion(x, x, 0.0, m);
    SquaredErrorZero(x, x, 0.0, m);
    SpreadArithmetic(SquaredError(x, x, 0.0, m), SumSquares(x), SumProducts(x, x), Sum(x),
                     |x| as real, m, MeanSquares(x), Spread(x));
    ConstantIsOnMean(x);
  }

  /** The definitions of the means and of the spread, over the sums: the
      denominator `samp_mean([i ** 2 for i in abscissa]) - samp_mean(abscissa) ** 2`
      of line 69. */
  predicate SpreadFormulas(n: real, sx: real, sxx: real, mx: real, mxx: real, spr: real)
  {
    n > 0.0 && mx == sx / n && mxx == sxx / n && spr == mxx - mx * mx
  }

  /** The definitions of the slope and the intercept, over the sums: the
      `incline` of lines 66-69 and the `shift` of line 71. */
  predicate FitFormulas(n: real, sx: real, sy: real, sxx: real, sxy: real,
                        mx: real, my: real, mxx: real, mxy: real, spr: real, p: real, q: real)
  {
    && SpreadFormulas(n, sx, sxx, mx, mxx, spr) && spr != 0.0 && my == sy / n && mxy == sxy / n
    && p == (mxy - my * mx) / spr && q == my - p * mx
  }

  lemma SpreadUnfolded(x: seq<real>)
    requires |x| > 0
    ensures SpreadFormulas(|x| as real, Sum(x), SumSquares(x), Mean(x), MeanSquares(x), Spread(x))
  {
  }

  lemma FitUnfolded(x: seq<real>, y: seq<real>)
    requires Solvable(x, y)
    ensures FitFormulas(|x| as real, Sum(x), Sum(y), SumSquares(x), SumProducts(x, y),
                        Mean(x), Mean(y), MeanSquares(x), MeanProducts(x, y), Spread(x), Incline(x, y), Shift(x, y))
  {
    SpreadUnfolded(x);
  }

  lemma NormalArithmetic(n: real, sx: real, sy: real, sxx: real, sxy: real,
                         mx: real, my: real, mxx: real, mxy: real, spr: real, p: real, q: real)
    requires FitFormulas(n, sx, sy, sxx, sxy, mx, my, mxx, mxy, spr, p, q)
    ensures NormalEquationsHold(sx, sy, sxx, sxy, n, p, q)
  {
    assert sx == n * mx && sy == n * my && sxx == n * mxx;
    assert p * spr == mxy - my * mx;
    assert sxy == n * mxy;
    assert sxy - p * sxx - q * sx == n * ((mxy - my * mx) - p * spr);
  }

  lemma ZeroResidual(e: real, sx: real, sy: real, sxx: real, sxy: real, n: real, a: real, b: real)
    requires LinearResidual(e, sy, sx, n, a, b) && NormalEquationsHold(sx, sy, sxx, sxy, n, a, b)
    ensures e == 0.0
  {
  }

  /** The fitted line passes through the point of means, and it solves both
      normal equations; so its residuals, the terms squared at the residual
      variance, sum to zero. */
  lemma NormalEquations(x: seq<real>, y: seq<real>)
    requires Solvable(x, y)
    ensures Mean(y) == Incline(x, y) * Mean(x) + Shift(x, y)
    ensures NormalEquationsHold(Sum(x), Sum(y), SumSquares(x), SumProducts(x, y), |x| as real,
                                Incline(x, y), Shift(x, y))
    ensures ResidualSum(x, y, Incline(x, y), Shift(x, y)) == 0.0
  {
    var p, q := Incline(x, y), Shift(x, y);
    FitUnfolded(x, y);
    NormalArithmetic(|x| as real, Sum(x), Sum(y), SumSquares(x), SumProducts(x, y),
                     Mean(x), Mean(y), MeanSquares(x), MeanProducts(x, y), Spread(x), p, q);
    ResidualSumExpansion(x, y, p, q);
    ZeroResidual(ResidualSum(x, y, p, q), Sum(x), Sum(y), SumSquares(x), SumProducts(x, y), |x| as real, p, q);
  }

  lemma DifferenceExpanded(e: real, e0: real, syy: real, sxy: real, sy: real, sxx: real, sx: real, n: real,
                           a: real, b: real, p: real, q: real)
    requires QuadraticError(e, syy, sxy, sy, sxx, sx, n, a, b)
    requires QuadraticError(e0, syy, sxy, sy, sxx, sx, n, p, q)
    ensures e - e0 == - 2.0 * (a - p) * sxy - 2.0 * (b - q) * sy + (2.0 * p * (a - p) + (a - p) * (a - p)) * sxx
                      + 2.0 * (p * (b - q) + q * (a - p) + (a - p) * (b - q)) * sx
                      + n * (2.0 * q * (b - q) + (b - q) * (b - q))
  {
  }

  /** d is the quadratic form `da^2 sxx + 2 da db sx + n db^2` of the sums. */
  predicate QuadraticForm(d: real, da: real, db: real, sxx: real, sx: real, n: real)
  {
    d == (da * da) * sxx + 2.0 * da * db * sx + n * (db * db)
  }

  lemma DifferenceAtNormal(d: real, sxy: real, sy: real, sxx: real, sx: real, n: real,
                           p: real, q: real, da: real, db: real)
    requires d == - 2.0 * da * sxy - 2.0 * db * sy + (2.0 * p * da + da * da) * sxx
                  + 2.0 * (p * db + q * da + da * db) * sx + n * (2.0 * q * db + db * db)
    requires NormalEquationsHold(sx, sy, sxx, sxy, n, p, q)
    ensures QuadraticForm(d, da, db, sxx, sx, n)
  {
    assert sxy == p * sxx + q * sx && sy == p * sx + n * q;
  }

  /** How much more the line a·x + b misses than a line p·x + q that solves
      the normal equations: a quadratic form in (a - p, b - q). */
  lemma QuadraticDifference(e: real, e0: real, syy: real, sxy: real, sy: real, sxx: real, sx: real, n: real,
                            a: real, b: real, p: real, q: real)
    requires QuadraticError(e, syy, sxy, sy, sxx, sx, n, a, b)
    requires QuadraticError(e0, syy, sxy, sy, sxx, sx, n, p, q)
    requires NormalEquationsHold(sx, sy, sxx, sxy, n, p, q)
    ensures QuadraticForm(e - e0, a - p, b - q, sxx, sx, n)
  {
    DifferenceExpanded(e, e0, syy, sxy, sy, sxx, sx, n, a, b, p, q);
    DifferenceAtNormal(e - e0, sxy, sy, sxx, sx, n, p, q, a - p, b - q);
  }

  lemma FormIdentity(d: real, da: real, db: real, sxx: real, sx: real, n: real,
                      mx: real, mxx: real, spr: real, u: real, k: real)
    requires QuadraticForm(d, da, db, sxx, sx, n) && SpreadFormulas(n, sx, sxx, mx, mxx, spr)
    requires u == n * db + da * sx && k == (n * n) * spr
    ensures n * d == u * u + (da * da) * k
  {
    assert sx == n * mx && sxx == n * mxx;
    assert (n * n) * mxx == n * sxx && (n * n) * (mx * mx) == sx * sx;
    assert k == n * sxx - sx * sx;
  }

  /** The quadratic form `da^2 sxx + 2 da db sx + n db^2` of the samples is
      never negative, and it is positive away from (0, 0) when the spread is. */
  lemma QuadraticFormNonnegative(d: real, da: real, db: real, sxx: real, sx: real, n: real,
                                 mx: real, mxx: real, spr: real)
    requires QuadraticForm(d, da, db, sxx, sx, n) && SpreadFormulas(n, sx, sxx, mx, mxx, spr) && spr >= 0.0
    ensures d >= 0.0
    ensures spr > 0.0 && (da != 0.0 || db != 0.0) ==> d > 0.0
  {
    var u, k := n * db + da * sx, (n * n) * spr;
    FormIdentity(d, da, db, sxx, sx, n, mx, mxx, spr, u, k);
    assert Product(n, d) == Square(u) + Product(k, Square(da));
    SquareSign(u);
    SquareSign(da);
    ProductPositive(n, n);
    ProductSign(Product(n, n), spr);
    assert k >= 0.0 && (spr > 0.0 ==> k > 0.0);
    if k > 0.0 {
      ProductSign(k, Square(da));
      if da != 0.0 {
        ProductPositive(k, Square(da));
      }
    } else {
      assert Product(k, Square(da)) == 0.0;
    }
    if spr > 0.0 && da == 0.0 && db != 0.0 {
      assert u == Product(n, db);
      ProductSign(n, db);
      ProductSign(n, 0.0 - db);
      assert Product(n, 0.0 - db) == 0.0 - Product(n, db);
    }
    ProductSign(n, d);
  }

  /** The fitted line minimises the squared error: no line a·x + b fits the
      samples more closely, and when the abscissas are not all equal, no
      other line fits them as closely. */
  lemma LeastSquaresIsMinimal(x: seq<real>, y: seq<real>, a: real, b: real)
    requires Solvable(x, y)
    ensures SquaredError(x, y, a, b) >= SquaredError(x, y, Incline(x, y), Shift(x, y))
    ensures a != Incline(x, y) || b != Shift(x, y) ==>
            SquaredError(x, y, a, b) > SquaredError(x, y, Incline(x, y), Shift(x, y))
  {
    var p, q := Incline(x, y), Shift(x, y);
    var e, e0 := SquaredError(x, y, a, b), SquaredError(x, y, p, q);
    NormalEquations(x, y);
    SpreadNonnegative(x);
    SpreadUnfolded(x);
    SquaredErrorExpansion(x, y, a, b);
    SquaredErrorExpansion(x, y, p, q);
    QuadraticDifference(e, e0, SumSquares(y), SumProducts(x, y), Sum(y), SumSquares(x), Sum(x), |x| as real,
                        a, b, p, q);
    QuadraticFormNonnegative(e - e0, a - p, b - q, SumSquares(x), Sum(x), |x| as real,
                             Mean(x), MeanSquares(x), Spread(x));
  }

  /** The definitions of the residual variance and of the two squared
      errors, over the squared error se, k = n - 2 and the spread: the
      `disp_y_sqr` of lines 73-75 and the two radicands of lines 76-96. */
  predicate VarianceFormulas(se: real, k: real, n: real, spr: real, ms: real, rv: real, iv: real, sv: real)
  {
    k >= 1.0 && n > 0.0 && spr != 0.0 && rv == (1.0 / k) * se && iv == rv / (n * spr) && sv == Product(rv, ms) / (n * spr)
  }

  lemma VarianceUnfolded(x: seq<real>, y: seq<real>)
    requires Estimable(x, y)
    ensures VarianceFormulas(SquaredError(x, y, Incline(x, y), Shift(x, y)), (|y| - 2) as real,
                             |x| as real, Spread(x), MeanSquares(x),
                             ResidualVariance(x, y), InclineVariance(x, y), ShiftVariance(x, y))
  {
  }

  lemma VanishingVariances(se: real, k: real, n: real, spr: real, ms: real, rv: real, iv: real, sv: real)
    requires VarianceFormulas(se, k, n, spr, ms, rv, iv, sv) && se == 0.0
    ensures rv == 0.0 && iv == 0.0 && sv == 0.0
  {
  }

  /** If the ordinates lie exactly on a line a·x + b over abscissas that are
      not all equal, the fit recovers that line, and the residual variance
      and both squared errors vanish. */
  lemma ExactLineRecovered(x: seq<real>, y: seq<real>, a: real, b: real)
    requires |x| == |y| >= 3 && !Constant(x) && OnLine(x, y, a, b)
    ensures Estimable(x, y)
    ensures Incline(x, y) == a && Shift(x, y) == b
    ensures ResidualVariance(x, y) == 0.0
    ensures InclineVariance(x, y) == 0.0 && ShiftVariance(x, y) == 0.0
  {
    SpreadNonnegative(x);
    SquaredErrorZero(x, y, a, b);
    SquaredErrorZero(x, y, Incline(x, y), Shift(x, y));
    LeastSquaresIsMinimal(x, y, a, b);
    VarianceUnfolded(x, y);
    VanishingVariances(SquaredError(x, y, Incline(x, y), Shift(x, y)), (|y| - 2) as real,
                       |x| as real, Spread(x), MeanSquares(x),
                       ResidualVariance(x, y), InclineVariance(x, y), ShiftVariance(x, y));
  }

  lemma ErrorArithmetic(se: real, k: real, n: real, spr: real, sx: real, ss: real, mx: real, ms: real,
                        rv: real, iv: real, sv: real)
    requires VarianceFormulas(se, k, n, spr, ms, rv, iv, sv) && SpreadFormulas(n, sx, ss, mx, ms, spr)
    requires se >= 0.0 && ss >= 0.0 && spr >= 0.0
    ensures rv >= 0.0 && iv >= 0.0 && sv >= 0.0 && sv == Product(iv, ms)
  {
    assert n * spr > 0.0;
    assert ms >= 0.0;
    assert rv >= 0.0;
    assert Product(rv, ms) / (n * spr) == (rv / (n * spr)) * ms;
  }

  /** With at least three points and abscissas that are not all equal, both
      squared errors are non-negative, so both standard errors are real, and
      the squared intercept error is the squared slope error times mean(x^2). */
  lemma ErrorTerms(x: seq<real>, y: seq<real>)
    requires Estimable(x, y)
    ensures ResidualVariance(x, y) >= 0.0
    ensures InclineVariance(x, y) >= 0.0 && ShiftVariance(x, y) >= 0.0
    ensures ShiftVariance(x, y) == Product(InclineVariance(x, y), MeanSquares(x))
  {
    SpreadNonnegative(x);
    SpreadUnfolded(x);
    SumSquaresNonnegative(x);
    SquaredErrorZero(x, y, Incline(x, y), Shift(x, y));
    VarianceUnfolded(x, y);
    ErrorArithmetic(SquaredError(x, y, Incline(x, y), Shift(x, y)), (|y| - 2) as real, |x| as real,
                    Spread(x), Sum(x), SumSquares(x), Mean(x), MeanSquares(x),
                    ResidualVariance(x, y), InclineVariance(x, y), ShiftVariance(x, y));
  }
}
