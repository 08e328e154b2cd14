/** Sums and sample means over exact reals: the sums and sample means the
    estimator is built from, each a recursive function. The residual sums
    are in module LeastSquares. */
module Stats {

  /** `v ** 2`. */
  function Square(v: real): real
  {
    v * v
  }

  /** The product of two factors, kept as a term of its own. It is used
      where a product of two computed quantities has to be recognised as the
      same term in two definitions (the intercept radicand, in the source's
      arithmetic and in the reference one) or where a sign lemma below speaks of
      it; the solver then matches it as a single term instead of redoing
      nonlinear arithmetic. Everywhere else plain `*` is used. */
  function Product(u: real, v: real): real
  {
    u * v
  }

  lemma ProductPositive(u: real, v: real)
    requires u > 0.0 && v > 0.0
    ensures Product(u, v) > 0.0
  {
  }

  /** Dividing out a positive factor keeps the sign. */
  lemma ProductSign(n: real, d: real)
    requires n > 0.0
    ensures Product(n, d) >= 0.0 ==> d >= 0.0
    ensures Product(n, d) > 0.0 ==> d > 0.0
    ensures d > 0.0 ==> Product(n, d) > 0.0
    ensures d >= 0.0 ==> Product(n, d) >= 0.0
  {
    if d < 0.0 {
      ProductPositive(n, 0.0 - d);
      assert Product(n, 0.0 - d) == 0.0 - Product(n, d);
    } else if d > 0.0 {
      ProductPositive(n, d);
    }
  }

  /** A square is never negative, and it is positive away from zero. */
  lemma SquareSign(v: real)
    ensures Square(v) >= 0.0 && (v != 0.0 ==> Square(v) > 0.0)
  {
    if v > 0.0 {
      ProductPositive(v, v);
    } else if v < 0.0 {
      ProductPositive(0.0 - v, 0.0 - v);
      assert Product(0.0 - v, 0.0 - v) == Square(v);
    }
  }

  /** `sum(s)`. */
  function Sum(s: seq<real>): real
  {
    if |s| == 0 then 0.0 else s[0] + Sum(s[1..])
  }

  /** `sum([v ** 2 for v in s])`. */
  function SumSquares(s: seq<real>): real
  {
    if |s| == 0 then 0.0 else Square(s[0]) + SumSquares(s[1..])
  }

  /** `sum([x[i] * y[i] for i in range(n)])` over two lists of length n. */
  function SumProducts(x: seq<real>, y: seq<real>): real
    requires |x| == |y|
  {
    if |x| == 0 then 0.0 else x[0] * y[0] + SumProducts(x[1..], y[1..])
  }

  /** `samp_mean(s)`: the sum divided by the length. An empty list divides
      by zero in the source; here the caller must rule it out. */
  function Mean(s: seq<real>): real
    requires |s| > 0
  {
    Sum(s) / (|s| as real)
  }

  /** `samp_mean([v ** 2 for v in s])`. */
  function MeanSquares(s: seq<real>): real
    requires |s| > 0
  {
    SumSquares(s) / (|s| as real)
  }

  /** `sum([x[i] * y[i] for i in range(n)]) / n` for n = len(y). */
  function MeanProducts(x: seq<real>, y: seq<real>): real
    requires |x| == |y| > 0
  {
    SumProducts(x, y) / (|y| as real)
  }

  /** A sequence whose every element is c sums to n·c, and so has mean c. */
  lemma {:induction false} SumConstant(s: seq<real>, c: real)
    requires forall i :: 0 <= i < |s| ==> s[i] == c
    ensures Sum(s) == (|s| as real) * c
  {
    if |s| > 0 {
      SumConstant(s[1..], c);
    }
  }

  /** A sum of squares is never negative. */
  lemma {:induction false} SumSquaresNonnegative(s: seq<real>)
    ensures SumSquares(s) >= 0.0
  {
    if |s| > 0 {
      SumSquaresNonnegative(s[1..]);
      SquareSign(s[0]);
    }
  }
}
