/** The `CUT` strategy. As written it slices both lists to the longer length,
    so lists of different lengths reach the arithmetic unchanged; the evident
    intent is to cut both to the shorter length, so that the fit runs on the
    paired prefix. This module shows the as-written behaviour on four
    abscissas and three ordinates and proves the intended one. */
module CutFinding {
  import opened Stats
  import opened LeastSquares
  import opened LsmModels
  import opened LsmFunctions

  const LongAbscissa: seq<real> := [1.0, 2.0, 3.0, 4.0]
  const ShortOrdinates: seq<real> := [1.0, 2.0, 3.0]

  lemma LongPairSums()
    ensures LongAbscissa[..3] == [1.0, 2.0, 3.0]
    ensures Sum(LongAbscissa) == 10.0 && SumSquares(LongAbscissa) == 30.0
    ensures Sum(ShortOrdinates) == 6.0 && SumSquares(LongAbscissa[..3]) == 14.0
    ensures SumProducts(LongAbscissa[..3], ShortOrdinates) == 14.0
  {
    var x, p, y := LongAbscissa, LongAbscissa[..3], ShortOrdinates;
    assert x[1..] == [2.0, 3.0, 4.0] && x[1..][1..] == [3.0, 4.0] && x[1..][1..][1..] == [4.0];
    assert p == [1.0, 2.0, 3.0];
    assert p[1..] == [2.0, 3.0] && p[1..][1..] == [3.0];
    assert y[1..] == [2.0, 3.0] && y[1..][1..] == [3.0];
  }

  lemma LongPairSquaredError()
    ensures SquaredError(LongAbscissa[..3], ShortOrdinates, -4.0 / 15.0, 8.0 / 3.0) == 734.0 / 225.0
  {
    var p, y := LongAbscissa[..3], ShortOrdinates;
    assert p == [1.0, 2.0, 3.0];
    assert p[1..] == [2.0, 3.0] && p[1..][1..] == [3.0];
    assert y[1..] == [2.0, 3.0] && y[1..][1..] == [3.0];
    assert Square(1.0 - (-4.0 / 15.0) * 1.0 - 8.0 / 3.0) == 441.0 / 225.0;
    assert Square(2.0 - (-4.0 / 15.0) * 2.0 - 8.0 / 3.0) == 4.0 / 225.0;
    assert Square(3.0 - (-4.0 / 15.0) * 3.0 - 8.0 / 3.0) == 289.0 / 225.0;
  }

  /** As written: with four abscissas and three ordinates, `CUT` leaves the
      lists as they are; the slope then mixes the whole-list mean of x with
      the products of the first three points, and both radicands are
      negative, so the returned errors are complex numbers. The slope of the
      three paired points is 1. */
  lemma CutKeepsLengths(root: real -> real)
    ensures Reconcile(LongAbscissa, ShortOrdinates, Cut) == Ok((LongAbscissa, ShortOrdinates))
    ensures GetLsmDescription(PyList(Elements(LongAbscissa)), PyList(Elements(ShortOrdinates)), Cut, root) ==
            Ok(ComplexErrors(Fit(-4.0 / 15.0, 8.0 / 3.0, -2936.0 / 4275.0, -41104.0 / 12825.0)))
  {
    var x, y, p := LongAbscissa, ShortOrdinates, LongAbscissa[..3];
    var a, o := PyList(Elements(x)), PyList(Elements(y));
    LongPairSums();
    LongPairSquaredError();
    assert Mean(x) == 2.5 && MeanSquares(x) == 7.5 && Spread(x) == 1.25;
    assert Mean(y) == 2.0 && MeanProducts(p, y) == 14.0 / 3.0 && MeanSquares(p) == 14.0 / 3.0;
    assert Dispersion(p, y, -4.0 / 15.0, 8.0 / 3.0) == 734.0 / 225.0;
    assert ErrorScale(p, x) == -19.0 / 4.0;
    assert Product(734.0 / 225.0, 14.0 / 3.0) == 10276.0 / 675.0;
    assert AsWrittenFit(x, y) == Ok(Fit(-4.0 / 15.0, 8.0 / 3.0, -2936.0 / 4275.0, -41104.0 / 12825.0));
    MismatchDispatch(a, o, Cut, root);
  }

  /** The dispatch with `CUT` corrected: both lists are cut to the shorter
      length. */
  function ReconcileTruncated(x: seq<real>, y: seq<real>, strategy: MismatchStrategy)
    : (r: Result<(seq<real>, seq<real>)>)
    ensures |x| == |y| ==> r == Ok((x, y))
    ensures |x| != |y| && strategy == Fall ==> r == Err(RuntimeError)
    ensures |x| != |y| && strategy == Other ==> r == Err(ValueError)
    ensures strategy == Cut ==> r == Ok((x[..Min(|x|, |y|)], y[..Min(|x|, |y|)]))
    ensures r.Ok? ==> |r.value.0| == |r.value.1|
  {
    if |x| == |y| then
      assert x[..|x|] == x && y[..|y|] == y;
      Ok((x, y))
    else
      match strategy
      case Fall => Err(RuntimeError)
      case Cut =>
        var m := Min(|x|, |y|);
        assert Slice(x, m) == x[..m] && Slice(y, m) == y[..m];
        Ok((Slice(x, m), Slice(y, m)))
      case Other => Err(ValueError)
  }

  /** `get_lsm_description` with the corrected dispatch. */
  function GetLsmDescriptionTruncated(abscissa: Argument, ordinates: Argument, strategy: MismatchStrategy,
                                      root: real -> real): (r: Result<Estimate>)
    ensures r.Ok? ==> Accepted(abscissa, ordinates) && r.value.Described?
  {
    match Gate(abscissa, ordinates)
    case Err(e) => Err(e)
    case Ok((x, y)) =>
      match ReconcileTruncated(x, y, strategy)
      case Err(e) => Err(e)
      case Ok((x', y')) =>
        PairedEstimate(x', y', root);
        EstimateAsWritten(x', y', root)
  }

  /** The intended `CUT`: accepted lists of any lengths are fitted on their
      paired prefix, by least squares, failing only when the abscissas of that
      prefix are all equal. */
  lemma TruncatedCutIsLeastSquares(abscissa: Argument, ordinates: Argument, root: real -> real)
    requires Accepted(abscissa, ordinates)
    ensures var m := Min(|abscissa.items|, |ordinates.items|);
            var x, y := Reals(abscissa.items)[..m], Reals(ordinates.items)[..m];
            var r := GetLsmDescriptionTruncated(abscissa, ordinates, Cut, root);
            && (r.Err? <==> Constant(x))
            && (r.Err? ==> r.error == ZeroDivisionError)
            && (!Constant(x) ==>
                  Estimable(x, y) &&
                  r == Ok(Described(LSMDescription(Incline(x, y), Shift(x, y),
                                                   root(InclineVariance(x, y)), root(ShiftVariance(x, y))))))
  {
    var m := Min(|abscissa.items|, |ordinates.items|);
    var x, y := Reals(abscissa.items)[..m], Reals(ordinates.items)[..m];
    if |abscissa.items| == |ordinates.items| {
      assert x == Reals(abscissa.items) && y == Reals(ordinates.items);
    }
    PairedEstimate(x, y, root);
    SpreadNonnegative(x);
  }

  /** Corrected, ordinates exactly on a line a·x + b over a paired prefix
      whose abscissas are not all equal give that line with both errors zero. */
  lemma TruncatedExactLine(abscissa: Argument, ordinates: Argument, root: real -> real, a: real, b: real)
    requires Accepted(abscissa, ordinates) && IsSquareRoot(root)
    requires var m := Min(|abscissa.items|, |ordinates.items|);
             !Constant(Reals(abscissa.items)[..m]) &&
             OnLine(Reals(abscissa.items)[..m], Reals(ordinates.items)[..m], a, b)
    ensures GetLsmDescriptionTruncated(abscissa, ordinates, Cut, root) == Ok(Described(LSMDescription(a, b, 0.0, 0.0)))
  {
    var m := Min(|abscissa.items|, |ordinates.items|);
    ExactLineRecovered(Reals(abscissa.items)[..m], Reals(ordinates.items)[..m], a, b);
    TruncatedCutIsLeastSquares(abscissa, ordinates, root);
    RootOfZero(root);
  }

  /** Corrected, the example of four abscissas and three ordinates is fitted
      on its three paired points, which lie on the line y = x. */
  lemma TruncatedCutExample(root: real -> real)
    requires IsSquareRoot(root)
    ensures GetLsmDescriptionTruncated(PyList(Elements(LongAbscissa)), PyList(Elements(ShortOrdinates)), Cut, root) ==
            Ok(Described(LSMDescription(1.0, 0.0, 0.0, 0.0)))
  {
    var a, o := PyList(Elements(LongAbscissa)), PyList(Elements(ShortOrdinates));
    var x, y := Reals(a.items)[..3], Reals(o.items)[..3];
    assert x == [1.0, 2.0, 3.0] && y == [1.0, 2.0, 3.0];
    assert x[1] != x[0];
    assert OnLine(x, y, 1.0, 0.0);
    TruncatedExactLine(a, o, root, 1.0, 0.0);
  }
}
