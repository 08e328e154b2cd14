/** The formulas worked through on four points: x = [1, 2, 3, 4] and
    y = [2, 4, 5, 4] give the slope 7/10 and the intercept 2. */
module WorkedExample {
  import opened Stats
  import opened LeastSquares
  import opened LsmModels
  import opened LsmFunctions

  const Abscissa: seq<real> := [1.0, 2.0, 3.0, 4.0]
  const Ordinates: seq<real> := [2.0, 4.0, 5.0, 4.0]

  lemma ExampleSums()
    ensures Sum(Abscissa) == 10.0 && SumSquares(Abscissa) == 30.0
    ensures Sum(Ordinates) == 15.0 && SumProducts(Abscissa, Ordinates) == 41.0
  {
    var x, y := Abscissa, Ordinates;
    assert x[1..] == [2.0, 3.0, 4.0] && x[1..][1..] == [3.0, 4.0] && x[1..][1..][1..] == [4.0];
    assert y[1..] == [4.0, 5.0, 4.0] && y[1..][1..] == [5.0, 4.0] && y[1..][1..][1..] == [4.0];
  }

  lemma ExampleSquaredError()
    ensures SquaredError(Abscissa, Ordinates, 0.7, 2.0) == 2.3
  {
    var x, y := Abscissa, Ordinates;
    assert x[1..] == [2.0, 3.0, 4.0] && x[1..][1..] == [3.0, 4.0] && x[1..][1..][1..] == [4.0];
    assert y[1..] == [4.0, 5.0, 4.0] && y[1..][1..] == [5.0, 4.0] && y[1..][1..][1..] == [4.0];
    assert Square(2.0 - 0.7 * 1.0 - 2.0) == 0.49;
    assert Square(4.0 - 0.7 * 2.0 - 2.0) == 0.36;
    assert Square(5.0 - 0.7 * 3.0 - 2.0) == 0.81;
    assert Square(4.0 - 0.7 * 4.0 - 2.0) == 0.64;
  }

  /** The reference fit of the four points: slope 7/10, intercept 2, squared
      slope error 23/100 and squared intercept error 69/40. */
  lemma ExampleFit()
    ensures Estimable(Abscissa, Ordinates)
    ensures Incline(Abscissa, Ordinates) == 0.7 && Shift(Abscissa, Ordinates) == 2.0
    ensures ResidualVariance(Abscissa, Ordinates) == 1.15
    ensures InclineVariance(Abscissa, Ordinates) == 0.23 && ShiftVariance(Abscissa, Ordinates) == 1.725
  {
    ExampleSums();
    ExampleSquaredError();
    var x, y := Abscissa, Ordinates;
    assert Mean(x) == 2.5 && Mean(y) == 3.75 && MeanSquares(x) == 7.5 && MeanProducts(x, y) == 10.25;
    assert Spread(x) == 1.25;
    assert Incline(x, y) == 0.7;
    assert Shift(x, y) == 2.0;
    assert ResidualVariance(x, y) == 1.15;
    assert Product(1.15, 7.5) == 8.625;
  }

  /** `get_lsm_description` on the four points under the default strategy. */
  lemma ExampleDescription(root: real -> real)
    ensures GetLsmDescription(PyList(Elements(Abscissa)), PyList(Elements(Ordinates)), Fall, root) ==
            Ok(Described(LSMDescription(0.7, 2.0, root(0.23), root(1.725))))
  {
    var a, o := PyList(Elements(Abscissa)), PyList(Elements(Ordinates));
    ExampleFit();
    assert Abscissa[1] != Abscissa[0];
    DescriptionIsLeastSquares(a, o, Fall, root);
  }
}
