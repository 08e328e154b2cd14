/** `get_lsm_description` and `get_lsm_lines`: the input gate, the
    mismatch-strategy dispatch, the closed-form fit as the source writes it, and
    the three projected lines. The exact-real least-squares definitions of
    module LeastSquares are the reference the fit is proved against.

    The source takes the square root with `** 0.5`; here every member that
    takes one receives it as a parameter `root`, and the lemmas that need its
    meaning require `IsSquareRoot(root)`. */
module LsmFunctions {
  import opened Stats
  import opened LeastSquares
  import opened LsmModels

  /** Every element is a real number. */
  predicate AllReal(items: seq<Element>)
  {
    forall i :: 0 <= i < |items| ==> items[i].Real?
  }

  /** The conversion to lists: two lists are taken as they are, anything else
      is passed to `list(...)`, which fails on an object that is not iterable. */
  function Convert(abscissa: Argument, ordinates: Argument): (r: Result<(seq<Element>, seq<Element>)>)
    ensures r.Err? <==> abscissa.NotIterable? || ordinates.NotIterable?
    ensures r.Err? ==> r.error == TypeError
    ensures r.Ok? ==> r.value == (abscissa.items, ordinates.items)
  {
    if abscissa.PyList? && ordinates.PyList? then Ok((abscissa.items, ordinates.items))
    else if abscissa.NotIterable? || ordinates.NotIterable? then Err(TypeError)
    else Ok((abscissa.items, ordinates.items))
  }

  /** The check loop over `abscissa + ordinates`: every element it visits must
      be real and the shorter list must hold more than two elements, so an
      empty concatenation passes whatever the lengths. */
  function Passes(items: seq<Element>, shortest: int): (ok: bool)
    ensures ok <==> AllReal(items) && (|items| == 0 || shortest > 2)
  {
    if |items| == 0 then true
    else if !items[0].Real? || shortest <= 2 then false
    else
      assert forall i :: 1 <= i < |items| ==> items[i] == items[1..][i - 1];
      Passes(items[1..], shortest)
  }

  /** The values of a list of real elements. */
  function Reals(items: seq<Element>): (x: seq<real>)
    requires AllReal(items)
    ensures |x| == |items| && forall i :: 0 <= i < |x| ==> items[i] == Real(x[i])
  {
    seq(|items|, i requires 0 <= i < |items| => items[i].value)
  }

  /** A list of floats as the estimator receives it. */
  function Elements(x: seq<real>): (items: seq<Element>)
    ensures |items| == |x| && AllReal(items) && Reals(items) == x
  {
    seq(|x|, i requires 0 <= i < |x| => Real(x[i]))
  }

  lemma AllRealConcat(xs: seq<Element>, ys: seq<Element>)
    ensures AllReal(xs + ys) <==> AllReal(xs) && AllReal(ys)
  {
    if AllReal(xs) && AllReal(ys) {
      forall i | 0 <= i < |xs + ys| ensures (xs + ys)[i].Real? {
        if i >= |xs| {
          assert (xs + ys)[i] == ys[i - |xs|];
        }
      }
    }
    if AllReal(xs + ys) {
      assert forall i :: 0 <= i < |xs| ==> (xs + ys)[i] == xs[i];
      assert forall i :: 0 <= i < |ys| ==> (xs + ys)[|xs| + i] == ys[i];
    }
  }

  function Min(a: int, b: int): int
  {
    if a < b then a else b
  }

  function Max(a: int, b: int): int
  {
    if a < b then b else a
  }

  /** The conversion and the element-and-length check, which runs on the
      lengths as passed, before any mismatch is handled. */
  function Gate(abscissa: Argument, ordinates: Argument): (r: Result<(seq<real>, seq<real>)>)
    ensures abscissa.NotIterable? || ordinates.NotIterable? ==> r == Err(TypeError)
    ensures !abscissa.NotIterable? && !ordinates.NotIterable? ==>
              (r.Ok? <==> AllReal(abscissa.items) && AllReal(ordinates.items) &&
                          (|abscissa.items| + |ordinates.items| == 0 ||
                           Min(|abscissa.items|, |ordinates.items|) > 2))
    ensures !abscissa.NotIterable? && !ordinates.NotIterable? && r.Err? ==> r.error == ValueError
    ensures r.Ok? ==> !abscissa.NotIterable? && !ordinates.NotIterable? &&
                      AllReal(abscissa.items) && AllReal(ordinates.items) &&
                      r.value == (Reals(abscissa.items), Reals(ordinates.items))
  {
    match Convert(abscissa, ordinates)
    case Err(e) => Err(e)
    case Ok((xs, ys)) =>
      AllRealConcat(xs, ys);
      if !Passes(xs + ys, Min(|xs|, |ys|)) then Err(ValueError)
      else Ok((Reals(xs), Reals(ys)))
  }

  /** Python's slice `s[:k]` for k >= 0: the first k elements, or all of them
      when there are fewer. */
  function Slice(s: seq<real>, k: nat): (r: seq<real>)
    ensures |r| == Min(k, |s|)
    ensures forall i :: 0 <= i < |r| ==> r[i] == s[i]
  {
    if k < |s| then s[..k] else s
  }

  /** The mismatch dispatch. Its `CUT` branch slices both lists to the longer
      length, which leaves them as they were: the lengths still differ
      afterwards. */
  function Reconcile(x: seq<real>, y: seq<real>, strategy: MismatchStrategy): (r: Result<(seq<real>, seq<real>)>)
    ensures |x| == |y| ==> r == Ok((x, y))
    ensures |x| != |y| && strategy == Fall ==> r == Err(RuntimeError)
    ensures |x| != |y| && strategy == Other ==> r == Err(ValueError)
    ensures strategy == Cut ==> r == Ok((x, y))
  {
    if |x| == |y| then Ok((x, y))
    else
      match strategy
      case Fall => Err(RuntimeError)
      case Cut =>
        var x' := Slice(x, Max(|x|, |y|));
        var y' := Slice(y, Max(|x'|, |y|));
        Ok((x', y'))
      case Other => Err(ValueError)
  }

  /** `n * (samp_mean([x[i] ** 2 for i in range(n)]) - samp_mean(x) ** 2)`,
      the error denominator, for the first n abscissas `prefix` of x. */
  function ErrorScale(prefix: seq<real>, x: seq<real>): real
    requires |prefix| > 0 && |x| > 0
  {
    (|prefix| as real) * (MeanSquares(prefix) - Mean(x) * Mean(x))
  }

  /** The arithmetic as written, for n = len(ordinates): the products, the
      residuals and the mean of squares in the error terms read only the first
      n abscissas, while the slope, its denominator and the intercept use the
      mean of the whole abscissa list. Each division that can fail raises
      ZeroDivisionError, in the order the source evaluates them. */
  function AsWrittenFit(x: seq<real>, y: seq<real>): (r: Result<Fit>)
    ensures |y| == 0 ==> r == Err(ZeroDivisionError)
    ensures 0 < |y| && |x| < |y| ==> r == Err(IndexError)
    ensures r.Ok? ==> 0 < |y| <= |x|
    ensures r.Err? ==> r.error == ZeroDivisionError || r.error == IndexError
  {
    var n := |y|;
    if n == 0 then Err(ZeroDivisionError)
    else if |x| < n then Err(IndexError)
    else
      var prefix := x[..n];
      if Spread(x) == 0.0 then Err(ZeroDivisionError)
      else
        var incline := (MeanProducts(prefix, y) - Mean(y) * Mean(x)) / Spread(x);
        var shift := Mean(y) - incline * Mean(x);
        if n == 2 then Err(ZeroDivisionError)
        else
          var dispersion := Dispersion(prefix, y, incline, shift);
          var denominator := ErrorScale(prefix, x);
          if denominator == 0.0 then Err(ZeroDivisionError)
          else Ok(Fit(incline, shift, dispersion / denominator, Product(dispersion, MeanSquares(prefix)) / denominator))
  }

  /** The two `** 0.5` and the returned description: both errors are real
      exactly when both radicands are non-negative. */
  function Describe(fit: Fit, root: real -> real): (e: Estimate)
    ensures e.Described? <==> fit.inclineRadicand >= 0.0 && fit.shiftRadicand >= 0.0
    ensures e.Described? ==> e.description.incline == fit.incline && e.description.shift == fit.shift
    ensures e.Described? ==> e.description.inclineError == root(fit.inclineRadicand) &&
                             e.description.shiftError == root(fit.shiftRadicand)
    ensures e.ComplexErrors? ==> e.fit == fit
  {
    if fit.inclineRadicand >= 0.0 && fit.shiftRadicand >= 0.0 then
      Described(LSMDescription(fit.incline, fit.shift, root(fit.inclineRadicand), root(fit.shiftRadicand)))
    else
      ComplexErrors(fit)
  }

  /** Everything after the dispatch. */
  function EstimateAsWritten(x: seq<real>, y: seq<real>, root: real -> real): (r: Result<Estimate>)
    ensures r.Ok? ==> 0 < |y| <= |x|
    ensures r.Err? <==> AsWrittenFit(x, y).Err?
    ensures r.Err? ==> r.error == AsWrittenFit(x, y).error
  {
    match AsWrittenFit(x, y)
    case Err(e) => Err(e)
    case Ok(fit) => Ok(Describe(fit, root))
  }

  lemma PairedSpread(x: seq<real>, y: seq<real>)
    requires |x| == |y| > 0
    ensures x[..|y|] == x
    ensures Spread(x) >= 0.0 && (Spread(x) == 0.0 <==> Constant(x))
    ensures ErrorScale(x, x) == (|x| as real) * Spread(x)
    ensures Spread(x) != 0.0 ==> ErrorScale(x, x) != 0.0
  {
    SpreadNonnegative(x);
    if Spread(x) != 0.0 {
      ProductSign(|x| as real, Spread(x));
    }
  }

  /** On paired lists the arithmetic as written is ordinary least squares: it
      fails, by a division by zero, exactly when there are fewer than three
      points or the abscissas are all equal, and otherwise its coefficients
      and radicands are the reference slope, intercept and squared errors. */
  lemma PairedFit(x: seq<real>, y: seq<real>)
    requires |x| == |y|
    ensures AsWrittenFit(x, y).Ok? <==> Estimable(x, y)
    ensures AsWrittenFit(x, y).Err? ==> AsWrittenFit(x, y).error == ZeroDivisionError
    ensures Estimable(x, y) ==>
              AsWrittenFit(x, y).value ==
              Fit(Incline(x, y), Shift(x, y), InclineVariance(x, y), ShiftVariance(x, y))
  {
    if |y| > 0 {
      PairedSpread(x, y);
    }
  }

  /** On paired lists the estimate is always described with real errors, and
      they are the square roots of the reference squared errors. */
  lemma PairedEstimate(x: seq<real>, y: seq<real>, root: real -> real)
    ensures |x| == |y| ==> (EstimateAsWritten(x, y, root).Ok? <==> Estimable(x, y))
    ensures |x| == |y| && EstimateAsWritten(x, y, root).Err? ==>
              EstimateAsWritten(x, y, root).error == ZeroDivisionError
    ensures Estimable(x, y) ==>
              EstimateAsWritten(x, y, root) ==
              Ok(Described(LSMDescription(Incline(x, y), Shift(x, y),
                                          root(InclineVariance(x, y)), root(ShiftVariance(x, y)))))
  {
    if |x| == |y| {
      PairedFit(x, y);
      if Estimable(x, y) {
        ErrorTerms(x, y);
      }
    }
  }

  /** `get_lsm_description`. */
  function GetLsmDescription(abscissa: Argument, ordinates: Argument, strategy: MismatchStrategy,
                             root: real -> real): (r: Result<Estimate>)
    ensures r.Ok? ==> Accepted(abscissa, ordinates)
    ensures r.Ok? && r.value.ComplexErrors? ==>
              strategy == Cut && |abscissa.items| > |ordinates.items|
  {
    match Gate(abscissa, ordinates)
    case Err(e) => Err(e)
    case Ok((x, y)) =>
      match Reconcile(x, y, strategy)
      case Err(e) => Err(e)
      case Ok((x', y')) =>
        PairedEstimate(x', y', root);
        EstimateAsWritten(x', y', root)
  }

  /** Two iterable arguments of real elements, each of length at least three. */
  predicate Accepted(abscissa: Argument, ordinates: Argument)
  {
    && !abscissa.NotIterable? && !ordinates.NotIterable?
    && AllReal(abscissa.items) && AllReal(ordinates.items)
    && |abscissa.items| >= 3 && |ordinates.items| >= 3
  }

  /** The gate: an argument that cannot be iterated raises TypeError; a
      non-real element, or a list of at most two elements beside a non-empty
      concatenation, raises ValueError; two empty lists pass the check and
      then divide by zero. A call that returns had accepted inputs. */
  lemma InputValidation(abscissa: Argument, ordinates: Argument, strategy: MismatchStrategy, root: real -> real)
    ensures abscissa.NotIterable? || ordinates.NotIterable? ==>
              GetLsmDescription(abscissa, ordinates, strategy, root) == Err(TypeError)
    ensures !abscissa.NotIterable? && !ordinates.NotIterable? &&
            (!AllReal(abscissa.items) || !AllReal(ordinates.items)) ==>
              GetLsmDescription(abscissa, ordinates, strategy, root) == Err(ValueError)
    ensures !abscissa.NotIterable? && !ordinates.NotIterable? &&
            |abscissa.items| + |ordinates.items| > 0 && Min(|abscissa.items|, |ordinates.items|) <= 2 ==>
              GetLsmDescription(abscissa, ordinates, strategy, root) == Err(ValueError)
    ensures !abscissa.NotIterable? && !ordinates.NotIterable? &&
            |abscissa.items| == 0 && |ordinates.items| == 0 ==>
              GetLsmDescription(abscissa, ordinates, strategy, root) == Err(ZeroDivisionError)
    ensures GetLsmDescription(abscissa, ordinates, strategy, root).Ok? ==> Accepted(abscissa, ordinates)
  {
  }

  /** Lists of different lengths: `FALL` raises RuntimeError, an unknown
      strategy raises ValueError, and `CUT` hands both lists unchanged to the
      arithmetic, which raises IndexError when the abscissas are the shorter. */
  lemma MismatchDispatch(abscissa: Argument, ordinates: Argument, strategy: MismatchStrategy, root: real -> real)
    requires Accepted(abscissa, ordinates) && |abscissa.items| != |ordinates.items|
    ensures var r := GetLsmDescription(abscissa, ordinates, strategy, root);
            && (strategy == Fall ==> r == Err(RuntimeError))
            && (strategy == Other ==> r == Err(ValueError))
            && (strategy == Cut ==>
                  r == EstimateAsWritten(Reals(abscissa.items), Reals(ordinates.items), root))
            && (strategy == Cut && |abscissa.items| < |ordinates.items| ==> r == Err(IndexError))
  {
  }

  /** Accepted lists of equal length, whatever the strategy: the estimator
      fails, dividing by zero, exactly when the abscissas are all equal, and
      otherwise returns the least-squares line and the square roots of its
      squared standard errors. */
  lemma DescriptionIsLeastSquares(abscissa: Argument, ordinates: Argument, strategy: MismatchStrategy,
                                  root: real -> real)
    requires Accepted(abscissa, ordinates) && |abscissa.items| == |ordinates.items|
    ensures var r := GetLsmDescription(abscissa, ordinates, strategy, root);
            var x, y := Reals(abscissa.items), Reals(ordinates.items);
            && (r.Err? <==> Constant(x))
            && (r.Err? ==> r.error == ZeroDivisionError)
            && (!Constant(x) ==>
                  Estimable(x, y) &&
                  r == Ok(Described(LSMDescription(Incline(x, y), Shift(x, y),
                                                   root(InclineVariance(x, y)), root(ShiftVariance(x, y))))))
  {
    var x, y := Reals(abscissa.items), Reals(ordinates.items);
    PairedEstimate(x, y, root);
    SpreadNonnegative(x);
  }

  /** `** 0.5` on the non-negative reals. */
  ghost predicate IsSquareRoot(root: real -> real)
  {
    forall v :: v >= 0.0 ==> root(v) >= 0.0 && Square(root(v)) == v
  }

  lemma RootOfZero(root: real -> real)
    requires IsSquareRoot(root)
    ensures root(0.0) == 0.0
  {
    SquareSign(root(0.0));
  }

  /** The errors of a description that are the square roots of two squared
      errors, the second the first times ms. */
  lemma RootsOfVariances(d: LSMDescription, iv: real, sv: real, ms: real, root: real -> real)
    requires IsSquareRoot(root) && iv >= 0.0 && sv >= 0.0 && sv == Product(iv, ms)
    requires d.inclineError == root(iv) && d.shiftError == root(sv)
    ensures d.inclineError >= 0.0 && d.shiftError >= 0.0
    ensures Square(d.inclineError) == iv && Square(d.shiftError) == sv
    ensures Square(d.shiftError) == Product(Square(d.inclineError), ms)
  {
  }

  /** Both standard errors of a returned description are real and
      non-negative, their squares are the reference squared errors, and the
      squared intercept error is the squared slope error times mean(x^2). */
  lemma StandardErrors(abscissa: Argument, ordinates: Argument, strategy: MismatchStrategy, root: real -> real)
    requires Accepted(abscissa, ordinates) && |abscissa.items| == |ordinates.items|
    requires IsSquareRoot(root)
    ensures var r := GetLsmDescription(abscissa, ordinates, strategy, root);
            var x, y := Reals(abscissa.items), Reals(ordinates.items);
            r.Ok? ==>
              && Estimable(x, y) && r.value.Described?
              && r.value.description.inclineError >= 0.0 && r.value.description.shiftError >= 0.0
              && Square(r.value.description.inclineError) == InclineVariance(x, y)
              && Square(r.value.description.shiftError) == ShiftVariance(x, y)
              && Square(r.value.description.shiftError) ==
                 Product(Square(r.value.description.inclineError), MeanSquares(x))
  {
    DescriptionIsLeastSquares(abscissa, ordinates, strategy, root);
    var r := GetLsmDescription(abscissa, ordinates, strategy, root);
    if r.Ok? {
      ErrorTerms(Reals(abscissa.items), Reals(ordinates.items));
      RootsOfVariances(r.value.description,
                       InclineVariance(Reals(abscissa.items), Reals(ordinates.items)),
                       ShiftVariance(Reals(abscissa.items), Reals(ordinates.items)),
                       MeanSquares(Reals(abscissa.items)), root);
    }
  }

  /** Ordinates exactly on a line a·x + b over abscissas that are not all
      equal: the description is that line with both errors zero. */
  lemma ExactLineDescribed(abscissa: Argument, ordinates: Argument, strategy: MismatchStrategy,
                           root: real -> real, a: real, b: real)
    requires Accepted(abscissa, ordinates) && |abscissa.items| == |ordinates.items|
    requires !Constant(Reals(abscissa.items)) && OnLine(Reals(abscissa.items), Reals(ordinates.items), a, b)
    requires IsSquareRoot(root)
    ensures GetLsmDescription(abscissa, ordinates, strategy, root) == Ok(Described(LSMDescription(a, b, 0.0, 0.0)))
  {
    var x, y := Reals(abscissa.items), Reals(ordinates.items);
    ExactLineRecovered(x, y, a, b);
    DescriptionIsLeastSquares(abscissa, ordinates, strategy, root);
    RootOfZero(root);
  }

  // The line projector.

  /** The three lines of a description over the abscissas, with the inputs
      echoed: the predicted line, and the lines whose slope and intercept are
      both moved up, or both moved down, by the errors. */
  function Project(abscissa: seq<real>, ordinates: seq<real>, d: LSMDescription): (lines: LSMLines)
    ensures lines.abscissa == abscissa && lines.ordinates == ordinates
    ensures |lines.linePredicted| == |lines.lineAbove| == |lines.lineUnder| == |abscissa|
    ensures forall i :: 0 <= i < |abscissa| ==> lines.linePredicted[i] == d.incline * abscissa[i] + d.shift
    ensures forall i :: 0 <= i < |abscissa| ==>
              lines.lineAbove[i] - lines.linePredicted[i] == d.inclineError * abscissa[i] + d.shiftError &&
              lines.linePredicted[i] - lines.lineUnder[i] == d.inclineError * abscissa[i] + d.shiftError
  {
    var n := |abscissa|;
    LSMLines(abscissa, ordinates,
             seq(n, i requires 0 <= i < n => d.incline * abscissa[i] + d.shift),
             seq(n, i requires 0 <= i < n => (d.incline + d.inclineError) * abscissa[i] + d.shift + d.shiftError),
             seq(n, i requires 0 <= i < n => (d.incline - d.inclineError) * abscissa[i] + d.shift - d.shiftError))
  }

  /** `get_lsm_lines`: a missing description is estimated from the same lists
      under the default `FALL` strategy. */
  function GetLsmLines(abscissa: seq<real>, ordinates: seq<real>, description: Option<LSMDescription>,
                       root: real -> real): (r: Result<LSMLines>)
    ensures description.Some? ==> r == Ok(Project(abscissa, ordinates, description.value))
    ensures r.Ok? ==> r.value.abscissa == abscissa && r.value.ordinates == ordinates &&
                      |r.value.linePredicted| == |abscissa|
  {
    match description
    case Some(d) => Ok(Project(abscissa, ordinates, d))
    case None =>
      match GetLsmDescription(PyList(Elements(abscissa)), PyList(Elements(ordinates)), Fall, root)
      case Err(e) => Err(e)
      case Ok(Described(d)) => Ok(Project(abscissa, ordinates, d))
      case Ok(ComplexErrors(_)) => assert false; Err(TypeError)
  }

  /** Without a description, the lines are those of the least-squares fit of
      the lists, and the call fails as the estimator does under `FALL`. */
  lemma MissingDescriptionFitted(abscissa: seq<real>, ordinates: seq<real>, root: real -> real)
    ensures var r := GetLsmLines(abscissa, ordinates, None, root);
            && (r.Ok? <==> |abscissa| == |ordinates| >= 3 && !Constant(abscissa))
            && (r.Ok? ==>
                  Estimable(abscissa, ordinates) &&
                  r.value == Project(abscissa, ordinates,
                                     LSMDescription(Incline(abscissa, ordinates), Shift(abscissa, ordinates),
                                                    root(InclineVariance(abscissa, ordinates)),
                                                    root(ShiftVariance(abscissa, ordinates)))))
            && (|abscissa| != |ordinates| && Min(|abscissa|, |ordinates|) >= 3 ==> r == Err(RuntimeError))
  {
    var a, o := PyList(Elements(abscissa)), PyList(Elements(ordinates));
    InputValidation(a, o, Fall, root);
    if |abscissa| == |ordinates| >= 3 {
      DescriptionIsLeastSquares(a, o, Fall, root);
    }
  }

  /** The lower, predicted and upper lines are in that order at every point. */
  predicate Ordered(lines: LSMLines)
  {
    && |lines.lineUnder| == |lines.linePredicted| == |lines.lineAbove|
    && forall i :: 0 <= i < |lines.linePredicted| ==>
         lines.lineUnder[i] <= lines.linePredicted[i] <= lines.lineAbove[i]
  }

  /** The error lines bracket the predicted line exactly where the error
      term `inclineError·x + shiftError` is non-negative. */
  lemma OrderedLines(abscissa: seq<real>, ordinates: seq<real>, d: LSMDescription)
    ensures Ordered(Project(abscissa, ordinates, d)) <==>
            forall i :: 0 <= i < |abscissa| ==> d.inclineError * abscissa[i] + d.shiftError >= 0.0
  {
  }

  /** Non-negative errors over non-negative abscissas keep the lines ordered. */
  lemma OrderedOnNonnegativeAbscissas(abscissa: seq<real>, ordinates: seq<real>, d: LSMDescription)
    requires d.inclineError >= 0.0 && d.shiftError >= 0.0
    requires forall i :: 0 <= i < |abscissa| ==> abscissa[i] >= 0.0
    ensures Ordered(Project(abscissa, ordinates, d))
  {
    OrderedLines(abscissa, ordinates, d);
  }

  /** A negative abscissa swaps the error lines when the slope error
      dominates: the upper line then lies below the predicted one. */
  lemma NegativeAbscissaUnordered()
    ensures !Ordered(Project([-1.0], [0.0], LSMDescription(0.0, 0.0, 1.0, 0.0)))
  {
    var lines := Project([-1.0], [0.0], LSMDescription(0.0, 0.0, 1.0, 0.0));
    assert lines.lineAbove[0] - lines.linePredicted[0] == -1.0;
  }
}
