/** The values the estimator and the line projector exchange: the error kinds
    they raise, the arguments as a dynamically typed caller passes them, the
    mismatch strategies, the fitted description and the projected lines. */
module LsmModels {

  /** The exceptions the estimator raises, by their Python names. */
  datatype ErrorKind = TypeError | ValueError | RuntimeError | IndexError | ZeroDivisionError

  datatype Result<T> = Ok(value: T) | Err(error: ErrorKind)

  datatype Option<T> = None | Some(value: T)

  /** One element of an input list: a real number (Python's `numbers.Real`,
      which takes in `int`, `float` and `bool`), or anything else. */
  datatype Element = Real(value: real) | NonReal

  /** An argument as passed: a list, some other iterable whose `list(...)` gives
      the items, or an object that cannot be iterated. */
  datatype Argument =
    | PyList(items: seq<Element>)
    | OtherIterable(items: seq<Element>)
    | NotIterable

  /** `MismatchStrategies.FALL`, `MismatchStrategies.CUT`, or any other value
      passed in its place. */
  datatype MismatchStrategy = Fall | Cut | Other

  /** The fitted line and the standard errors of its two coefficients. */
  datatype LSMDescription = LSMDescription(incline: real, shift: real, inclineError: real, shiftError: real)

  /** The two coefficients and the two radicands whose square roots are the
      standard errors. */
  datatype Fit = Fit(incline: real, shift: real, inclineRadicand: real, shiftRadicand: real)

  /** What the estimator returns: a description with real errors, or, when a
      radicand is negative, a result whose error is a complex number (Python's
      `** 0.5` of a negative float), kept here as its radicands. */
  datatype Estimate = Described(description: LSMDescription) | ComplexErrors(fit: Fit)

  /** The inputs echoed beside the predicted line and the two error lines. */
  datatype LSMLines = LSMLines(abscissa: seq<real>, ordinates: seq<real>,
                               linePredicted: seq<real>, lineAbove: seq<real>, lineUnder: seq<real>)
}
