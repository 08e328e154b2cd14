# Least-squares estimator and line projector

This project models the two working functions of `lsm_project/lsm/functions.py`:

- `get_lsm_description` checks and converts two lists, the abscissas and the ordinates.
  It then handles a length mismatch by one of the strategies `FALL` and `CUT`, or by an unknown value.
  Last, it fits the line `incline · x + shift` by ordinary least squares in closed form.
  It returns the slope, the intercept and the standard errors of both.
- `get_lsm_lines` evaluates the fitted line over the abscissas.
  It also evaluates the two error lines, whose slope and intercept are both raised, or both lowered, by the errors.
  When no description is given it estimates one first.

All arithmetic is done over exact reals.
The source's `** 0.5` is a parameter `root: real -> real` of every member that takes a square root.
The lemmas that need its meaning require `IsSquareRoot(root)`: `root` is non-negative on the non-negative reals and squares back to its argument.

The files:

- `stats.dfy` (module `Stats`): the sums and sample means the estimator is built from; the residual sums are in `LeastSquares`.
- `least_squares.dfy` (module `LeastSquares`): the reference least-squares definitions over paired sequences.
  These are the slope, the intercept, the residual variance over n − 2 and the two squared standard errors.
  The module also holds what is proved about them: the normal equations, minimality, exact-line recovery and the sign of the error terms.
- `models.dfy` (module `LsmModels`): the error kinds, the arguments as a dynamically typed caller passes them, the strategies and the results.
- `functions.dfy` (module `LsmFunctions`): the gate, the dispatch, the arithmetic exactly as the source writes it, and the projector.
  It proves that the as-written arithmetic on paired lists is the reference fit.
- `worked_example.dfy` (module `WorkedExample`): the formulas on x = [1, 2, 3, 4], y = [2, 4, 5, 4].
- `cut_finding.dfy` (module `CutFinding`): the `CUT` strategy on lists of different lengths, as written and as intended.

Errors are values: `Result<T> = Ok(value) | Err(error)`, with `error` the Python exception's name.
When a radicand is negative, Python's `** 0.5` gives a complex number.
The model returns such a result as `ComplexErrors(fit)`, which keeps both radicands.

Two facts about the code worth stating up front:

- On x = [1, 2, 3, 4], y = [2, 4, 5, 4] the closed form at lines 66-71 gives slope 0.7 and intercept 2 (`WorkedExample.ExampleFit`).
- The error lines bracket the predicted line exactly where `incline_error · x + shift_error ≥ 0`, so a negative abscissa can swap them (`LsmFunctions.OrderedLines`, `LsmFunctions.NegativeAbscissaUnordered`).

## Model

| member | source | states |
|---|---|---|
| LsmFunctions.Convert | lsm_project/lsm/functions.py:41-46 | The conversion fails exactly when an argument cannot be iterated, with TypeError; otherwise it gives the items of both arguments. |
| LsmFunctions.Passes | lsm_project/lsm/functions.py:48-50 | The check loop passes exactly when every element is real and either the concatenation is empty or the shorter list has more than two elements. |
| LsmFunctions.Gate | lsm_project/lsm/functions.py:41-50 | TypeError for an argument that cannot be iterated. Otherwise it succeeds exactly when all elements are real and either both lists are empty or the shorter has more than two elements; a failure is ValueError. A success gives both lists' values, at their original lengths. |
| LsmFunctions.Elements | lsm_project/lsm/functions.py:21-25 | A list of floats passed in is a list of real elements whose values are the floats again. |
| LsmFunctions.Slice | lsm_project/lsm/functions.py:56-57 | Python's `s[:k]`: the first min(k, len(s)) elements of s. |
| LsmFunctions.Reconcile | lsm_project/lsm/functions.py:52-59 | Equal lengths pass through unchanged. Unequal lengths give RuntimeError under `FALL` and ValueError under an unknown strategy. `CUT` returns both lists unchanged. |
| LsmFunctions.AsWrittenFit | lsm_project/lsm/functions.py:61-96 | For n = len(ordinates): no ordinates divide by zero; fewer abscissas than ordinates raise IndexError; any other failure is a division by zero. A success has 0 < n <= len(abscissa). |
| LsmFunctions.Describe | lsm_project/lsm/functions.py:76-98 | Both errors are real exactly when both radicands are non-negative. They are then the roots of the radicands, beside the unchanged slope and intercept. Otherwise the radicands are returned as they are. |
| LsmFunctions.EstimateAsWritten | lsm_project/lsm/functions.py:61-98 | The estimate fails exactly when the arithmetic does, with the same exception. A success had 0 < len(ordinates) <= len(abscissa). |
| LsmFunctions.PairedFit | lsm_project/lsm/functions.py:61-96 | On lists of equal length the arithmetic succeeds exactly when the reference fit is defined: at least three points and non-constant abscissas. A failure is a division by zero. A success yields the reference slope, intercept and squared standard errors. |
| LsmFunctions.PairedEstimate | lsm_project/lsm/functions.py:61-98 | On lists of equal length the estimate succeeds exactly when the reference fit is defined, and a failure is a division by zero. When the fit is defined, the result is the reference line with the roots of the reference squared errors. |
| LsmFunctions.GetLsmDescription | lsm_project/lsm/functions.py:21-98 | A call that returns had accepted inputs. A result with complex errors arises only under `CUT` with more abscissas than ordinates. |
| LsmFunctions.InputValidation | lsm_project/lsm/functions.py:41-67 | TypeError for an argument that cannot be iterated. ValueError for a non-real element, and for a list of at most two elements beside a non-empty concatenation. ZeroDivisionError for two empty lists. A returning call had accepted inputs. |
| LsmFunctions.MismatchDispatch | lsm_project/lsm/functions.py:52-67 | Accepted lists of different lengths give RuntimeError under `FALL` and ValueError under an unknown strategy. `CUT` hands both lists unchanged to the arithmetic, which raises IndexError when the abscissas are the shorter. |
| LsmFunctions.DescriptionIsLeastSquares | lsm_project/lsm/functions.py:61-98 | For accepted lists of equal length, under any strategy, the call fails exactly when the abscissas are all equal, by a division by zero. Otherwise it returns the least-squares line and the roots of its squared standard errors. |
| LsmFunctions.RootOfZero | lsm_project/lsm/functions.py:85-96 | `** 0.5` of zero is zero. |
| LsmFunctions.RootsOfVariances | lsm_project/lsm/functions.py:76-96 | Errors taken as roots of two non-negative radicands are non-negative and square back to them. When the second radicand is the first times ms, the squared second error is the squared first error times ms. |
| LsmFunctions.StandardErrors | lsm_project/lsm/functions.py:76-96 | A returned description of equal-length lists has real, non-negative errors. Their squares are the reference squared errors, and the squared intercept error is the squared slope error times mean(x²). |
| LsmFunctions.ExactLineDescribed | lsm_project/lsm/functions.py:66-98 | Ordinates exactly on a line a·x + b over non-constant abscissas give the description (a, b, 0, 0). |
| LsmFunctions.Project | lsm_project/lsm/functions.py:124-144 | Both inputs are echoed, and all three lines have the length of the abscissas. predicted[i] = incline·x[i] + shift. upper[i] − predicted[i] = predicted[i] − lower[i] = incline_error·x[i] + shift_error. |
| LsmFunctions.GetLsmLines | lsm_project/lsm/functions.py:101-144 | A given description is projected as it is. Any success echoes the inputs and has a predicted line as long as the abscissas. |
| LsmFunctions.MissingDescriptionFitted | lsm_project/lsm/functions.py:119-120 | Without a description the call succeeds exactly for equal lengths of at least three with non-constant abscissas. It then projects the least-squares description. Different lengths, both at least three, give RuntimeError, as under `FALL`. |
| LsmFunctions.OrderedLines | lsm_project/lsm/functions.py:130-136 | lower <= predicted <= upper holds at every point exactly when incline_error·x[i] + shift_error >= 0 at every point. |
| LsmFunctions.OrderedOnNonnegativeAbscissas | lsm_project/lsm/functions.py:130-136 | Non-negative errors over non-negative abscissas keep the three lines ordered. |
| LsmFunctions.NegativeAbscissaUnordered | lsm_project/lsm/functions.py:130-136 | At the abscissa −1 with slope error 1 and intercept error 0, the upper line lies below the predicted one. |
| LeastSquares.SquaredErrorExpansion | lsm_project/lsm/functions.py:73-75 | The squared error of any line a·x + b is the quadratic in a and b over the sums of y², x·y, y, x² and x. |
| LeastSquares.ResidualSumExpansion | lsm_project/lsm/functions.py:73-75 | The residual sum of any line is sum(y) − a·sum(x) − n·b. |
| LeastSquares.SquaredErrorZero | lsm_project/lsm/functions.py:73-75 | The squared error of a line is non-negative, and zero exactly when every point lies on the line. |
| LeastSquares.ConstantIsOnMean | lsm_project/lsm/functions.py:81-83 | The abscissas lie on the constant line at their mean exactly when they are all equal. |
| LeastSquares.SpreadNonnegative | lsm_project/lsm/functions.py:66-69 | The slope denominator mean(x²) − mean(x)² is non-negative, and zero exactly when all abscissas are equal. |
| LeastSquares.NormalEquations | lsm_project/lsm/functions.py:71-75 | The fitted line passes through (mean x, mean y) and solves both normal equations, so its residuals sum to zero. |
| LeastSquares.LeastSquaresIsMinimal | lsm_project/lsm/functions.py:66-75 | No line has a smaller squared error than the fitted one; every other line has a strictly larger one. |
| LeastSquares.ExactLineRecovered | lsm_project/lsm/functions.py:66-96 | At least three points exactly on a·x + b over non-constant abscissas give slope a, intercept b, residual variance 0 and both squared errors 0. |
| LeastSquares.ErrorTerms | lsm_project/lsm/functions.py:76-96 | With at least three points and non-constant abscissas, the residual variance and both squared errors are non-negative. The squared intercept error is the squared slope error times mean(x²). |
| WorkedExample.ExampleFit | lsm_project/lsm/functions.py:66-96 | For x = [1, 2, 3, 4], y = [2, 4, 5, 4]: slope 7/10, intercept 2, residual variance 23/20, squared slope error 23/100, squared intercept error 69/40. |
| WorkedExample.ExampleDescription | lsm_project/lsm/functions.py:21-98 | Under `FALL` the estimator returns, for those points, (0.7, 2, root(0.23), root(1.725)). |
| CutFinding.CutKeepsLengths | lsm_project/lsm/functions.py:56-57 | As written, `CUT` on four abscissas and three ordinates leaves both lists unchanged. The result mixes whole-list and prefix means, with slope −4/15, intercept 8/3 and two negative radicands, so both errors are complex. |
| CutFinding.ReconcileTruncated | lsm_project/lsm/functions.py:52-59 | The intended dispatch: as written for `FALL`, an unknown strategy and equal lengths. `CUT` cuts both lists to the shorter length, so they are then paired. |
| CutFinding.GetLsmDescriptionTruncated | lsm_project/lsm/functions.py:21-98 | With the intended dispatch, a returning call had accepted inputs and its errors are real. |
| CutFinding.TruncatedCutIsLeastSquares | lsm_project/lsm/functions.py:56-57 | With the intended `CUT`, accepted lists of any lengths are fitted by least squares on their paired prefix. The call fails, dividing by zero, exactly when that prefix's abscissas are all equal. |
| CutFinding.TruncatedExactLine | lsm_project/lsm/functions.py:56-96 | With the intended `CUT`, a paired prefix exactly on a·x + b over non-constant abscissas gives (a, b, 0, 0). |
| CutFinding.TruncatedCutExample | lsm_project/lsm/functions.py:56-57 | With the intended `CUT`, four abscissas [1, 2, 3, 4] and ordinates [1, 2, 3] give slope 1, intercept 0 and both errors 0. |

## Left out

- `get_report` (lines 147-183): float-to-text rendering with three decimals and a file write. That is output formatting and I/O.
- Floating point: every value is an exact real. Rounding and near-zero denominators that are not exactly zero are not modelled. Neither is a slightly negative computed variance.
- `** 0.5`: a parameter `root`. Python's complex results of negative radicands are not computed; the radicands are returned instead (`ComplexErrors`).
- Python's dynamic typing at the boundary:
  - An argument is a list, another iterable or a non-iterable object (`Argument`).
  - An element is a real or not (`Element`). `bool` counting as a real, and the `int`/`float` distinction, are not modelled.
  - The consumption of one-shot iterators by `list(...)` is not modelled.
- `LsmFunctions.GetLsmLines` takes lists of reals. Non-numeric elements beside a given description are not modelled; the source would fail inside the list comprehensions.
- The module-level `EventLogger` (line 18) and `PRECISION` (line 17): logging and configuration state that the computation does not use.
- The helpers `_is_valid_measurments`, `_process_mismatch`, `_get_lsm_statistics` and `_get_lsm_description` (lines 186-225): placeholders that return constants, which nothing calls.
- The TypeError for a description that is not an `LSMDescription` (lines 121-122): static typing rules it out.
- `LsmFunctions.GetLsmDescription`: its own contract states only that a returning call had accepted inputs, and when complex errors arise. What it returns is stated by `InputValidation`, `MismatchDispatch`, `DescriptionIsLeastSquares` and `StandardErrors`.
- `LsmFunctions.AsWrittenFit`: the `n == 2` division by zero is modelled but unreachable, because the gate rejects lists of at most two elements.

## Findings

| source | as written | input that shows it | evidently intended | confidence | as-written member | corrected member |
|---|---|---|---|---|---|---|
| lsm_project/lsm/functions.py:56-57 | `CUT` slices both lists to `max(len(abscissa), len(ordinates))`, which keeps them whole. The lengths still differ. The arithmetic raises IndexError when the abscissas are the shorter; otherwise it mixes whole-list and prefix means. | abscissa [1, 2, 3, 4], ordinates [1, 2, 3], `CUT`: slope −4/15, intercept 8/3, both radicands negative, so the errors are complex | cut both lists to the shorter length. The three paired points lie on y = x, so slope 1, intercept 0, errors 0. | not executed | CutFinding.CutKeepsLengths | CutFinding.TruncatedCutIsLeastSquares |

`GetLsmDescription` keeps the dispatch as written.
`get_lsm_lines` always estimates under `FALL`, so within the model the correction changes only `CutFinding.GetLsmDescriptionTruncated`.
