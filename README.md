# Prediction: a verified model of the least-squares line predictor

`Prediction/main.c` is an interactive C program. It reads paired
observations (x, y) from standard input and fits the line y = b0 + b1·x by
solving the normal equation XᵀX·B = Xᵀy. Then it answers every probe value of
x with a prediction b0 + b1·x. This project models the two parts of that
program over exact real arithmetic and proves what they compute.

- `linear_algebra.dfy` (module `LinearAlgebra`) holds 2×2 matrices and
  two-element vectors. It defines the closed-form inverse
  1/(ad − bc)·[[d, −b], [−c, a]] and proves that it inverts its matrix on
  both sides.
- `regression.dfy` (module `Regression`) holds `solveNormalEquation`.
  - The pure functions `Xtx`, `Xty` and `Fit` say what the solver computes:
    XᵀX = [[n, Σx], [Σx, Σx²]], Xᵀy = [Σy, Σx·y] and B = (XᵀX)⁻¹·Xᵀy.
  - `Gram` and `Moment` are independent reference definitions of XᵀX and Xᵀy.
    They are written as sums over the rows r_i = [1, x_i] of the design
    matrix X: `Gram` sums r_i·r_iᵀ and `Moment` sums y_i·r_i.
  - The class `NormalEquationVariables` is the C struct.
  - `SolveNormalEquation` follows the C routine step by step over arrays: it
    builds X and Xᵀ, accumulates the sums left to right, forms the
    adjugate, scales it, and multiplies the result by Xᵀy. It is proved equal
    to `Fit`.
  - Lemmas prove that `Fit` solves the normal equation uniquely and that it
    is the least-squares line. As a consequence, collinear data is recovered
    exactly.
  - Further lemmas show that the determinant the C code divides by is never
    negative, and that it is zero exactly when all x values are equal.
- `session.dfy` (module `Session`) holds `main`'s line-driven state machine.
  The input is a sequence of lines, one for each `fgets` call. `atof` is an
  uninterpreted function `parse`. `Run` specifies a whole run as an
  exit code plus the list of predictions printed. `RunSession` is `main`
  over the fixed arrays `xArr`/`yArr[BUFSIZ]`, and it is proved equal to
  `Run`.

The model follows the code as written, not a hardened redesign of it:

- A sentinel is recognised by the first character of a line alone, so `.5`
  ends a series and `!x` ends the prediction loop.
- `!` is not recognised while values are collected: such a line is parsed
  like any other.
- `?` is recognised only on the first name line. It causes exactly one
  re-read of the name, and that re-read honours `!`.
- There is no parse error, because `atof` is total.
- There is no degeneracy error. The code divides by the determinant
  unchecked, so a non-zero determinant is a precondition wherever a probe
  reaches the solver.
- The regression is recomputed for every probe.
- The prediction loop ends at its first `!` line and `main` returns 1. The
  name checks and the count check return 0.

## Model

| member | source | states |
|---|---|---|
| LinearAlgebra.Inverse | Prediction/main.c:163-183 | when det ≠ 0, the closed-form inverse 1/(ad − bc)·[[d, −b], [−c, a]] satisfies inverse·XTX = I and XTX·inverse = I |
| LinearAlgebra.AdjugateInverts | Prediction/main.c:163-183 | once s·det(m) = 1, s·[[d, −b], [−c, a]] is a two-sided inverse of m |
| LinearAlgebra.ApplyInjective | Prediction/main.c:185-190 | an invertible matrix maps distinct vectors to distinct vectors, so B is the only solution of XᵀX·B = Xᵀy |
| Regression.Xtx | Prediction/main.c:99-132 | the matrix the C code fills in, [[n, Σx], [Σx, Σx²]], is the sum of the outer products r_i·r_iᵀ of the rows r_i = [1, x_i] of X, i.e. XᵀX |
| Regression.Xty | Prediction/main.c:134-156 | the vector the C code fills in, [Σy, Σx·y], is the sum of y_i·[1, x_i] over the rows of X, i.e. Xᵀy |
| Regression.GramIsXtx | Prediction/main.c:99-132 | on every prefix, the sum of the outer products of the rows [1, x_i] of X is [[n, Σx], [Σx, Σx²]], with the same Σx in both off-diagonal cells, so it is symmetric |
| Regression.MomentIsXty | Prediction/main.c:134-156 | on every prefix, the sum of y_i·[1, x_i] is [Σy, Σx·y], with both sums taken left to right |
| Regression.Fit | Prediction/main.c:48-54 | the coefficients (XᵀX)⁻¹·Xᵀy solve the normal equation XᵀX·B = Xᵀy |
| Regression.NormalEquationUnique | Prediction/main.c:48-54 | any line b with XᵀX·b = Xᵀy is the fitted line |
| Regression.FitThroughMeans | Prediction/main.c:335-336 | for non-empty data with det ≠ 0, the fitted line b0 + b1·x predicts at the mean of the x values exactly the mean of the y values |
| Regression.SquaredErrorIsObjective | Prediction/main.c:10-13 | the sum of squared residuals of a line b is bᵀ·XᵀX·b − 2·bᵀ·Xᵀy + yᵀy |
| Regression.SquaredLineIsQuadratic | Prediction/main.c:10-13 | Σ (b0 + b1·x_i)² over the rows is the quadratic form of XᵀX at b |
| Regression.SquaredErrorSplit | Prediction/main.c:10-13 | the squared error splits into yᵀy − 2·Σ y_i·(b0 + b1·x_i) + Σ (b0 + b1·x_i)² |
| Regression.CrossTermIsInner | Prediction/main.c:10-13 | Σ y_i·(b0 + b1·x_i) is bᵀ·Xᵀy |
| Regression.FitIsLeastSquares | Prediction/main.c:10-13 | when det ≠ 0, no line has a smaller sum of squared residuals than the fitted one, and every other line has a strictly larger one |
| Regression.FitRecoversLine | Prediction/main.c:10-13 | when every (x_i, y_i) lies on y = b0 + b1·x and det ≠ 0, the fitted coefficients are exactly (b0, b1) |
| Regression.SquaredErrorNonNegative | Prediction/main.c:10-13 | a sum of squared residuals is never negative |
| Regression.OnLineNoError | Prediction/main.c:10-13 | data lying on the line b has zero squared error under b |
| Regression.DetNonNegative | Prediction/main.c:163-165 | the determinant n·Σx² − (Σx)² that the code divides by is never negative |
| Regression.ScaledDetIsQuadratic | Prediction/main.c:163-165 | n·det(XᵀX) is the quadratic form of XᵀX at (−Σx, n), which is a sum of squares |
| Regression.DegenerateIffAllEqual | Prediction/main.c:163-166 | the determinant is zero exactly when all x values are equal (including no data and one observation); the C code divides by it unchecked, so such data gives infinite or undefined coefficients |
| Regression.InverseCells | Prediction/main.c:163-172 | the cells the code computes, 1/(ad − bc)·dbca with bc taken as XTX[0][1]², are the inverse of the symmetric XᵀX |
| Regression.ApplyCells | Prediction/main.c:189-190 | vectorB[i] = XTy[0]·inverse[i][0] + XTy[1]·inverse[i][1] is the product inverse·Xᵀy |
| Regression.SolveNormalEquation | Prediction/main.c:66-194 | (v.b0, v.b1) becomes (XᵀX)⁻¹·Xᵀy over the first size values, which is Fit; only b0 and b1 are written, and the arrays and counts are unchanged, so a repeated call gives the same coefficients |
| Regression.DesignMatrix | Prediction/main.c:70-80 | row k of X is [1, x_k] |
| Regression.DesignTranspose | Prediction/main.c:82-97 | Xᵀ has a row of ones and then the x values, each cell matching X |
| Regression.NormalMatrix | Prediction/main.c:99-132 | the array XTX holds [[size, Σx], [Σx, Σx²]], with Σx read from Xᵀ and Σx² from X |
| Regression.NormalVector | Prediction/main.c:134-156 | the array XTy holds [Σy, Σx·y], with x·y formed in xySum |
| Regression.ClosedFormInverse | Prediction/main.c:158-183 | the array inverseXTX is the inverse of XTX |
| Regression.AdjugateCells | Prediction/main.c:168-172 | dbca is [[d, −1·b], [−1·c, a]] built from the cells of XTX |
| Regression.ScaledMatrix | Prediction/main.c:174-183 | each cell of the result is sum·dbca[k][j] |
| Regression.Coefficients | Prediction/main.c:185-190 | vectorB is inverseXTX·XTy |
| Session.FirstStarting | Prediction/main.c:277-283 | the result is the first line at or after the start whose first character is the sentinel; if there is none, no remaining line starts with it |
| Session.Values | Prediction/main.c:277-283 | one value per line, in order: value i is atof of line i |
| Session.CollectSeries | Prediction/main.c:275-285 | the loop stores exactly one value per line read before the first '.' line, arr[i] = parse(line_i); the count k is the number of such lines; found tells whether the '.' line came before the input ran out; the rest of arr is unchanged |
| Session.IndependentName | Prediction/main.c:237-264 | the independent name: a first line starting with '!' stops with 0; one starting with '?' causes one re-read, where '!' again stops with 0; otherwise collection starts on line 1, or on line 2 exactly after a '?'; every stop makes no prediction |
| Session.Collect | Prediction/main.c:237-318 | everything before the prediction loop either stops with no prediction (returning 0, or at end of input), or yields equally many x and y values and a probe start within the input |
| Session.IndependentSeries | Prediction/main.c:275-285 | the x values up to the first '.' line, followed by the dependent name; a stop makes no prediction and returns 0; a collection has equally many x and y values and starts probing after xFrom |
| Session.DependentName | Prediction/main.c:287-292 | the dependent name line: '!' stops with 0 and no prediction; otherwise the collection keeps the given x values and gathers as many y values |
| Session.DependentSeries | Prediction/main.c:302-318 | the y values up to the first '.' line and the count check: a count mismatch stops with 0 and no prediction; otherwise the x values are kept and there are exactly as many y values |
| Session.PredictionLoop | Prediction/main.c:324-346 | the prediction loop answers each probe line with Predict(Fit(xs, ys), parse(line)); it returns only 1, and makes at most one prediction per remaining line |
| Session.Run | Prediction/main.c:223-347 | a whole run of main: collection, then the prediction loop; main returns 0 or 1, and makes at most one prediction per input line |
| Session.ReachesDependentName | Prediction/main.c:275-288 | once the x values end with a '.' line, the run goes on with the dependent name on the next line |
| Session.CollectedSeries | Prediction/main.c:302-312 | when both series end with a '.' line and their counts agree, the collected x and y values are atof of the lines before each '.' line, one per line |
| Session.ReachesDependentSeries | Prediction/main.c:287-304 | a dependent name line not starting with '!' leads to the y collection on the next line |
| Session.ReadIndependentName | Prediction/main.c:237-264 | reading the name follows IndependentName: '!' returns 0; '?' re-reads the name once, and the re-read honours '!' |
| Session.NameBangExitsZero | Prediction/main.c:240-264 | a first name line starting with '!', or a '?' line followed by one starting with '!', returns 0 with no prediction |
| Session.DependentBangExitsZero | Prediction/main.c:288-292 | a dependent name line starting with '!' returns 0 with no prediction |
| Session.CountMismatchExitsZero | Prediction/main.c:314-318 | when the x and y counts differ, the run returns 0 with no prediction |
| Session.CollectionPhase | Prediction/main.c:237-318 | everything before the prediction loop follows Collect: either the run stops as Collect says, or xArr and yArr hold the collected series, whose equal count is in both xCount and yCount |
| Session.DependentPhase | Prediction/main.c:287-318 | the dependent name, the y collection and the count check follow DependentName |
| Session.PredictionLoopOutcome | Prediction/main.c:324-346 | the loop makes exactly one prediction per line before the first '!' line, prediction j being b0 + b1·parse(line j) for the fitted (b0, b1); it returns 1 exactly when a '!' line ends it |
| Session.PredictionStep | Prediction/main.c:324-344 | one turn of the loop appends its prediction to those already made |
| Session.Prediction | Prediction/main.c:335-336 | y = b0 + b1·x is the value of the fitted line at the probe |
| Session.PredictionPhase | Prediction/main.c:324-346 | the loop, which calls the solver again on every probe, produces exactly the outcome PredictionLoop specifies |
| Session.ExitZeroMakesNoPrediction | Prediction/main.c:219-220 | the exit code is 0 or 1; 0 means the run stopped before the prediction loop and printed no prediction; 1 means the prediction loop ended it |
| Session.CollinearDataPredictedExactly | Prediction/main.c:329-336 | when the collected points lie on a line b, every prediction is the value of b at the probe |
| Session.RunSession | Prediction/main.c:223-347 | main over xArr/yArr[BUFSIZ] produces exactly the exit code and predictions of Run |

## Left out

- Prompts, help text and the text of each prediction (`printf`) are not modelled. Predictions are a list of reals, and the variable names are not kept, since they are only printed.
- Reading input is not modelled. `fgets` on `stdin` becomes a sequence of lines.
  - At end of input the C code dereferences the null pointer `fgets` returns. The model instead ends with `EndOfInput` and the predictions made so far.
  - The `strchr` newline stripping is not modelled, including its crash when a name has no newline.
  - `fgets` splits lines longer than `BUFSIZ` − 1 characters; the model does not.
- `atof` is the uninterpreted `parse`. Its result on text that is not a number is not visible here.
- `double` rounding is not modelled: all arithmetic is exact, over `real`.
- A zero determinant is not modelled, because the C code then produces infinities or NaN. `SolveNormalEquation` requires det ≠ 0. `Run` and `RunSession` require it through `Solvable`, only when a probe actually reaches the solver.
- The stack arrays `X` and `XT` sized by `size` are heap arrays of that size.
- Storing more than `BUFSIZ` values overflows `xArr` or `yArr`. This is excluded by the precondition `BuffersSuffice`, where `BUFSIZ` is taken as 8192 (its glibc value).
- The C `int` counters are unbounded naturals. No count exceeds `BUFSIZ`, which is far below the `int` range, so nothing wraps.
- Regression.NormalEquationVariables.constructor: the C struct is left uninitialised, so the constructor promises nothing about the fields.
- The doc comment's description of X as a 4x4 matrix, and of XT as the inverse of X, does not match the code. Nothing is derived from it.
