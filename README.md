# SelectFromQuadraticModel, modelled in Dafny

This project models the feature selector `SelectFromQuadraticModel` of the
D-Wave scikit-learn plugin. The selector chooses `num_features` columns of a
feature matrix X. It builds a constrained quadratic model with one binary
variable per column. The objective rewards columns correlated with the label
y and penalises pairs of correlated columns. A k-hot constraint fixes how many
columns are chosen. The model goes to an external hybrid solver, and the
selector reads a boolean mask back from the best feasible sample.

Modules, one file each:

- `Results` (`results.dfy`): `Option`, `Result` and `Outcome`. These stand for
  Python's `None` and for raised exceptions.
- `QuadraticModels` (`quadratic_models.dfy`): a class
  `ConstrainedQuadraticModel` that is grown in place. It holds ordered
  variable labels, linear constraints and the objective as given, a sequence
  of `(u, v, bias)` terms. `Bias(terms, u, v)` reads a coefficient back the
  way the model accumulates it. For `u == v` it is the linear bias, because
  `x * x == x` for a binary variable. For `u != v` the `(u, v)` and `(v, u)`
  terms add up to one quadratic bias.
- `Correlations` (`correlations.dfy`): the in-place steps on the correlation
  buffer, on an `array2<real>`: absolute value, filling the diagonal, and
  emitting the top-left block in row-major order. The file also holds the
  value-level matrix `ObjectiveMatrix` and the lemmas about the coefficients
  that result.
- `Solutions` (`solutions.dfy`): the feasible-sample filter, the lowest-energy
  pick and the mask read in variable order.
- `Transformers` (`transformers.dfy`): the exceptions, the hyperparameter and
  input checks, `CorrelationCqm`, the specification function `FitResult` with
  its lemmas, and the class `SelectFromQuadraticModel` with `Fit`, `Unfit`
  and `GetSupportMask`.

X and y appear only through their shapes (`seq<nat>`). The (m+1) x (m+1)
correlation matrix of the columns of X followed by y is an input, square of
size m+1. The solver is an input too: `SolverResponse` says whether a solver
could be instantiated and, if so, which samples it returned.

Four behaviours of the code that a reader might not expect:

- A failed `fit` leaves the previous mask in place. A fitted estimator stays
  fitted with its old mask; it does not fall back to unfitted.
- `unfit` on an unfitted estimator raises (`MaskMissing`). It is not a no-op.
- `num_features` is checked only on the solver path. With zero columns and
  `num_features=0`, `fit` succeeds with an empty mask. An out-of-range
  `alpha` or a y that is not 1-D is likewise accepted when the short-circuit
  applies (`FitShortCircuit`).
- The docstring says `alpha=1` selects all features and `alpha=0` selects
  none. The code does not do this: alpha scales only the linear terms, and the
  k-hot constraint fixes the count (`PairBiasIgnoresAlpha`, `FitSelectsExactlyK`).

## Model

| member | source | states |
|---|---|---|
| `Transformers.CheckHyperparameters` | dwave/plugins/sklearn/transformers.py:69-78 | passes exactly when 0 <= alpha <= 1, the method is "correlation" and num_features > 0; otherwise names the first failing check, in the order alpha, method, num_features |
| `Transformers.Create` | dwave/plugins/sklearn/transformers.py:61-83 | fails with the first hyperparameter error and builds nothing; otherwise returns a fresh, unfitted estimator holding all four arguments unchanged |
| `Transformers.CreateDefault` | dwave/plugins/sklearn/transformers.py:61-83 | with no arguments, returns a fresh, unfitted estimator with alpha 0.5, method "correlation", num_features 10 and no time limit; these defaults pass validation |
| `Transformers.SelectFromQuadraticModel.constructor` | dwave/plugins/sklearn/transformers.py:80-83 | stores alpha, method, num_features and time_limit as given; no mask exists yet |
| `Transformers.AtLeast2d` | dwave/plugins/sklearn/transformers.py:149-153 | a scalar becomes 1 x 1, a vector of length n becomes 1 x n, higher-dimensional shapes are kept |
| `Transformers.AtLeast2dIdempotent` | dwave/plugins/sklearn/transformers.py:235-257 | promoting an already promoted X changes nothing, so the second promotion inside model building sees what fit saw |
| `Transformers.CheckModelInputs` | dwave/plugins/sklearn/transformers.py:152-162 | passes exactly when X is 2-D, y is 1-D, alpha is in [0, 1] and num_features > 0; otherwise names the first failure in that order |
| `Transformers.CorrelationCqm` | dwave/plugins/sklearn/transformers.py:149-201 | fails with the first input error and builds nothing; with valid inputs but zero columns fails with EmptyBlockIteration, because iterating over the empty 0 x 0 block raises; otherwise returns a fresh model with variables 0..m-1 in column order, exactly one constraint (all variables with coefficient 1, `==` when strict and `<=` otherwise, right-hand side num_features), and the objective that gives feature i the coefficient -alpha * abs(C[i][m]) and the distinct pair {i, j} abs(C[i][j]) + abs(C[j][i]) |
| `QuadraticModels.ConstrainedQuadraticModel.constructor` | dwave/plugins/sklearn/transformers.py:164 | a fresh model with no variables, no constraints and an empty objective |
| `QuadraticModels.ConstrainedQuadraticModel.AddVariables` | dwave/plugins/sklearn/transformers.py:165 | appends the labels of range(n) not already present, and changes nothing else |
| `QuadraticModels.NewLabelsOnEmpty` | dwave/plugins/sklearn/transformers.py:164-165 | adding n variables to an empty model yields exactly the labels 0, ..., n-1 in order |
| `QuadraticModels.ConstrainedQuadraticModel.AddConstraint` | dwave/plugins/sklearn/transformers.py:168 | appends one constraint, and changes nothing else |
| `QuadraticModels.ConstrainedQuadraticModel.SetObjective` | dwave/plugins/sklearn/transformers.py:199 | the objective becomes the given terms; variables and constraints are unchanged |
| `QuadraticModels.BiasAppend` | dwave/plugins/sklearn/transformers.py:199 | the accumulated coefficient of a pair over concatenated terms is the sum of the coefficients over each part |
| `Correlations.AbsoluteInPlace` | dwave/plugins/sklearn/transformers.py:190 | every entry of the buffer becomes the absolute value of what it held |
| `Correlations.FillDiagonal` | dwave/plugins/sklearn/transformers.py:193 | entry (k, k) becomes vals[k]; every entry off the diagonal keeps its value |
| `Correlations.AbsoluteBuffer` | dwave/plugins/sklearn/transformers.py:186-190 | a fresh n x n buffer holding C, whose entries are then replaced by their absolute values in place: entry (i, j) ends as abs(C[i][j]) |
| `Correlations.ObjectiveBuffer` | dwave/plugins/sklearn/transformers.py:186-193 | a fresh n x n buffer holding abs(C[i][j]) off the diagonal and -abs(C[i][n-1]) * alpha on it, entry by entry equal to ObjectiveMatrix(C, alpha) |
| `Correlations.ObjectiveMatrix` | dwave/plugins/sklearn/transformers.py:190-193 | the matrix after both in-place steps: abs(C[i][j]) off the diagonal and -abs(C[i][n-1]) * alpha on it, with the same shape as C |
| `Correlations.TopLeftTerms` | dwave/plugins/sklearn/transformers.py:198-199 | the terms are the top-left m x m entries of the buffer as (i, j, entry), in row-major order |
| `Correlations.CorrelationObjective` | dwave/plugins/sklearn/transformers.py:170-199 | after copying C into the buffer, taking absolute values and filling the diagonal, the emitted terms are exactly the row-major block of ObjectiveMatrix(C, alpha) without the label's row and column |
| `Correlations.BiasOfRowPrefix` | dwave/plugins/sklearn/transformers.py:198-199 | within one emitted row i, the pair {u, v} picks up the entry (i, v) when i == u and the mirrored entry (i, u) when i == v != u |
| `Correlations.BiasOfRows` | dwave/plugins/sklearn/transformers.py:198-199 | over the first rows of the block, the pair {u, v} gets M[u][v] once row u is emitted, plus M[v][u] once row v is emitted when u != v |
| `Correlations.RowsTermsInBlock` | dwave/plugins/sklearn/transformers.py:198 | every emitted term refers to a row and a column of the block, never to the label's index |
| `Correlations.ObjectiveCoefficients` | dwave/plugins/sklearn/transformers.py:190-199 | the linear coefficient of feature i is -alpha * abs(C[i][m]); distinct features i, j get abs(C[i][j]) + abs(C[j][i]) |
| `Correlations.ObjectiveOmitsLabel` | dwave/plugins/sklearn/transformers.py:198 | no objective term mentions the label index m |
| `Correlations.AllObjectiveCoefficients` | dwave/plugins/sklearn/transformers.py:190-199 | the two statements above hold for all features at once |
| `Correlations.PairBiasIgnoresAlpha` | dwave/plugins/sklearn/transformers.py:193-199 | the coefficient of a distinct pair is the same for every alpha, and for a symmetric matrix it is 2 * abs(C[i][j]) |
| `Solutions.FeasibleSamples` | dwave/plugins/sklearn/transformers.py:278 | keeps exactly the samples flagged feasible and is no longer than its input |
| `Solutions.FeasibleSamplesAppend` | dwave/plugins/sklearn/transformers.py:278 | filtering a concatenation is the concatenation of the filtered parts, so the retained samples keep their order and multiplicity |
| `Solutions.FeasibleSamplesSingle` | dwave/plugins/sklearn/transformers.py:278 | a single sample is kept exactly when it is flagged feasible |
| `Solutions.NoFeasibleSamples` | dwave/plugins/sklearn/transformers.py:278-281 | the filtered collection is empty exactly when no sample is feasible |
| `Solutions.LowestEnergyIndex` | dwave/plugins/sklearn/transformers.py:283 | an index into the samples whose energy is at most every sample's energy, and strictly below that of every earlier sample |
| `Solutions.SupportMask` | dwave/plugins/sklearn/transformers.py:285-286 | one entry per variable, in variable order, true exactly when the sample sets that variable |
| `Solutions.UnitActivityCountsSelected` | dwave/plugins/sklearn/transformers.py:168 | for a 0/1 sample, the left-hand side of the all-ones constraint equals the number of true entries of the mask read from it |
| `Transformers.KHotBoundsSelection` | dwave/plugins/sklearn/transformers.py:168 | a 0/1 assignment that satisfies the k-hot constraint selects exactly k variables when strict and at most k otherwise |
| `Transformers.FitShortCircuit` | dwave/plugins/sklearn/transformers.py:241-254 | when the resolved num_features is at least the column count, the solver is not reached and the mask is all true with one entry per column, whatever y, alpha and the solver would do |
| `Transformers.FitMaskLength` | dwave/plugins/sklearn/transformers.py:251-286 | a mask that fit stores has exactly one entry per column of X |
| `Transformers.FitFailsWithoutFeasibleSample` | dwave/plugins/sklearn/transformers.py:278-281 | on the solver path, fit fails with NoFeasibleSolution exactly when no returned sample is feasible |
| `Transformers.FitSelectsLowestFeasible` | dwave/plugins/sklearn/transformers.py:278-286 | on the solver path, the stored mask is read in variable order from a feasible sample whose energy no feasible sample undercuts |
| `Transformers.FitSelectsExactlyK` | dwave/plugins/sklearn/transformers.py:257-286 | if every sample flagged feasible is a 0/1 assignment satisfying the strict k-hot constraint, the stored mask has exactly num_features true entries |
| `Transformers.SelectFromQuadraticModel.GetSupportMask` | dwave/plugins/sklearn/transformers.py:85-109 | returns the stored mask when fitted and fails with NotFitted otherwise; it changes nothing, so repeated calls agree |
| `Transformers.SelectFromQuadraticModel.Fit` | dwave/plugins/sklearn/transformers.py:203-288 | the outcome and the new mask are those of FitResult: on success the mask is replaced, on every failure, including an instantiation failure and a sampling failure, it is left as it was; a model is built exactly on the solver path, and it is the correlation model for the resolved alpha and num_features with a strict constraint |
| `Transformers.SelectFromQuadraticModel.Unfit` | dwave/plugins/sklearn/transformers.py:290-292 | removes the mask; when there was none it fails with MaskMissing |

## Left out

- The Pearson correlation computation (`corrcoef` in `dwave/plugins/sklearn/utilities.py`) is not part of this model. Its output is taken as a given real matrix, square of size m+1, and the numbers are compared exactly.
- Floating point is not modelled: alpha and the correlations are `real`, so there is no NaN, no rounding and no -0.0.
- The temporary files and memory-mapped arrays that back the buffers are file I/O and a memory strategy. The buffer is a plain `array2<real>`.
- Copying X and y into the augmented working array is not modelled. Neither is numpy's error when the length of y does not match the rows of X. Only the correlation matrix that results is used.
- Instantiating the hybrid solver and calling it are foreign network calls. Their result is the `SolverResponse` input: instantiation failed, sampling raised (`SamplingFailed`, for example, when the solver rejects the time limit), or samples came back. The model cannot check that the samples came from the model it built, and it does not tell apart the reasons sampling can raise.
- Fit: resolves no time limit. `timeLimitArg` is accepted and ignored, and the time limit reaches only the solver, which is outside the model. The source passes the constructor's value, not the argument.
- Fit: requires `CoversVariables`, the solver's promise that every sample assigns every variable. The missing-key error is therefore not modelled.
- Solutions.LowestEnergyIndex breaks energy ties by taking the earliest sample. The order in which the sample set lists equal energies is not pinned down here.
- The branch for an unimplemented method in `fit` cannot be reached, because construction already accepts only "correlation". `Valid()` records that fact, and the branch is left out.
- Transformers.SelectFromQuadraticModel.GetSupportMask: returns the mask as a value. The source returns the stored array itself, so a caller who writes into the returned mask changes the stored one. That aliasing is not captured, and "repeated calls agree" holds in the source only while nobody writes into the result.
- The scikit-learn glue is left out: `BaseEstimator` parameter introspection, `set_params`, `SelectorMixin.transform`, and `check_is_fitted`. `check_is_fitted` raising before the unreachable `RuntimeError` at line 109 is modelled as the single error `NotFitted`.
- Variable types, bounds and label kinds of the quadratic-model library are left out. `SetObjective` does not add the variables its terms mention; all of them already exist here.
- The "mutual information" method is not implemented in the source and is not modelled.
