# Kernel matching pursuit, modelled in Dafny

This project models the core of `lightning/kmp.py`, the kernel matching
pursuit estimator. Given a dictionary `K` (one column per basis component), a
target `y` and a budget of `n_nonzero_coefs` iterations, the pursuit
proceeds greedily. Each iteration:

1. scores every column against the current residuals;
2. picks the best one with `np.argmax`; with the duplicate check, the
   columns already taken score `-np.inf` first, so they are passed over;
3. either refits all selected coefficients with an estimator, every
   `n_refit`-th iteration, or moves the chosen coefficient by a one-dimensional
   step.

The step is the exact residual step without a loss, or `SquaredLoss`'s line
search with one.

Around the pursuit the model covers:

- the resolution of the budget argument;
- the count logic of `create_components`;
- `_fit_last` and `_fit_multi`, one pursuit per target column;
- the validation loop, which advances one generator per target in lockstep,
  scores checkpoints, keeps the best snapshot and stops on a plateau;
- `_post_fit`'s pruning of unused components.

Modules, one per file:

| module | what it models |
|---|---|
| `Vectors` | dense vectors and matrices over `real`: dot products, sums of squares, columns, `K . x` |
| `Masks` | boolean masks and numpy mask indexing (`np.sum`, `np.flatnonzero`, `s[idx]`, `a[mask] = v`) |
| `Losses` | `SquaredLoss` and the optimality of its line search |
| `Selection` | `np.argmax` over the absolute scores, with the duplicate check as an eligibility mask |
| `Arguments` | numeric arguments that are either an int or a float, and Python's `int()` |
| `Budget` | the resolution of `n_nonzero_coefs` |
| `Components` | `create_components` with the random class distribution |
| `Periods` | "every p-th iteration", proved equal to `n % p == 0` |
| `Pursuit` | one iteration of `_fit_generator` as the value transition `Next`, and `Run(cfg, t)`, the state after t iterations |
| `Fitting` | the generator as a class over arrays, proved to perform `Next` step by step, plus `_fit_last` and `_fit_multi` |
| `Validation` | `_fit_multi_with_validation` |
| `Pruning` | `_post_fit` |

The generator is the one stateful object of the core. `Fitting.Generator`
keeps `coef`, `selected`, `y_pred` and `residuals` in arrays and updates
them in place. Its `Step` is proved to leave them equal to
`Pursuit.Next` of the state before. Everything proved about `Pursuit.Run`
therefore holds of what the generator yields.

Three behaviours of the code that are easy to misread:

- An iteration with the duplicate check selects exactly one new column. It
  does not necessarily give that column a nonzero coefficient, because the
  step can be 0. So the proved count is about `selected` (exactly t columns
  with the duplicate check, at most t without). The coefficients are only
  proved to be zero outside `selected`.
- The plateau rule is `abs((v[-1] - v[-2]) / v[0]) < epsilon` after more than
  two checkpoints, with `epsilon > 0`, exactly as written.
- A budget given as the integer 1 falls in `0 < n <= 1` and means "every
  component", as written.

## Model

| member | source | states |
|---|---|---|
| Masks.TrueIndicesSpec | lightning/kmp.py:113 | `K[:, selected]` takes the selected columns in strictly ascending order, and none is missing |
| Masks.ScatterAtTrueIndex | lightning/kmp.py:115 | `coef[selected] = estimator.coef_` writes the k-th fitted coefficient at the k-th selected position |
| Masks.Scatter | lightning/kmp.py:115 | `coef[selected] = ...` leaves every unselected position unchanged |
| Masks.CountTrueSet | lightning/kmp.py:109 | `selected[best] = True` raises `np.sum(selected)` by one when best was unselected, and by zero otherwise |
| Vectors.ResidualAfterStep | lightning/kmp.py:130-136 | adding `alpha * K[:, best]` to y_pred subtracts the same vector from `y - y_pred` |
| Vectors.SumSqAlongLine | lightning/kmp.py:77-80 | the squared error along the column is the quadratic `e - 2 s d + s^2 q` in the step s |
| Vectors.DotBump | lightning/kmp.py:130-133 | `coef[best] += alpha` moves every entry of `K . coef` by `alpha * K[i][best]` |
| Losses.LineSearchIsOptimal | lightning/kmp.py:77-80 | `line_search`'s step gives a squared error no larger than that of any other step along the column |
| Losses.LineSearchNeverIncreasesError | lightning/kmp.py:77-80 | a line-search step never increases the squared training error |
| Selection.FirstArgMaxSpec | lightning/kmp.py:103-108 | `np.argmax(abs_dots)` gives an eligible column whenever one exists. No eligible score beats it and every earlier eligible score is smaller. When every column is excluded the answer is 0 |
| Selection.ArgMaxPrefixSpec | lightning/kmp.py:108 | after k positions the scan holds a candidate iff one of them was eligible; the candidate is the first maximal eligible one |
| Selection.ArgMax | lightning/kmp.py:103-108 | the scan keeps the first strictly larger eligible score; it returns `FirstArgMax`, which is eligible and maximal when anything is eligible |
| Arguments.FractionOf | lightning/kmp.py:236-237 | `int(f * m)` for a fraction f lies between `f * m - 1` and `f * m`, and never exceeds m |
| Budget.ResolveBudget | lightning/kmp.py:235-241 | a resolved budget never exceeds the number of components |
| Budget.ResolveBudgetCases | lightning/kmp.py:182-241 | a negative budget is rejected (by the constructor, before anything else). A fraction f becomes `int(f * m)`. A whole budget above m is rejected; 0 or one in 2..m is kept. A float above 1 is not accepted as a count |
| Budget.OneMeansAll | lightning/kmp.py:236-237 | the integer 1 is read as the fraction 1: every component is used |
| Budget.FractionBudget | lightning/kmp.py:236-237 | a float fraction f of m components always resolves, to between `f * m - 1` and `f * m` iterations |
| Components.CreateComponents | lightning/kmp.py:17-40 | every component is a row of X, and there are at most as many components as rows |
| Components.CreateComponentsCases | lightning/kmp.py:23-33 | an unset or zero count returns X. A negative count is refused. A count equal to the number of samples returns X unchanged |
| Components.DrawnRows | lightning/kmp.py:35-40 | otherwise there are `min(count, n)` components. The k-th is the row at the k-th shuffled index, and the drawn indices are pairwise distinct |
| Components.FractionDraw | lightning/kmp.py:29-33 | a fraction f of n samples draws the first `int(f * n)` shuffled rows, or returns X when that is n |
| Periods.DividesMod | lightning/kmp.py:111 | "n is a multiple of p" holds exactly when `n % p == 0` |
| Pursuit.Run | lightning/kmp.py:94-140 | the state after t iterations has coef and selected of width m and y_pred and residuals of length n |
| Pursuit.NextKeepsSupportInMask | lightning/kmp.py:109-136 | an iteration makes a coefficient nonzero only at a selected index, so the support stays inside the mask |
| Pursuit.NextSelectionCount | lightning/kmp.py:106-109 | with the duplicate check and an unselected column left, an iteration selects exactly one new column. Without the check it selects at most one |
| Pursuit.NextKeepsResiduals | lightning/kmp.py:117-136 | without a loss, both branches keep `residuals == y - y_pred` |
| Pursuit.NextKeepsPrediction | lightning/kmp.py:123-133 | a line-search iteration keeps `y_pred == K . coef` |
| Pursuit.NoLossStepIsLineSearch | lightning/kmp.py:125-128 | without a loss, `dots[best] / norms[best]` equals `SquaredLoss.line_search` on the same residual and column |
| Pursuit.NextNeverIncreasesError | lightning/kmp.py:123-138 | a line-search iteration, with or without a loss, never increases the squared training error |
| Pursuit.InitInvariant | lightning/kmp.py:85-92 | the state before the loop satisfies the invariant |
| Pursuit.NextKeepsInvariant | lightning/kmp.py:94-140 | every iteration preserves the invariant. It has four parts: the support stays in the mask; with the duplicate check the selection has exactly `iter` columns, and at most `iter` without; without a loss `residuals == y - y_pred`; with `n_refit == 0`, `y_pred == K . coef` |
| Pursuit.RunInvariant | lightning/kmp.py:85-140 | the invariant holds after every number of iterations |
| Pursuit.RunErrorNonIncreasing | lightning/kmp.py:123-138 | with refitting disabled, the squared training error never increases from one iteration to the next |
| Pursuit.NextAgree | lightning/kmp.py:98-136 | from agreeing states, one no-loss iteration and one squared-loss iteration give the same coef, selection and y_pred |
| Pursuit.LossesAgree | lightning/kmp.py:98-136 | the no-loss pursuit and the squared-loss pursuit yield the same coef, selection and y_pred at every iteration, for every n_refit |
| Fitting.CopyInto | lightning/kmp.py:117 | the array is overwritten with the given vector |
| Fitting.AddScaledInto | lightning/kmp.py:133-136 | `a += alpha * v` adds `alpha * v[i]` to every entry |
| Fitting.ScatterInto | lightning/kmp.py:115 | `coef[selected] = v` in place gives exactly `Scatter` of the old contents |
| Fitting.Generator.constructor | lightning/kmp.py:85-92 | the fresh arrays hold the initial state: zero coef, nothing selected, zero y_pred, residuals a copy of y |
| Fitting.Generator.Step | lightning/kmp.py:94-140 | one pass of the loop body leaves the arrays equal to `Next` of the previous state and yields the new coef and y_pred |
| Fitting.Generator.PseudoResiduals | lightning/kmp.py:99-100 | with a loss the residuals array becomes `y - y_pred`; either way it returns the residuals the iteration scores |
| Fitting.Generator.RefitArrays | lightning/kmp.py:111-122 | the refit branch completes the iteration as `Next` prescribes |
| Fitting.Generator.LineArrays | lightning/kmp.py:123-138 | the line-search branch completes the iteration as `Next` prescribes |
| Fitting.FitLast | lightning/kmp.py:149-157 | `_fit_last` returns the coef after the full budget, and nothing when the budget is 0 |
| Fitting.FitMulti | lightning/kmp.py:262-270 | row k of coef_ is the final coef of the pursuit of target column k. With a budget of 0 and at least one target it fails |
| Validation.CheckpointsSpec | lightning/kmp.py:319-333 | iterations_ lists, in strictly ascending order, exactly the multiples of n_validate up to the current iteration |
| Validation.BestIndexSpec | lightning/kmp.py:306-329 | best_score, starting at -inf and replaced only by a strictly greater score, is the first maximal validation score |
| Validation.BestSnapshotSpec | lightning/kmp.py:326-329 | coef_ is unset before the first checkpoint. Afterwards it is the snapshot at a checkpoint no other checkpoint beats and every earlier one falls short of |
| Validation.BestSnapshotAppend | lightning/kmp.py:327-329 | a new checkpoint replaces the snapshot iff none exists or its score is strictly better |
| Validation.CheckpointAppends | lightning/kmp.py:331-333 | a checkpoint appends its iteration number and its two scores to the traces |
| Validation.PassRecordsNothing | lightning/kmp.py:319 | an iteration that is not a checkpoint records nothing |
| Validation.CheckpointRecorded | lightning/kmp.py:319-333 | the checkpoint's updates keep the traces and the best snapshot in step with their specification |
| Validation.Checkpoint | lightning/kmp.py:319-333 | the checkpoint body keeps the traces and the best snapshot in step with their specification |
| Validation.Launch | lightning/kmp.py:286-290 | there is one generator per target column, each in the initial state of its pursuit |
| Validation.Advanced | lightning/kmp.py:314 | advancing every generator once takes each from `Run(i)` to `Run(i + 1)` of its own target |
| Validation.StepAll | lightning/kmp.py:314 | `[it.next() for it in iterators]` advances all generators in lockstep |
| Validation.YieldedAt | lightning/kmp.py:314-317 | the stacked coef and y_train matrices are, row by row, the coef and y_pred of each target's pursuit after i iterations |
| Validation.Record | lightning/kmp.py:319-341 | one iteration records a checkpoint or nothing. It signals a break exactly when the plateau rule holds at the new checkpoint |
| Validation.Continued | lightning/kmp.py:335-343 | no iteration before the last one met the plateau rule |
| Validation.Drive | lightning/kmp.py:310-345 | the loop runs until the budget is spent or the plateau rule fires, and reports the traces and snapshot of that run |
| Validation.FitWithValidation | lightning/kmp.py:285-349 | with no target column, or with n_validate 0 and a positive budget, it fails (and the failure names the cause). Otherwise it reports as `Reports` says |
| Validation.ReportedTraces | lightning/kmp.py:307-349 | the three traces have equal length. iterations_ ascends strictly and lists exactly the iterations run with `n % n_validate == 0`. coef_ is set iff some checkpoint was reached |
| Validation.EarlyStop | lightning/kmp.py:335-341 | a run stops before the budget only on the plateau rule: more than two checkpoints, epsilon > 0, a nonzero first score, a relative change below epsilon, with the last checkpoint at the last iteration. With epsilon <= 0 it always runs the full budget |
| Pruning.ColumnUsedSpec | lightning/kmp.py:361 | `np.sum(coef_ != 0, axis=0, dtype=bool)[j]` is true iff some target's coefficient for component j is nonzero |
| Pruning.Prune | lightning/kmp.py:360-363 | after pruning every row of coef_ is as wide as there are components. There are as many rows as before, and no more components |
| Pruning.PruneKeepsUsed | lightning/kmp.py:360-363 | pruning keeps exactly the components some target uses, in their original order |
| Pruning.PrunedAllUsed | lightning/kmp.py:360-363 | after pruning every remaining component is used |
| Pruning.PruneIdempotent | lightning/kmp.py:360-363 | pruning a pruned model changes nothing |
| Pruning.PruneKeepsDecision | lightning/kmp.py:360-371 | for every kernel row and target, the pruned model's `np.dot(K, coef_.T)` is unchanged |

## Left out

- Kernels (`pairwise_kernels`), the `Scaler` and the computation of `K_val`: `K` is an input. `norms` is an input too. Only the loss comparison and the error monotonicity require it to be the column norms (`ColumnNorms`).
- The refit estimator (LinearRegression by default) is an abstract function from sub-dictionary and target to coefficients and predictions. Only its output shape is assumed.
- `_score`, `auc` and `score_func`: the validation and training scores are opaque functions of the stacked coefficients and predictions.
- `LabelBinarizer` and the classifier/regressor wrappers: the targets are given directly as a sequence of target columns (the columns of `Y`).
- The random state: the shuffle of `create_components` is an input permutation.
- The `"balanced"` and `"stratified"` class distributions of `create_components`: only `"random"` is modelled.
- Components.Decide: the count logic has no contract of its own; it is stated through `CreateComponentsCases`, `DrawnRows` and `FractionDraw`.
- Printing, timing and `verbose`.
- `joblib` parallelism: `_fit_multi` fits the target columns one after another.
- Floating point: arithmetic is exact over `real`. `-inf` scores of excluded columns are an eligibility mask. The initial `best_score = -np.inf` is "no snapshot yet". A plateau test whose first score is 0 (a division by zero giving inf or nan) never converges.
- Zero norms and all-zero columns are excluded by precondition (`WellFormed`); the source would divide by zero.
- Fitting.FitLast: with a budget of 0 the source fails on an unbound name; the model returns `None`.
- Fitting.Generator.Step: the source yields its own `coef` and `y_pred` arrays, which later iterations overwrite. The model yields copies, so the aliasing of yielded arrays is not modelled.
- Validation.Drive: the validation loop advances value states with `Pursuit.Next` (proved equal to what `Fitting.Generator.Step` does), not generator objects. Their in-place update and aliasing are not modelled there.
- Validation.Drive: when no checkpoint is reached the outcome's `coef` is `None`. The source just leaves `coef_` unassigned, so on a second fit of the same estimator it still holds the previous fit's matrix, and `_post_fit` prunes that stale matrix. The estimator's state across fits is not modelled.
- Pursuit.IsRefit / Validation.IsCheckpoint: the periods `n_refit` and `n_validate` are natural numbers. The source never checks them. A negative period (Python's `%` makes it act like its absolute value) and a float period are not modelled.
- Validation.FitWithValidation: with `n_validate == 0`, the source has already advanced every generator once before the division by zero. The failure is modelled, the advance is not.
- Pursuit.NextKeepsPrediction: `y_pred == K . coef` is claimed only for line-search iterations and, over whole runs, only when `n_refit == 0`. A refit's prediction comes from the abstract estimator.
- Budget.ResolveBudget: a float budget that is neither a fraction nor above m is refused (`NotAnInteger`), standing for `range`'s TypeError.
- Components.CreateComponents: a float count that is not a fraction is truncated when used as a slice bound. Python 2 slicing with a float is modelled as its truncation.
