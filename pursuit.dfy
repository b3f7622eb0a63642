/** The greedy pursuit of one target column (_fit_generator, _fit_last).
    `Next` is one iteration of the generator as a state transition and
    `Run(cfg, t)` the state after t iterations; the class `Fitting.Generator`
    performs the same iterations in place on arrays and is proved to follow
    `Run`. */
module Pursuit {
  import opened Vectors
  import opened Masks
  import opened Losses
  import opened Selection
  import opened Periods

  /** What the refit estimator returns: estimator.coef_ for the selected
      columns and estimator.decision_function on the sub-dictionary. */
  datatype Refit = Refit(coef: Vector, pred: Vector)

  /** The refit estimator (LinearRegression by default), left abstract: a
      function from (sub-dictionary, y) to its fit. */
  type Estimator = (Matrix, Vector) -> Refit

  /** The number of columns of a sub-dictionary. */
  function Width(sub: Matrix): nat {
    if |sub| == 0 then 0 else |sub[0]|
  }

  /** The estimator answers with one coefficient per column and one
      prediction per row; nothing else is assumed of it. */
  ghost predicate EstimatorShape(est: Estimator) {
    forall sub: Matrix, t: Vector ::
      |est(sub, t).coef| == Width(sub) && |est(sub, t).pred| == |sub|
  }

  /** The arguments of _fit_generator: dictionary K (n x m), target y,
      column norms, the iteration budget n_nonzero_coefs, n_refit,
      check_duplicates, the loss and the estimator. */
  datatype Config = Config(
    K: Matrix, y: Vector, norms: Vector, budget: nat, nRefit: nat,
    checkDuplicates: bool, loss: Loss, est: Estimator)

  /** Column j of K is not the zero vector, so its squared norm, which the
      line search divides by, is positive. */
  ghost predicate NonZeroColumn(K: Matrix, j: nat)
    requires forall i :: 0 <= i < |K| ==> j < |K[i]|
  {
    SumSq(Column(K, j)) > 0.0
  }

  /** Every norm is positive, so no score divides by zero. */
  predicate PositiveNorms(norms: Vector) {
    forall j :: 0 <= j < |norms| ==> norms[j] > 0.0
  }

  /** K is n x m, no column of K is zero and every norm is positive. */
  ghost predicate Dictionary(K: Matrix, n: nat, norms: Vector) {
    && IsMatrix(K, n, |norms|)
    && PositiveNorms(norms)
    && (forall j :: 0 <= j < |norms| ==> NonZeroColumn(K, j))
  }

  /** norms[j] is the L2 norm of column j: its square is the column's sum of
      squares. */
  ghost predicate NormOf(K: Matrix, norms: Vector, j: nat)
    requires j < |norms| && forall i :: 0 <= i < |K| ==> |K[i]| == |norms|
  {
    norms[j] * norms[j] == SumSq(Column(K, j))
  }

  /** norms = np.sqrt(np.sum(K ** 2, axis=0)), as _pre_fit computes it. Only
      the comparison of the two losses depends on it. */
  ghost predicate ColumnNorms(K: Matrix, norms: Vector)
    requires forall i :: 0 <= i < |K| ==> |K[i]| == |norms|
  {
    forall j :: 0 <= j < |norms| ==> NormOf(K, norms, j)
  }

  /** What the callers guarantee: K is n x m with nonzero columns and
      positive norms, the budget was checked against the component count, and the estimator
      is shaped. */
  ghost predicate WellFormed(cfg: Config) {
    && Dictionary(cfg.K, |cfg.y|, cfg.norms)
    && cfg.budget <= |cfg.norms|
    && EstimatorShape(cfg.est)
  }

  /** The generator's local state: coef, selected, y_pred, residuals and the
      number of iterations done. */
  datatype State = State(
    coef: Vector, selected: seq<bool>, yPred: Vector, residuals: Vector, iter: nat)

  predicate Shaped(cfg: Config, s: State) {
    && |s.coef| == |cfg.norms| && |s.selected| == |cfg.norms|
    && |s.yPred| == |cfg.y| && |s.residuals| == |cfg.y|
  }

  /** Before the first iteration: zero coefficients, nothing selected, zero
      prediction, residuals a copy of y. (With a loss the source assigns
      residuals only inside the loop; the initial value is never read.) */
  function Init(cfg: Config): (s: State)
    ensures Shaped(cfg, s) && s.iter == 0
  {
    State(Zeros(|cfg.norms|), seq(|cfg.norms|, _ => false), Zeros(|cfg.y|), cfg.y, 0)
  }

  /** Iteration i refits every n_refit-th time (`i % n_refit == 0`, see
      Periods.DividesMod); an n_refit of 0 never refits. */
  predicate IsRefit(nRefit: nat, i: nat) {
    nRefit != 0 && Divides(nRefit, i)
  }

  /** The residuals scored in the coming iteration: the loss's negative
      gradient, or the incrementally kept residuals when there is no loss. */
  function Pseudo(loss: Loss, y: Vector, s: State): (r: Vector)
    requires |s.yPred| == |y| == |s.residuals|
    ensures |r| == |y|
  {
    if loss.Squared? then NegativeGradient(y, s.yPred) else s.residuals
  }

  /** dots = np.dot(K.T, residuals) / norms. */
  function Scores(K: Matrix, norms: Vector, r: Vector): (dots: Vector)
    requires IsMatrix(K, |r|, |norms|) && PositiveNorms(norms)
    ensures |dots| == |norms|
  {
    seq(|norms|, j requires 0 <= j < |norms| => Dot(Column(K, j), r) / norms[j])
  }

  /** The index an iteration selects from the scores of r. */
  function Best(K: Matrix, norms: Vector, checkDuplicates: bool, r: Vector, selected: seq<bool>): (best: nat)
    requires IsMatrix(K, |r|, |norms|) && PositiveNorms(norms)
    requires |selected| == |norms| > 0
    ensures best < |norms|
  {
    FirstArgMax(Magnitudes(Scores(K, norms, r)), Eligibility(checkDuplicates, selected))
  }

  /** K[:, selected]. */
  function SubDictionary(K: Matrix, selected: seq<bool>): (sub: Matrix)
    requires forall i :: 0 <= i < |K| ==> |K[i]| == |selected|
    ensures |sub| == |K|
    ensures forall i :: 0 <= i < |sub| ==> |sub[i]| == CountTrue(selected)
  {
    seq(|K|, i requires 0 <= i < |K| => Gather(K[i], TrueIndices(selected)))
  }

  /** Every column of a well-formed dictionary has a positive sum of
      squares, the squared norm that line_search divides by. */
  lemma ColumnEnergyPositive(cfg: Config, j: nat)
    requires WellFormed(cfg) && j < |cfg.norms|
    ensures SumSq(Column(cfg.K, j)) > 0.0
  {
    assert NonZeroColumn(cfg.K, j);
  }

  /** A well-formed dictionary with at least one column has a row. */
  lemma HasRows(cfg: Config)
    requires WellFormed(cfg) && |cfg.norms| > 0
    ensures |cfg.K| > 0
  {
    ColumnEnergyPositive(cfg, 0);
    SumSqPositiveNonEmpty(Column(cfg.K, 0));
  }

  /** The refit branch: the estimator refits every selected column on y;
      its coefficients replace coef[selected] and its prediction becomes
      y_pred (and, without a loss, residuals = y - y_pred). */
  function RefitUpdate(cfg: Config, s: State, selected: seq<bool>, r: Vector): (s': State)
    requires WellFormed(cfg) && Shaped(cfg, s) && |selected| == |cfg.norms| > 0
    requires |r| == |cfg.y|
    ensures Shaped(cfg, s') && s'.selected == selected && s'.iter == s.iter + 1
  {
    HasRows(cfg);
    var fit := cfg.est(SubDictionary(cfg.K, selected), cfg.y);
    var residuals := if cfg.loss.NoLoss? then Sub(cfg.y, fit.pred) else r;
    State(Scatter(s.coef, selected, fit.coef), selected, fit.pred, residuals, s.iter + 1)
  }

  /** The step size of the line-search branch: dots[best] / norms[best]
      without a loss, loss.line_search otherwise. */
  function StepSize(cfg: Config, s: State, best: nat, dots: Vector): real
    requires WellFormed(cfg) && Shaped(cfg, s) && best < |cfg.norms| && |dots| == |cfg.norms|
  {
    if cfg.loss.NoLoss? then dots[best] / cfg.norms[best]
    else
      ColumnEnergyPositive(cfg, best);
      LineSearch(cfg.y, s.yPred, Column(cfg.K, best))
  }

  /** The line-search branch: coef[best] += alpha, y_pred += alpha * column
      and, without a loss, residuals -= alpha * column. */
  function LineUpdate(cfg: Config, s: State, best: nat, selected: seq<bool>, r: Vector, alpha: real): (s': State)
    requires WellFormed(cfg) && Shaped(cfg, s) && best < |cfg.norms| && |selected| == |cfg.norms|
    requires |r| == |cfg.y|
    ensures Shaped(cfg, s') && s'.selected == selected && s'.iter == s.iter + 1
  {
    var column := Column(cfg.K, best);
    var residuals := if cfg.loss.NoLoss? then AddScaled(r, -alpha, column) else r;
    State(s.coef[best := s.coef[best] + alpha], selected,
          AddScaled(s.yPred, alpha, column), residuals, s.iter + 1)
  }

  /** The index the iteration starting in s selects. */
  function Choice(cfg: Config, s: State): (best: nat)
    requires WellFormed(cfg) && Shaped(cfg, s) && |cfg.norms| > 0
    ensures best < |cfg.norms|
  {
    Best(cfg.K, cfg.norms, cfg.checkDuplicates, Pseudo(cfg.loss, cfg.y, s), s.selected)
  }

  /** One iteration of _fit_generator. */
  function Next(cfg: Config, s: State): (s': State)
    requires WellFormed(cfg) && Shaped(cfg, s) && s.iter < cfg.budget
    ensures Shaped(cfg, s') && s'.iter == s.iter + 1
  {
    var r := Pseudo(cfg.loss, cfg.y, s);
    var best := Choice(cfg, s);
    var selected := s.selected[best := true];
    if IsRefit(cfg.nRefit, s.iter + 1) then RefitUpdate(cfg, s, selected, r)
    else LineUpdate(cfg, s, best, selected, r, StepSize(cfg, s, best, Scores(cfg.K, cfg.norms, r)))
  }

  /** The state after t iterations: what the t-th `yield` hands out. Every
      such state satisfies the invariant (RunInvariant). */
  function Run(cfg: Config, t: nat): (s: State)
    requires WellFormed(cfg) && t <= cfg.budget
    ensures Shaped(cfg, s) && s.iter == t
  {
    if t == 0 then Init(cfg) else Next(cfg, Run(cfg, t - 1))
  }

  /** A refitting iteration is the refit branch. */
  lemma NextIsRefit(cfg: Config, s: State)
    requires WellFormed(cfg) && Shaped(cfg, s) && s.iter < cfg.budget
    requires IsRefit(cfg.nRefit, s.iter + 1)
    ensures Next(cfg, s) == RefitUpdate(cfg, s, s.selected[Choice(cfg, s) := true], Pseudo(cfg.loss, cfg.y, s))
  {
  }

  /** Any other iteration is the line-search branch. */
  lemma NextIsLine(cfg: Config, s: State)
    requires WellFormed(cfg) && Shaped(cfg, s) && s.iter < cfg.budget
    requires !IsRefit(cfg.nRefit, s.iter + 1)
    ensures var r, best := Pseudo(cfg.loss, cfg.y, s), Choice(cfg, s);
      Next(cfg, s) == LineUpdate(cfg, s, best, s.selected[best := true], r, StepSize(cfg, s, best, Scores(cfg.K, cfg.norms, r)))
  {
  }

  /** The t-th state is one iteration past the (t-1)-th. */
  lemma RunStep(cfg: Config, t: nat)
    requires WellFormed(cfg) && 0 < t <= cfg.budget
    ensures Run(cfg, t) == Next(cfg, Run(cfg, t - 1))
  {
  }

  // ---------------------------------------------------------------------
  // Properties of one iteration

  /** coef is nonzero only at selected indices. */
  predicate SupportInMask(s: State)
    requires |s.coef| == |s.selected|
  {
    forall j :: 0 <= j < |s.coef| && s.coef[j] != 0.0 ==> s.selected[j]
  }

  /** An iteration changes coef only at indices that are selected after it. */
  lemma NextKeepsSupportInMask(cfg: Config, s: State)
    requires WellFormed(cfg) && Shaped(cfg, s) && s.iter < cfg.budget
    requires SupportInMask(s)
    ensures SupportInMask(Next(cfg, s))
  {
  }

  /** With the duplicate check and an unselected column left, the iteration
      picks an unselected column, so the selection grows by exactly one;
      without the check it grows by at most one. */
  lemma NextSelectionCount(cfg: Config, s: State)
    requires WellFormed(cfg) && Shaped(cfg, s) && s.iter < cfg.budget
    ensures cfg.checkDuplicates && CountTrue(s.selected) < |s.selected| ==>
      CountTrue(Next(cfg, s).selected) == CountTrue(s.selected) + 1
    ensures CountTrue(Next(cfg, s).selected) <= CountTrue(s.selected) + 1
  {
    var best := Choice(cfg, s);
    assert Next(cfg, s).selected == s.selected[best := true];
    CountTrueSet(s.selected, best);
    if cfg.checkDuplicates && CountTrue(s.selected) < |s.selected| {
      SomeFalse(s.selected);
      var j :| 0 <= j < |s.selected| && !s.selected[j];
      var elig := Eligibility(cfg.checkDuplicates, s.selected);
      FirstArgMaxSpec(Magnitudes(Scores(cfg.K, cfg.norms, Pseudo(cfg.loss, cfg.y, s))), elig);
      assert elig[j];
      assert elig[best];
    }
  }

  /** The line-search branch keeps residuals == y - y_pred. */
  lemma LineUpdateKeepsResiduals(cfg: Config, s: State, best: nat, selected: seq<bool>, r: Vector, alpha: real)
    requires WellFormed(cfg) && Shaped(cfg, s) && best < |cfg.norms| && |selected| == |cfg.norms|
    requires cfg.loss.NoLoss? && r == Sub(cfg.y, s.yPred)
    ensures var s' := LineUpdate(cfg, s, best, selected, r, alpha);
      s'.residuals == Sub(cfg.y, s'.yPred)
  {
    ResidualAfterStep(cfg.y, s.yPred, alpha, Column(cfg.K, best));
  }

  /** Without a loss, residuals == y - y_pred survives both kinds of update. */
  lemma NextKeepsResiduals(cfg: Config, s: State)
    requires WellFormed(cfg) && Shaped(cfg, s) && s.iter < cfg.budget
    requires cfg.loss.NoLoss? && s.residuals == Sub(cfg.y, s.yPred)
    ensures Next(cfg, s).residuals == Sub(cfg.y, Next(cfg, s).yPred)
  {
    if !IsRefit(cfg.nRefit, s.iter + 1) {
      var best := Choice(cfg, s);
      var r := Pseudo(cfg.loss, cfg.y, s);
      LineUpdateKeepsResiduals(cfg, s, best, s.selected[best := true], r, StepSize(cfg, s, best, Scores(cfg.K, cfg.norms, r)));
    }
  }

  /** The line-search branch keeps y_pred == K . coef. */
  lemma LineUpdateKeepsPrediction(cfg: Config, s: State, best: nat, selected: seq<bool>, r: Vector, alpha: real)
    requires WellFormed(cfg) && Shaped(cfg, s) && best < |cfg.norms| && |selected| == |cfg.norms|
    requires |r| == |cfg.y| && s.yPred == MatVec(cfg.K, s.coef)
    ensures var s' := LineUpdate(cfg, s, best, selected, r, alpha);
      s'.yPred == MatVec(cfg.K, s'.coef)
  {
    var s' := LineUpdate(cfg, s, best, selected, r, alpha);
    var lhs, rhs := s'.yPred, MatVec(cfg.K, s'.coef);
    forall i | 0 <= i < |cfg.K| ensures lhs[i] == rhs[i] {
      DotBump(cfg.K[i], s.coef, best, alpha);
    }
  }

  /** A line-search iteration keeps y_pred == K . coef. */
  lemma NextKeepsPrediction(cfg: Config, s: State)
    requires WellFormed(cfg) && Shaped(cfg, s) && s.iter < cfg.budget
    requires !IsRefit(cfg.nRefit, s.iter + 1)
    requires s.yPred == MatVec(cfg.K, s.coef)
    ensures Next(cfg, s).yPred == MatVec(cfg.K, Next(cfg, s).coef)
  {
    var best := Choice(cfg, s);
    var r := Pseudo(cfg.loss, cfg.y, s);
    LineUpdateKeepsPrediction(cfg, s, best, s.selected[best := true], r, StepSize(cfg, s, best, Scores(cfg.K, cfg.norms, r)));
  }

  /** The no-loss step dots[best] / norms[best] is the squared-loss line
      search along that column, given residuals == y - y_pred. */
  lemma NoLossStepIsLineSearch(cfg: Config, r: Vector, yPred: Vector, j: nat)
    requires WellFormed(cfg) && ColumnNorms(cfg.K, cfg.norms)
    requires |yPred| == |cfg.y| && r == Sub(cfg.y, yPred) && j < |cfg.norms|
    ensures SumSq(Column(cfg.K, j)) > 0.0
    ensures Scores(cfg.K, cfg.norms, r)[j] / cfg.norms[j] == LineSearch(cfg.y, yPred, Column(cfg.K, j))
  {
    ColumnEnergyPositive(cfg, j);
    assert NormOf(cfg.K, cfg.norms, j);
    DivideTwice(Dot(Column(cfg.K, j), r), cfg.norms[j], SumSq(Column(cfg.K, j)));
  }

  /** A line-search iteration never increases the squared training error
      (for the no-loss path, given its residual bookkeeping). */
  lemma NextNeverIncreasesError(cfg: Config, s: State)
    requires WellFormed(cfg) && Shaped(cfg, s) && s.iter < cfg.budget
    requires !IsRefit(cfg.nRefit, s.iter + 1)
    requires cfg.loss.NoLoss? ==> s.residuals == Sub(cfg.y, s.yPred) && ColumnNorms(cfg.K, cfg.norms)
    ensures SquaredError(cfg.y, Next(cfg, s).yPred) <= SquaredError(cfg.y, s.yPred)
  {
    var best := Choice(cfg, s);
    var column := Column(cfg.K, best);
    ColumnEnergyPositive(cfg, best);
    if cfg.loss.NoLoss? {
      NoLossStepIsLineSearch(cfg, Pseudo(cfg.loss, cfg.y, s), s.yPred, best);
    }
    LineSearchNeverIncreasesError(cfg.y, s.yPred, column);
  }

  /** The selection counts the iterations: exactly, with the duplicate
      check; at most, in any case. */
  predicate SelectionCount(cfg: Config, s: State) {
    && (cfg.checkDuplicates ==> CountTrue(s.selected) == s.iter)
    && CountTrue(s.selected) <= s.iter
  }

  /** What holds after every iteration: the support stays inside the mask,
      the selection counts the iterations, residuals == y - y_pred without a
      loss, and y_pred == K . coef when refitting is disabled. */
  ghost predicate Invariant(cfg: Config, s: State)
    requires WellFormed(cfg) && Shaped(cfg, s)
  {
    && SupportInMask(s)
    && SelectionCount(cfg, s)
    && (cfg.loss.NoLoss? ==> s.residuals == Sub(cfg.y, s.yPred))
    && (cfg.nRefit == 0 ==> s.yPred == MatVec(cfg.K, s.coef))
  }

  /** The initial state satisfies the invariant. */
  lemma InitInvariant(cfg: Config)
    requires WellFormed(cfg)
    ensures Invariant(cfg, Init(cfg))
  {
    var s := Init(cfg);
    NoneTrue(s.selected);
    assert Sub(cfg.y, s.yPred) == cfg.y;
    forall i | 0 <= i < |cfg.K| ensures Dot(cfg.K[i], s.coef) == 0.0 {
      DotZero(cfg.K[i], s.coef);
    }
  }

  lemma {:induction false} DotZero(a: Vector, z: Vector)
    requires |a| == |z| && forall i :: 0 <= i < |z| ==> z[i] == 0.0
    ensures Dot(a, z) == 0.0
  {
    if |a| > 0 {
      DotZero(a[..|a| - 1], z[..|z| - 1]);
    }
  }

  /** Every iteration preserves the invariant. */
  lemma NextKeepsInvariant(cfg: Config, s: State)
    requires WellFormed(cfg) && Shaped(cfg, s) && s.iter < cfg.budget
    requires Invariant(cfg, s)
    ensures Invariant(cfg, Next(cfg, s))
  {
    NextKeepsSupportInMask(cfg, s);
    NextSelectionCount(cfg, s);
    if cfg.loss.NoLoss? {
      NextKeepsResiduals(cfg, s);
    }
    if cfg.nRefit == 0 {
      NextKeepsPrediction(cfg, s);
    }
  }

  // ---------------------------------------------------------------------
  // Properties of whole runs

  /** The invariant holds after every iteration of every run. */
  lemma {:induction false} RunInvariant(cfg: Config, t: nat)
    requires WellFormed(cfg) && t <= cfg.budget
    ensures Invariant(cfg, Run(cfg, t))
  {
    if t == 0 {
      InitInvariant(cfg);
    } else {
      RunInvariant(cfg, t - 1);
      NextKeepsInvariant(cfg, Run(cfg, t - 1));
      RunStep(cfg, t);
    }
  }

  /** With refitting disabled, every iteration lowers the squared error or
      keeps it. */
  lemma RunErrorNonIncreasing(cfg: Config, t: nat)
    requires WellFormed(cfg) && t < cfg.budget && cfg.nRefit == 0
    requires cfg.loss.NoLoss? ==> ColumnNorms(cfg.K, cfg.norms)
    ensures SquaredError(cfg.y, Run(cfg, t + 1).yPred) <= SquaredError(cfg.y, Run(cfg, t).yPred)
  {
    var prev := Run(cfg, t);
    RunInvariant(cfg, t);
    NextNeverIncreasesError(cfg, prev);
    RunStep(cfg, t + 1);
  }

  /** a is the no-loss pursuit and b the squared-loss pursuit of the same
      problem: the configurations differ in the loss alone. */
  ghost predicate LossVariants(a: Config, b: Config) {
    && WellFormed(a) && WellFormed(b) && ColumnNorms(a.K, a.norms)
    && a.loss.NoLoss? && b.loss.Squared?
    && a.K == b.K && a.y == b.y && a.norms == b.norms && a.budget == b.budget
    && a.nRefit == b.nRefit && a.checkDuplicates == b.checkDuplicates && a.est == b.est
  }

  /** States that agree in everything the caller sees. */
  predicate Agree(sa: State, sb: State) {
    sa.coef == sb.coef && sa.selected == sb.selected && sa.yPred == sb.yPred && sa.iter == sb.iter
  }

  /** From agreeing states (the no-loss one keeping residuals == y - y_pred),
      one no-loss iteration and one squared-loss iteration agree again. */
  lemma NextAgree(a: Config, b: Config, sa: State, sb: State)
    requires LossVariants(a, b)
    requires Shaped(a, sa) && Shaped(b, sb) && sa.iter < a.budget && Agree(sa, sb)
    requires sa.residuals == Sub(a.y, sa.yPred)
    ensures Agree(Next(a, sa), Next(b, sb))
  {
    var r := Pseudo(a.loss, a.y, sa);
    assert r == Pseudo(b.loss, b.y, sb);
    var best := Choice(a, sa);
    assert best == Choice(b, sb);
    var selected := sa.selected[best := true];
    if IsRefit(a.nRefit, sa.iter + 1) {
      NextIsRefit(a, sa);
      NextIsRefit(b, sb);
      RefitAgree(a, b, sa, sb, selected, r, r);
    } else {
      var alpha := StepSize(a, sa, best, Scores(a.K, a.norms, r));
      NoLossStepIsLineSearch(a, r, sa.yPred, best);
      assert alpha == StepSize(b, sb, best, Scores(b.K, b.norms, r));
      NextIsLine(a, sa);
      NextIsLine(b, sb);
      LineAgree(a, b, sa, sb, best, selected, r, r, alpha);
    }
  }

  /** The refit branch depends on the loss only through the residuals. */
  lemma RefitAgree(a: Config, b: Config, sa: State, sb: State, selected: seq<bool>, ra: Vector, rb: Vector)
    requires LossVariants(a, b)
    requires Shaped(a, sa) && Shaped(b, sb) && Agree(sa, sb)
    requires |selected| == |a.norms| > 0 && |ra| == |rb| == |a.y|
    ensures Agree(RefitUpdate(a, sa, selected, ra), RefitUpdate(b, sb, selected, rb))
  {
  }

  /** So does the line-search branch, given the same step. */
  lemma LineAgree(a: Config, b: Config, sa: State, sb: State, best: nat, selected: seq<bool>, ra: Vector, rb: Vector, alpha: real)
    requires LossVariants(a, b)
    requires Shaped(a, sa) && Shaped(b, sb) && Agree(sa, sb)
    requires best < |a.norms| && |selected| == |a.norms| && |ra| == |rb| == |a.y|
    ensures Agree(LineUpdate(a, sa, best, selected, ra, alpha), LineUpdate(b, sb, best, selected, rb, alpha))
  {
  }

  /** Squared loss and no loss agree in exact arithmetic: both runs select
      the same columns and produce the same coef and y_pred after every
      iteration, refits included. */
  lemma {:induction false} LossesAgree(a: Config, b: Config, t: nat)
    requires LossVariants(a, b) && t <= a.budget
    ensures Agree(Run(a, t), Run(b, t))
  {
    if t == 0 {
      assert Run(a, 0) == Init(a) && Run(b, 0) == Init(b);
    } else {
      LossesAgree(a, b, t - 1);
      RunStepAgree(a, b, t);
    }
  }

  lemma RunStepAgree(a: Config, b: Config, t: nat)
    requires LossVariants(a, b) && 0 < t <= a.budget
    requires Agree(Run(a, t - 1), Run(b, t - 1))
    ensures Agree(Run(a, t), Run(b, t))
  {
    RunInvariant(a, t - 1);
    NextAgree(a, b, Run(a, t - 1), Run(b, t - 1));
    RunStep(a, t);
    RunStep(b, t);
  }
}
