/** The loss strategy of the pursuit. `NoLoss` is the default (loss=None):
    the pursuit tracks true residuals itself. `Squared` is SquaredLoss, which
    recomputes the pseudo-residual from the prediction every iteration and
    takes the closed-form 1-D step. */
module Losses {
  import opened Vectors

  datatype Loss = NoLoss | Squared

  /** The training error that the squared loss measures. */
  function SquaredError(y: Vector, yPred: Vector): real
    requires |y| == |yPred|
  {
    SumSq(Sub(y, yPred))
  }

  /** SquaredLoss.negative_gradient: the pseudo-residual is what the
      prediction still lacks to reach the target. */
  function NegativeGradient(yTrue: Vector, yPred: Vector): (g: Vector)
    requires |yTrue| == |yPred|
    ensures |g| == |yTrue|
  {
    Sub(yTrue, yPred)
  }

  /** SquaredLoss.line_search: dot(column, y - y_pred) / sum(column ** 2).
      A zero column (division by zero in the source) is excluded. */
  function LineSearch(y: Vector, yPred: Vector, column: Vector): real
    requires |y| == |yPred| == |column|
    requires SumSq(column) > 0.0
  {
    Dot(column, Sub(y, yPred)) / SumSq(column)
  }

  /** The line-search step is the best step along the column: no other
      step size s leaves a smaller squared error. */
  lemma LineSearchIsOptimal(y: Vector, yPred: Vector, column: Vector, s: real)
    requires |y| == |yPred| == |column|
    requires SumSq(column) > 0.0
    ensures SquaredError(y, AddScaled(yPred, LineSearch(y, yPred, column), column))
         <= SquaredError(y, AddScaled(yPred, s, column))
  {
    var r := Sub(y, yPred);
    var a := LineSearch(y, yPred, column);
    var d, q, e := Dot(column, r), SumSq(column), SumSq(r);
    ResidualAfterStep(y, yPred, a, column);
    ResidualAfterStep(y, yPred, s, column);
    SumSqAlongLine(r, column, a);
    SumSqAlongLine(r, column, s);
    QuadraticMinimum(e, d, q, a, s);
  }

  /** e - 2 x d + x^2 q is smallest at x = d / q when q > 0. */
  lemma QuadraticMinimum(e: real, d: real, q: real, a: real, s: real)
    requires q > 0.0 && a == d / q
    ensures e - 2.0 * a * d + a * a * q <= e - 2.0 * s * d + s * s * q
  {
    assert d == a * q;
    assert (e - 2.0 * s * d + s * s * q) - (e - 2.0 * a * d + a * a * q)
        == q * ((s - a) * (s - a));
    assert (s - a) * (s - a) >= 0.0;
    assert q * ((s - a) * (s - a)) >= 0.0;
  }

  /** A line-search step never increases the squared training error. */
  lemma LineSearchNeverIncreasesError(y: Vector, yPred: Vector, column: Vector)
    requires |y| == |yPred| == |column|
    requires SumSq(column) > 0.0
    ensures SquaredError(y, AddScaled(yPred, LineSearch(y, yPred, column), column))
         <= SquaredError(y, yPred)
  {
    LineSearchIsOptimal(y, yPred, column, 0.0);
    assert AddScaled(yPred, 0.0, column) == yPred;
  }
}
