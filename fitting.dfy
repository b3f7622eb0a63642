/** The generator of _fit_generator as an object that keeps its arrays
    between iterations, the driver _fit_last that exhausts it, and
    _fit_multi, which fits one target column after another. Every `Step`
    is proved to perform exactly the transition `Pursuit.Next`, so the
    state after t steps is `Pursuit.Run(cfg, t)` and everything proved
    about runs holds of the arrays. */
module Fitting {
  import opened Vectors
  import opened Masks
  import opened Losses
  import opened Selection
  import opened Pursuit
  import opened Periods

  datatype Option<T> = None | Some(value: T)

  /** `a[:] = v`. */
  method CopyInto(a: array<real>, v: Vector)
    requires a.Length == |v|
    modifies a
    ensures a[..] == v
  {
    forall i | 0 <= i < a.Length {
      a[i] := v[i];
    }
  }

  /** `a += alpha * v`, one entry at a time. */
  method AddScaledInto(a: array<real>, alpha: real, v: Vector)
    requires a.Length == |v|
    modifies a
    ensures a[..] == AddScaled(old(a[..]), alpha, v)
  {
    var i := 0;
    while i < a.Length
      invariant 0 <= i <= a.Length
      invariant forall k :: 0 <= k < i ==> a[k] == old(a[k]) + alpha * v[k]
      invariant forall k :: i <= k < a.Length ==> a[k] == old(a[k])
    {
      a[i] := a[i] + alpha * v[i];
      i := i + 1;
    }
  }

  /** `a[mask] = v`: walk the mask, handing out v's entries in order to the
      true positions. */
  method ScatterInto(a: array<real>, mask: seq<bool>, v: Vector)
    requires a.Length == |mask| && |v| == CountTrue(mask)
    modifies a
    ensures a[..] == Scatter(old(a[..]), mask, v)
  {
    ghost var target := Scatter(a[..], mask, v);
    var j, k := 0, 0;
    while j < a.Length
      invariant 0 <= j <= a.Length
      invariant k == CountTrue(mask[..j])
      invariant forall i :: 0 <= i < j ==> a[i] == target[i]
      invariant forall i :: j <= i < a.Length ==> a[i] == old(a[i])
    {
      RankBelowCount(mask, j);
      if mask[j] {
        a[j] := v[k];
        k := k + 1;
      }
      j := j + 1;
    }
  }

  /** A running _fit_generator: the four arrays it updates and the number
      of iterations it has done. */
  class Generator {
    const cfg: Config
    const coef: array<real>
    const selected: array<bool>
    const yPred: array<real>
    const residuals: array<real>
    var iter: nat
    ghost const Repr: set<object>

    /** The arrays read as a pursuit state. */
    ghost function Current(): State
      reads this, coef, selected, yPred, residuals
    {
      State(coef[..], selected[..], yPred[..], residuals[..], iter)
    }

    /** The arrays are distinct and sized for the configuration, which is
        well formed, and the budget is not yet exceeded. */
    ghost predicate Valid()
      reads this, Repr
    {
      && Repr == {this, coef, selected, yPred, residuals}
      && coef != yPred && coef != residuals && yPred != residuals
      && WellFormed(cfg)
      && iter <= cfg.budget
      && coef.Length == selected.Length == |cfg.norms|
      && yPred.Length == residuals.Length == |cfg.y|
    }

    /** The set-up before the loop: zero coef, empty selection, zero
        prediction, residuals a copy of y. */
    constructor (cfg: Config)
      requires WellFormed(cfg)
      ensures Valid() && fresh(Repr)
      ensures this.cfg == cfg && Current() == Init(cfg)
    {
      this.cfg := cfg;
      coef := new real[|cfg.norms|](_ => 0.0);
      selected := new bool[|cfg.norms|](_ => false);
      yPred := new real[|cfg.y|](_ => 0.0);
      residuals := new real[|cfg.y|](i requires 0 <= i < |cfg.y| => cfg.y[i]);
      iter := 0;
      Repr := {this, coef, selected, yPred, residuals};
      new;
      assert Current() == Init(cfg);
    }

    /** One pass of the generator's loop body, ending in `yield coef, y_pred`. */
    method Step() returns (c: Vector, p: Vector)
      requires Valid() && iter < cfg.budget
      modifies Repr
      ensures Valid()
      ensures Current() == Next(cfg, old(Current())) && iter == old(iter) + 1
      ensures c == coef[..] && p == yPred[..]
    {
      ghost var s := Current();
      var r := PseudoResiduals();
      var best := ArgMax(Magnitudes(Scores(cfg.K, cfg.norms, r)), Eligibility(cfg.checkDuplicates, selected[..]));
      selected[best] := true;
      var refit := cfg.nRefit != 0 && (iter + 1) % cfg.nRefit == 0;
      if cfg.nRefit != 0 {
        DividesMod(cfg.nRefit, iter + 1);
      }
      if refit {
        RefitArrays(s, best, r);
      } else {
        LineArrays(s, best, r);
      }
      c, p := coef[..], yPred[..];
    }

    /** `residuals = loss.negative_gradient(y, y_pred)` when there is a loss;
        the residuals about to be scored, in either case. */
    method PseudoResiduals() returns (r: Vector)
      requires Valid() && iter < cfg.budget
      modifies residuals
      ensures Valid()
      ensures r == Pseudo(cfg.loss, cfg.y, old(Current()))
      ensures Current() == old(Current()).(residuals := r)
    {
      if cfg.loss.Squared? {
        CopyInto(residuals, NegativeGradient(cfg.y, yPred[..]));
      }
      r := residuals[..];
    }

    /** Halfway through the iteration that starts in s: best is chosen and
        marked, and the residuals hold r. */
    ghost predicate Midway(s: State, best: nat, r: Vector)
      reads this, Repr
    {
      && Valid() && Shaped(cfg, s) && s.iter < cfg.budget
      && best == Choice(cfg, s) && r == Pseudo(cfg.loss, cfg.y, s)
      && Current() == s.(selected := s.selected[best := true], residuals := r)
    }

    /** The refit branch, completing the iteration. */
    method RefitArrays(ghost s: State, best: nat, r: Vector)
      requires Midway(s, best, r) && IsRefit(cfg.nRefit, s.iter + 1)
      modifies Repr
      ensures Valid() && Current() == Next(cfg, s)
    {
      NextIsRefit(cfg, s);
      var mask := selected[..];
      HasRows(cfg);
      var fit := cfg.est(SubDictionary(cfg.K, mask), cfg.y);
      ScatterInto(coef, mask, fit.coef);
      CopyInto(yPred, fit.pred);
      if cfg.loss.NoLoss? {
        CopyInto(residuals, Sub(cfg.y, fit.pred));
      }
      iter := iter + 1;
    }

    /** The line-search branch, completing the iteration. */
    method LineArrays(ghost s: State, best: nat, r: Vector)
      requires Midway(s, best, r) && !IsRefit(cfg.nRefit, s.iter + 1)
      modifies Repr
      ensures Valid() && Current() == Next(cfg, s)
    {
      NextIsLine(cfg, s);
      var alpha: real;
      if cfg.loss.NoLoss? {
        alpha := Scores(cfg.K, cfg.norms, r)[best] / cfg.norms[best];
      } else {
        ColumnEnergyPositive(cfg, best);
        alpha := LineSearch(cfg.y, yPred[..], Column(cfg.K, best));
      }
      coef[best] := coef[best] + alpha;
      var column := Column(cfg.K, best);
      AddScaledInto(yPred, alpha, column);
      if cfg.loss.NoLoss? {
        AddScaledInto(residuals, -alpha, column);
      }
      iter := iter + 1;
    }
  }

  /** _fit_last: exhaust the generator and return the last coef it yielded.
      With a budget of 0 nothing is yielded and the source fails on an
      unbound name; that is `None` here. */
  method FitLast(cfg: Config) returns (coef: Option<Vector>)
    requires WellFormed(cfg)
    ensures coef.None? <==> cfg.budget == 0
    ensures coef.Some? ==> coef.value == FinalCoef(cfg)
  {
    var g := new Generator(cfg);
    coef := None;
    while g.iter < cfg.budget
      invariant g.Valid() && fresh(g.Repr) && g.cfg == cfg
      invariant g.Current() == Run(cfg, g.iter)
      invariant coef.None? <==> g.iter == 0
      invariant coef.Some? ==> coef.value == Run(cfg, g.iter).coef
      decreases cfg.budget - g.iter
    {
      ghost var before := g.Current();
      var c, p := g.Step();
      ghost var after := g.Current();
      StepIsRun(cfg, before, after);
      coef := Some(c);
    }
    assert g.iter == cfg.budget;
  }

  /** One more iteration from the state after t iterations is the state
      after t + 1. */
  lemma StepIsRun(cfg: Config, before: State, after: State)
    requires WellFormed(cfg) && before.iter < cfg.budget
    requires before == Run(cfg, before.iter) && after == Next(cfg, before)
    ensures after == Run(cfg, before.iter + 1)
  {
    RunStep(cfg, before.iter + 1);
  }

  /** The same pursuit aimed at another target of the same length. */
  function WithTarget(cfg: Config, y: Vector): (c: Config)
    ensures c.y == y && c.budget == cfg.budget
    ensures WellFormed(cfg) && |y| == |cfg.y| ==> WellFormed(c)
  {
    cfg.(y := y)
  }

  /** What _fit_last returns for a well-formed configuration with a
      positive budget. */
  ghost function FinalCoef(cfg: Config): Vector
    requires WellFormed(cfg)
  {
    Run(cfg, cfg.budget).coef
  }

  /** _fit_multi: one pursuit per target column (the columns of Y, given
      here as a sequence), row k of the result being the final coef of
      column k. With a budget of 0 the first column already fails. */
  method FitMulti(cfg: Config, targets: seq<Vector>) returns (coef: Option<Matrix>)
    requires WellFormed(cfg) && forall k :: 0 <= k < |targets| ==> |targets[k]| == |cfg.y|
    ensures coef.None? <==> (cfg.budget == 0 && |targets| > 0)
    ensures coef.Some? ==> |coef.value| == |targets| && forall k :: 0 <= k < |targets| ==>
      coef.value[k] == FinalCoef(WithTarget(cfg, targets[k]))
  {
    var rows: Matrix := [];
    var k := 0;
    while k < |targets|
      invariant 0 <= k <= |targets| && |rows| == k
      invariant k > 0 ==> cfg.budget > 0
      invariant forall l :: 0 <= l < k ==> rows[l] == FinalCoef(WithTarget(cfg, targets[l]))
    {
      var last := FitLast(WithTarget(cfg, targets[k]));
      if last.None? {
        return None;
      }
      rows := rows + [last.value];
      k := k + 1;
    }
    coef := Some(rows);
  }
}
