/** _fit_multi_with_validation: one generator per target column, advanced in
    lockstep; every n_validate-th iteration is a checkpoint that scores the
    current coefficients on the validation set and the current predictions
    on the training set, keeps the best coefficients seen so far, and stops
    early once the validation score has levelled off. */
module Validation {
  import opened Vectors
  import opened Selection
  import opened Pursuit
  import opened Fitting
  import opened Periods

  /** Why the loop fails: with no target column `zip(*res)` has nothing to
      unpack; with n_validate == 0 the first `n_iter % n_validate` divides
      by zero. */
  datatype Failure = EmptyTargets | ZeroValidationPeriod

  datatype Result<T> = Ok(value: T) | Fail(failure: Failure)

  /** n_validate, epsilon and the two scorers. valScore stands for
      `_score(y_val, np.dot(K_val, coef.T))` as a function of coef (K_val
      and y_val are fixed for the whole loop); trainScore for
      `_score(y, y_train)` as a function of the predictions, one row per
      target. */
  datatype Validator = Validator(
    period: nat, epsilon: real, valScore: Matrix -> real, trainScore: Matrix -> real)

  /** The loop's results: coef_ (None while no checkpoint has been
      reached, since coef_ is only assigned at a checkpoint),
      validation_scores_, training_scores_, iterations_, and the number of
      iterations run. */
  datatype Outcome = Outcome(
    coef: Option<Matrix>, validationScores: seq<real>, trainingScores: seq<real>,
    iterations: seq<nat>, steps: nat)

  /** The pursuit configuration and the target columns it is aimed at. */
  ghost predicate Fits(cfg: Config, targets: seq<Vector>) {
    WellFormed(cfg) && forall k :: 0 <= k < |targets| ==> |targets[k]| == |cfg.y|
  }

  // ---------------------------------------------------------------------
  // The specification of the loop

  /** `n_iter % n_validate == 0`, which only a positive period can answer. */
  predicate IsCheckpoint(n: nat, period: nat) {
    period > 0 && Divides(period, n)
  }

  /** iterations_ after n iterations: the checkpoints among 1..n, in order. */
  function Checkpoints(n: nat, period: nat): (c: seq<nat>)
    ensures forall k :: 0 <= k < |c| ==> 1 <= c[k] <= n && IsCheckpoint(c[k], period)
  {
    if n == 0 then []
    else Checkpoints(n - 1, period) + (if IsCheckpoint(n, period) then [n] else [])
  }

  /** The checkpoints are exactly the multiples of the period up to n, in
      strictly ascending order. */
  lemma {:induction false} CheckpointsSpec(n: nat, period: nat)
    ensures var c := Checkpoints(n, period);
      && (forall k, l :: 0 <= k < l < |c| ==> c[k] < c[l])
      && (forall m :: 1 <= m <= n && IsCheckpoint(m, period) ==> m in c)
  {
    if n > 0 {
      CheckpointsSpec(n - 1, period);
    }
  }

  /** validation_scores_ for the given checkpoints. */
  ghost function ValidationTrace(cfg: Config, targets: seq<Vector>, v: Validator, its: seq<nat>): (s: seq<real>)
    requires Fits(cfg, targets) && forall k :: 0 <= k < |its| ==> its[k] <= cfg.budget
    ensures |s| == |its|
  {
    seq(|its|, k requires 0 <= k < |its| => v.valScore(CoefAt(cfg, targets, its[k])))
  }

  /** training_scores_ for the given checkpoints. */
  ghost function TrainingTrace(cfg: Config, targets: seq<Vector>, v: Validator, its: seq<nat>): (s: seq<real>)
    requires Fits(cfg, targets) && forall k :: 0 <= k < |its| ==> its[k] <= cfg.budget
    ensures |s| == |its|
  {
    seq(|its|, k requires 0 <= k < |its| => v.trainScore(PredAt(cfg, targets, its[k])))
  }

  /** The convergence test: more than two checkpoints, a positive epsilon,
      and the last change relative to the first score below epsilon. A
      first score of 0 divides by zero; numpy answers inf or nan, neither
      below epsilon, so that never converges. */
  predicate Plateau(s: seq<real>, epsilon: real) {
    |s| > 2 && epsilon > 0.0 && s[0] != 0.0 && Abs((s[|s| - 1] - s[|s| - 2]) / s[0]) < epsilon
  }

  /** The loop breaks at iteration n: n is a checkpoint and the validation
      scores up to it have levelled off. */
  ghost predicate StopsAt(cfg: Config, targets: seq<Vector>, v: Validator, n: nat)
    requires Fits(cfg, targets) && n <= cfg.budget
  {
    IsCheckpoint(n, v.period) && Plateau(ValidationTrace(cfg, targets, v, Checkpoints(n, v.period)), v.epsilon)
  }

  /** No iteration before n broke the loop. */
  ghost predicate Quiet(cfg: Config, targets: seq<Vector>, v: Validator, n: nat)
    requires Fits(cfg, targets) && n <= cfg.budget
  {
    forall m :: 1 <= m < n ==> !StopsAt(cfg, targets, v, m)
  }

  /** Which score best_score holds: starting from -inf, a score replaces it
      only when strictly greater. */
  function BestIndex(s: seq<real>): (p: Option<nat>)
    ensures p.Some? ==> p.value < |s|
  {
    if |s| == 0 then None
    else
      var prev := BestIndex(s[..|s| - 1]);
      if prev.None? || s[|s| - 1] > s[prev.value] then Some(|s| - 1) else prev
  }

  /** The kept score is the first maximal one: none exceeds it and every
      earlier one is smaller; there is one as soon as there is a score. */
  lemma {:induction false} BestIndexSpec(s: seq<real>)
    ensures var p := BestIndex(s);
      && (p.Some? <==> |s| > 0)
      && (p.Some? ==> forall k :: 0 <= k < |s| ==> s[k] <= s[p.value])
      && (p.Some? ==> forall k :: 0 <= k < p.value ==> s[k] < s[p.value])
  {
    if |s| > 0 {
      var init := s[..|s| - 1];
      BestIndexSpec(init);
      assert forall k :: 0 <= k < |init| ==> init[k] == s[k];
    }
  }

  /** coef_ after the given checkpoints: the coefficients at the first
      checkpoint with the maximal validation score. */
  ghost function BestSnapshot(cfg: Config, targets: seq<Vector>, v: Validator, its: seq<nat>): Option<Matrix>
    requires Fits(cfg, targets) && forall k :: 0 <= k < |its| ==> its[k] <= cfg.budget
  {
    match BestIndex(ValidationTrace(cfg, targets, v, its))
    case None => None
    case Some(b) => Some(CoefAt(cfg, targets, its[b]))
  }

  /** The best snapshot is absent before the first checkpoint; after it, it
      is the coefficients at a checkpoint whose validation score no other
      checkpoint exceeds and every earlier checkpoint falls short of. */
  lemma {:induction false} BestSnapshotSpec(cfg: Config, targets: seq<Vector>, v: Validator, its: seq<nat>)
    requires Fits(cfg, targets) && forall k :: 0 <= k < |its| ==> its[k] <= cfg.budget
    ensures var best, s := BestSnapshot(cfg, targets, v, its), ValidationTrace(cfg, targets, v, its);
      && (best.None? <==> |its| == 0)
      && (best.Some? ==> exists b :: (
            && 0 <= b < |its|
            && best.value == CoefAt(cfg, targets, its[b])
            && (forall k :: 0 <= k < |its| ==> s[k] <= s[b])
            && (forall k :: 0 <= k < b ==> s[k] < s[b])))
  {
    BestIndexSpec(ValidationTrace(cfg, targets, v, its));
  }

  /** What the loop has recorded after o.steps iterations: iterations_,
      validation_scores_ and training_scores_ hold the checkpoints so far
      and their scores, coef_ the best snapshot. */
  ghost predicate Traced(cfg: Config, targets: seq<Vector>, v: Validator, o: Outcome)
    requires Fits(cfg, targets)
  {
    && o.steps <= cfg.budget
    && o.iterations == Checkpoints(o.steps, v.period)
    && o.validationScores == ValidationTrace(cfg, targets, v, o.iterations)
    && o.trainingScores == TrainingTrace(cfg, targets, v, o.iterations)
    && o.coef == BestSnapshot(cfg, targets, v, o.iterations)
  }

  /** What a finished run reports: its record, no iteration before the
      last met the plateau rule, and the last one spent
      the budget or met the rule. */
  ghost predicate Reports(cfg: Config, targets: seq<Vector>, v: Validator, o: Outcome)
    requires Fits(cfg, targets)
  {
    && Traced(cfg, targets, v, o)
    && Quiet(cfg, targets, v, o.steps)
    && (o.steps == cfg.budget || StopsAt(cfg, targets, v, o.steps))
  }

  /** What a report looks like: iterations_ lists, in ascending order,
      exactly the iteration numbers up to the last one run that leave no
      remainder modulo n_validate; validation_scores_ and training_scores_
      have one entry per listed iteration; coef_ is set exactly when some
      checkpoint was reached. */
  lemma ReportedTraces(cfg: Config, targets: seq<Vector>, v: Validator, o: Outcome)
    requires Fits(cfg, targets) && Reports(cfg, targets, v, o)
    ensures |o.validationScores| == |o.trainingScores| == |o.iterations|
    ensures forall k, l :: 0 <= k < l < |o.iterations| ==> o.iterations[k] < o.iterations[l]
    ensures forall m :: 1 <= m <= o.steps ==> (m in o.iterations <==> v.period > 0 && m % v.period == 0)
    ensures o.coef.Some? <==> |o.iterations| > 0
  {
    CheckpointsSpec(o.steps, v.period);
    BestSnapshotSpec(cfg, targets, v, o.iterations);
    forall m | 1 <= m <= o.steps
      ensures m in o.iterations <==> v.period > 0 && m % v.period == 0
    {
      if v.period > 0 {
        DividesMod(v.period, m);
      }
    }
  }

  /** A run that stops before spending its budget stopped at a checkpoint
      (its last iteration is the last one listed) where more than two
      scores were recorded, epsilon is positive and the last change
      relative to the first score is below epsilon. In particular, with
      epsilon <= 0 every run spends its budget. */
  lemma EarlyStop(cfg: Config, targets: seq<Vector>, v: Validator, o: Outcome)
    requires Fits(cfg, targets) && Reports(cfg, targets, v, o)
    ensures o.steps < cfg.budget ==>
      var s := o.validationScores;
      && |s| > 2 && |o.iterations| == |s| && o.iterations[|s| - 1] == o.steps
      && v.epsilon > 0.0 && s[0] != 0.0 && Abs((s[|s| - 1] - s[|s| - 2]) / s[0]) < v.epsilon
    ensures v.epsilon <= 0.0 ==> o.steps == cfg.budget
  {
    if o.steps < cfg.budget {
      assert StopsAt(cfg, targets, v, o.steps);
      assert o.steps > 0;
      assert o.iterations == Checkpoints(o.steps - 1, v.period) + [o.steps];
    }
  }

  // ---------------------------------------------------------------------
  // One checkpoint

  /** The loop's record together with best_score, the validation score of
      the best snapshot. */
  ghost predicate Recorded(cfg: Config, targets: seq<Vector>, v: Validator, o: Outcome, bestScore: real)
    requires Fits(cfg, targets)
  {
    && Traced(cfg, targets, v, o)
    && (BestIndex(o.validationScores).Some? ==> bestScore == o.validationScores[BestIndex(o.validationScores).value])
  }

  /** A checkpoint appends its iteration number and its two scores to the
      traces. */
  lemma {:induction false} CheckpointAppends(cfg: Config, targets: seq<Vector>, v: Validator, n: nat)
    requires Fits(cfg, targets) && 0 < n <= cfg.budget && IsCheckpoint(n, v.period)
    ensures var its, its' := Checkpoints(n - 1, v.period), Checkpoints(n, v.period);
      && its' == its + [n]
      && ValidationTrace(cfg, targets, v, its')
           == ValidationTrace(cfg, targets, v, its) + [v.valScore(CoefAt(cfg, targets, n))]
      && TrainingTrace(cfg, targets, v, its')
           == TrainingTrace(cfg, targets, v, its) + [v.trainScore(PredAt(cfg, targets, n))]
  {
  }

  /** The best snapshot after one more checkpoint: the new coefficients if
      theirs is the first score or beats the best so far, else unchanged. */
  lemma {:induction false} BestSnapshotAppend(cfg: Config, targets: seq<Vector>, v: Validator, its: seq<nat>, n: nat)
    requires Fits(cfg, targets) && n <= cfg.budget && forall k :: 0 <= k < |its| ==> its[k] <= cfg.budget
    ensures var s, p := ValidationTrace(cfg, targets, v, its), BestIndex(ValidationTrace(cfg, targets, v, its));
      BestSnapshot(cfg, targets, v, its + [n]) ==
        if p.None? || v.valScore(CoefAt(cfg, targets, n)) > s[p.value] then Some(CoefAt(cfg, targets, n))
        else BestSnapshot(cfg, targets, v, its)
  {
    var its' := its + [n];
    var s, s' := ValidationTrace(cfg, targets, v, its), ValidationTrace(cfg, targets, v, its');
    assert s'[..|s|] == s;
    var p := BestIndex(s);
    if p.Some? {
      assert its'[p.value] == its[p.value];
    }
  }

  /** Iteration o.steps + 1, when it is not a checkpoint, records nothing. */
  lemma {:induction false} PassRecordsNothing(cfg: Config, targets: seq<Vector>, v: Validator, o: Outcome, bestScore: real)
    requires Fits(cfg, targets) && o.steps < cfg.budget && !IsCheckpoint(o.steps + 1, v.period)
    requires Recorded(cfg, targets, v, o, bestScore)
    ensures Recorded(cfg, targets, v, o.(steps := o.steps + 1), bestScore)
  {
  }

  /** The body of `if n_iter % self.n_validate == 0` for n_iter =
      o.steps + 1: score the snapshot, keep it if it beats best_score,
      append to the three traces. */
  method Checkpoint(ghost cfg: Config, ghost targets: seq<Vector>, v: Validator,
                    coefs: Matrix, preds: Matrix, o: Outcome, bestScore: real)
    returns (o': Outcome, bestScore': real)
    requires Fits(cfg, targets) && o.steps < cfg.budget && IsCheckpoint(o.steps + 1, v.period)
    requires coefs == CoefAt(cfg, targets, o.steps + 1) && preds == PredAt(cfg, targets, o.steps + 1)
    requires Recorded(cfg, targets, v, o, bestScore)
    ensures Recorded(cfg, targets, v, o', bestScore') && o'.steps == o.steps + 1
  {
    var n := o.steps + 1;
    var valScore, trainScore := v.valScore(coefs), v.trainScore(preds);
    var best := o.coef;
    bestScore' := bestScore;
    if best.None? || valScore > bestScore {
      best, bestScore' := Some(coefs), valScore;
    }
    o' := Outcome(best, o.validationScores + [valScore], o.trainingScores + [trainScore], o.iterations + [n], n);
    CheckpointRecorded(cfg, targets, v, o, bestScore, o', bestScore');
  }

  /** What a checkpoint appends keeps the record: the traces grow by the
      new scores, and the best snapshot and best_score move to the new
      coefficients exactly when there was none or theirs is strictly
      better. */
  lemma {:induction false} CheckpointRecorded(cfg: Config, targets: seq<Vector>, v: Validator,
                                              o: Outcome, bestScore: real, o': Outcome, bestScore': real)
    requires Fits(cfg, targets) && o.steps < cfg.budget && IsCheckpoint(o.steps + 1, v.period)
    requires Recorded(cfg, targets, v, o, bestScore)
    requires var n, c := o.steps + 1, CoefAt(cfg, targets, o.steps + 1);
      && o'.steps == n && o'.iterations == o.iterations + [n]
      && o'.validationScores == o.validationScores + [v.valScore(c)]
      && o'.trainingScores == o.trainingScores + [v.trainScore(PredAt(cfg, targets, n))]
      && (if o.coef.None? || v.valScore(c) > bestScore then o'.coef == Some(c) && bestScore' == v.valScore(c)
          else o'.coef == o.coef && bestScore' == bestScore)
    ensures Recorded(cfg, targets, v, o', bestScore')
  {
    var n := o.steps + 1;
    BestSnapshotAppend(cfg, targets, v, o.iterations, n);
    CheckpointAppends(cfg, targets, v, n);
    assert o'.validationScores[..|o.validationScores|] == o.validationScores;
  }

  // ---------------------------------------------------------------------
  // The generators

  /** The generators' states after i iterations: one per target, each the
      pursuit of its target run for i iterations. */
  ghost predicate Following(cfg: Config, targets: seq<Vector>, states: seq<State>, i: nat)
    requires Fits(cfg, targets) && i <= cfg.budget
  {
    |states| == |targets| && forall k :: 0 <= k < |states| ==> states[k] == Run(WithTarget(cfg, targets[k]), i)
  }

  /** `coef, y_train = zip(*res)`: the coef each generator yielded, one
      row per target... */
  function Coefs(states: seq<State>): (m: Matrix)
    ensures |m| == |states|
  {
    seq(|states|, k requires 0 <= k < |states| => states[k].coef)
  }

  /** ...and the y_pred each yielded, one row per target (the transpose of
      y_train). */
  function Preds(states: seq<State>): (m: Matrix)
    ensures |m| == |states|
  {
    seq(|states|, k requires 0 <= k < |states| => states[k].yPred)
  }

  /** The coefs the generators yield after i iterations, one row per
      target. */
  ghost function CoefAt(cfg: Config, targets: seq<Vector>, i: nat): (m: Matrix)
    requires Fits(cfg, targets) && i <= cfg.budget
    ensures |m| == |targets|
  {
    seq(|targets|, k requires 0 <= k < |targets| => Run(WithTarget(cfg, targets[k]), i).coef)
  }

  /** The predictions the generators yield after i iterations, one row per
      target. */
  ghost function PredAt(cfg: Config, targets: seq<Vector>, i: nat): (m: Matrix)
    requires Fits(cfg, targets) && i <= cfg.budget
    ensures |m| == |targets|
  {
    seq(|targets|, k requires 0 <= k < |targets| => Run(WithTarget(cfg, targets[k]), i).yPred)
  }

  /** What the generators yield after i iterations is what the pursuits
      reach after i iterations. */
  lemma {:induction false} YieldedAt(cfg: Config, targets: seq<Vector>, states: seq<State>, i: nat)
    requires Fits(cfg, targets) && i <= cfg.budget && Following(cfg, targets, states, i)
    ensures Coefs(states) == CoefAt(cfg, targets, i) && Preds(states) == PredAt(cfg, targets, i)
  {
  }

  /** The list comprehension of iterators: every generator before its
      first iteration. */
  method Launch(cfg: Config, targets: seq<Vector>) returns (states: seq<State>)
    requires Fits(cfg, targets)
    ensures Following(cfg, targets, states, 0)
  {
    states := seq(|targets|, k requires 0 <= k < |targets| => Init(WithTarget(cfg, targets[k])));
  }

  /** `[it.next() for it in iterators]`: advance every generator once, in
      target order. */
  method StepAll(cfg: Config, targets: seq<Vector>, states: seq<State>, ghost i: nat)
    returns (next: seq<State>)
    requires Fits(cfg, targets) && i < cfg.budget && Following(cfg, targets, states, i)
    ensures Following(cfg, targets, next, i + 1)
  {
    next := seq(|states|, k requires 0 <= k < |states| => Next(WithTarget(cfg, targets[k]), states[k]));
    Advanced(cfg, targets, states, next, i);
  }

  /** Generators that follow their pursuits for i iterations, each advanced
      once, follow them for i + 1. */
  lemma {:induction false} Advanced(cfg: Config, targets: seq<Vector>, states: seq<State>, next: seq<State>, i: nat)
    requires Fits(cfg, targets) && i < cfg.budget && Following(cfg, targets, states, i)
    requires |next| == |states| && forall k :: 0 <= k < |next| ==> next[k] == Next(WithTarget(cfg, targets[k]), states[k])
    ensures Following(cfg, targets, next, i + 1)
  {
    forall k | 0 <= k < |next|
      ensures next[k] == Run(WithTarget(cfg, targets[k]), i + 1)
    {
      StepIsRun(WithTarget(cfg, targets[k]), states[k], next[k]);
    }
  }

  // ---------------------------------------------------------------------
  // The loop

  /** The state of the loop after o.steps iterations: the generators, the
      record, no break so far, and `stop` set exactly when the last
      iteration met the plateau rule. */
  ghost predicate Progress(cfg: Config, targets: seq<Vector>, v: Validator,
                           states: seq<State>, o: Outcome, bestScore: real, stop: bool)
  {
    && Fits(cfg, targets) && o.steps <= cfg.budget
    && Following(cfg, targets, states, o.steps)
    && Recorded(cfg, targets, v, o, bestScore)
    && Quiet(cfg, targets, v, o.steps)
    && (stop <==> o.steps > 0 && StopsAt(cfg, targets, v, o.steps))
  }

  /** What one iteration does with what the generators yielded: at a
      checkpoint, record it and apply the plateau rule; otherwise nothing. */
  method Record(ghost cfg: Config, ghost targets: seq<Vector>, v: Validator,
                coefs: Matrix, preds: Matrix, o: Outcome, bestScore: real)
    returns (stop: bool, o': Outcome, bestScore': real)
    requires Fits(cfg, targets) && o.steps < cfg.budget && v.period > 0
    requires coefs == CoefAt(cfg, targets, o.steps + 1) && preds == PredAt(cfg, targets, o.steps + 1)
    requires Recorded(cfg, targets, v, o, bestScore)
    requires Quiet(cfg, targets, v, o.steps) && !(o.steps > 0 && StopsAt(cfg, targets, v, o.steps))
    ensures o'.steps == o.steps + 1 && Recorded(cfg, targets, v, o', bestScore')
    ensures Quiet(cfg, targets, v, o'.steps)
    ensures stop <==> StopsAt(cfg, targets, v, o'.steps)
  {
    DividesMod(v.period, o.steps + 1);
    if (o.steps + 1) % v.period == 0 {
      o', bestScore' := Checkpoint(cfg, targets, v, coefs, preds, o, bestScore);
      stop := Plateau(o'.validationScores, v.epsilon);
    } else {
      PassRecordsNothing(cfg, targets, v, o, bestScore);
      o', bestScore' := o.(steps := o.steps + 1), bestScore;
      stop := false;
    }
    Continued(cfg, targets, v, o, o', bestScore', stop);
  }

  /** The step from o to o' keeps the loop quiet, and it breaks exactly
      when the plateau rule holds at the new checkpoint. */
  lemma {:induction false} Continued(cfg: Config, targets: seq<Vector>, v: Validator,
                                     o: Outcome, o': Outcome, bestScore': real, stop: bool)
    requires Fits(cfg, targets) && o.steps < cfg.budget && o'.steps == o.steps + 1
    requires Quiet(cfg, targets, v, o.steps) && !(o.steps > 0 && StopsAt(cfg, targets, v, o.steps))
    requires Recorded(cfg, targets, v, o', bestScore')
    requires stop <==> IsCheckpoint(o'.steps, v.period) && Plateau(o'.validationScores, v.epsilon)
    ensures Quiet(cfg, targets, v, o'.steps)
    ensures stop <==> o'.steps > 0 && StopsAt(cfg, targets, v, o'.steps)
  {
    var n := o.steps;
    assert Quiet(cfg, targets, v, n + 1);
  }

  /** The `while True` loop, until StopIteration or the break. */
  method Drive(cfg: Config, targets: seq<Vector>, v: Validator) returns (o: Outcome)
    requires Fits(cfg, targets) && (v.period == 0 ==> cfg.budget == 0)
    ensures Reports(cfg, targets, v, o)
  {
    var states := Launch(cfg, targets);
    o := Outcome(None, [], [], [], 0);
    var bestScore := 0.0;
    var stop := false;
    while o.steps < cfg.budget && !stop
      invariant Progress(cfg, targets, v, states, o, bestScore, stop)
      decreases cfg.budget - o.steps
    {
      states := StepAll(cfg, targets, states, o.steps);
      YieldedAt(cfg, targets, states, o.steps + 1);
      stop, o, bestScore := Record(cfg, targets, v, Coefs(states), Preds(states), o, bestScore);
    }
  }

  /** _fit_multi_with_validation. With no target it fails; with a zero
      period it fails at the first iteration, if there is one. Otherwise it
      runs until the budget is spent or the plateau rule fires, whichever
      comes first, and reports as `Reports` says. */
  method FitWithValidation(cfg: Config, targets: seq<Vector>, v: Validator) returns (r: Result<Outcome>)
    requires Fits(cfg, targets)
    ensures r.Fail? <==> |targets| == 0 || (v.period == 0 && cfg.budget > 0)
    ensures r.Fail? ==> (r.failure == EmptyTargets <==> |targets| == 0)
    ensures r.Ok? ==> Reports(cfg, targets, v, r.value)
  {
    if |targets| == 0 {
      return Fail(EmptyTargets);
    }
    if v.period == 0 && cfg.budget > 0 {
      return Fail(ZeroValidationPeriod);
    }
    var o := Drive(cfg, targets, v);
    return Ok(o);
  }
}
