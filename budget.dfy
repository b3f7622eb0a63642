/** The iteration budget n_nonzero_coefs: rejected when negative (the
    estimator's constructor), read as a fraction of the components when in
    (0, 1], and rejected when it exceeds the number of components
    (_pre_fit). A float budget that is not a fraction reaches the
    generator's `range` unconverted, which refuses it. */
module Budget {
  import opened Arguments

  datatype BudgetError = NegativeBudget | ExceedsComponents | NotAnInteger

  datatype Resolution = Resolved(budget: nat) | Rejected(error: BudgetError)

  /** The budget the generators run with when there are m components. */
  function ResolveBudget(b: Number, m: nat): (r: Resolution)
    ensures r.Resolved? ==> r.budget <= m
  {
    if Value(b) < 0.0 then Rejected(NegativeBudget)
    else if IsFraction(b) then Resolved(FractionOf(b, m))
    else if Value(b) > m as real then Rejected(ExceedsComponents)
    else
      match b
      case Int(n) => Resolved(n)
      case Float(_) => Rejected(NotAnInteger)
  }

  /** The cases of the resolution: a negative budget is rejected first; a
      fraction f becomes int(f * m); a whole budget above m is rejected and
      any other whole budget is kept; a float that is neither a fraction
      nor too large is refused. */
  lemma ResolveBudgetCases(b: Number, m: nat)
    ensures Value(b) < 0.0 ==> ResolveBudget(b, m) == Rejected(NegativeBudget)
    ensures IsFraction(b) ==> ResolveBudget(b, m) == Resolved(FractionOf(b, m))
    ensures b.Int? && (b.n == 0 || 1 < b.n <= m) ==> ResolveBudget(b, m) == Resolved(b.n)
    ensures b.Int? && b.n > m && b.n > 1 ==> ResolveBudget(b, m) == Rejected(ExceedsComponents)
    ensures b.Float? && b.x > 1.0 && b.x > m as real ==> ResolveBudget(b, m) == Rejected(ExceedsComponents)
    ensures b.Float? && (b.x == 0.0 || 1.0 < b.x <= m as real) ==> ResolveBudget(b, m) == Rejected(NotAnInteger)
  {
  }

  /** The int 1 is the fraction 1: every component is used. */
  lemma OneMeansAll(m: nat)
    ensures ResolveBudget(Int(1), m) == Resolved(m)
  {
    assert (1.0 * m as real).Floor == m;
  }

  /** A fraction f of m components gives between f * m - 1 and f * m
      iterations. */
  lemma FractionBudget(f: real, m: nat)
    requires 0.0 < f <= 1.0
    ensures var r := ResolveBudget(Float(f), m);
      r.Resolved? && r.budget as real <= f * m as real < r.budget as real + 1.0
  {
  }
}
