/** Periodic events: refitting every n_refit-th iteration and validating
    every n_validate-th one. The source tests `n % p == 0`; the model says
    "n is a multiple of p" by repeated subtraction, which the solver can
    unfold one period at a time, and proves the two agree. */
module Periods {

  /** n is a multiple of p. */
  predicate Divides(p: nat, n: nat)
    requires p > 0
    decreases n
  {
    if n < p then n == 0 else Divides(p, n - p)
  }

  /** Repeated subtraction agrees with the remainder: n is a multiple of p
      exactly when `n % p == 0`. */
  lemma {:induction false} DividesMod(p: nat, n: nat)
    requires p > 0
    ensures Divides(p, n) <==> n % p == 0
    decreases n
  {
    if n >= p {
      DividesMod(p, n - p);
      ModUnique(n - p, p, n / p - 1, n % p);
    } else {
      ModUnique(n, p, 0, n);
    }
  }

  /** The remainder is the r of any n == q * p + r with 0 <= r < p. */
  lemma {:induction false} ModUnique(n: int, p: int, q: int, r: int)
    requires p > 0 && 0 <= r < p && n == q * p + r
    ensures n % p == r
  {
    var d := q - n / p;
    assert d * p == n % p - r;
    assert (d >= 1 ==> d * p >= p) && (d <= -1 ==> d * p <= -p);
  }
}
