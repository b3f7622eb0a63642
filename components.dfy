/** create_components with the "random" class distribution: how many rows
    of X become components, and which ones. The shuffle is an input: a
    permutation of the row indices, as the random state would produce it. */
module Components {
  import opened Vectors
  import opened Arguments
  import opened Masks

  /** n_components: unset (None) or a number. */
  datatype Count = Unset | Given(v: Number)

  /** What the count asks for: every row of X unchanged, a ValueError, or
      the first `count` shuffled indices. */
  datatype Decision = Everything | Invalid | Take(count: nat)

  datatype Built = Built(components: Matrix) | NegativeCount

  /** The count logic of create_components for n samples. */
  function Decide(nc: Count, n: nat): Decision {
    match nc
    case Unset => Everything
    case Given(v) =>
      if Falsy(v) then Everything
      else if Value(v) < 0.0 then Invalid
      else
        var c := if IsFraction(v) then FractionOf(v, n) as real else Value(v);
        if c == n as real then Everything
        else Take(Truncate(c))
  }

  /** perm lists 0, ..., n - 1, each once. */
  predicate IsPermutation(perm: seq<nat>, n: nat) {
    && |perm| == n
    && (forall i :: 0 <= i < n ==> perm[i] < n)
    && (forall i, j :: 0 <= i < j < n ==> perm[i] != perm[j])
  }

  function Min(a: nat, b: nat): nat {
    if a <= b then a else b
  }

  /** The components: X itself, or the rows at the first `count` shuffled
      indices (all of them, reordered, when count exceeds n). */
  function CreateComponents(X: Matrix, nc: Count, perm: seq<nat>): (r: Built)
    requires IsPermutation(perm, |X|)
    ensures r.Built? ==> |r.components| <= |X|
    ensures r.Built? ==> forall i :: 0 <= i < |r.components| ==> r.components[i] in X
  {
    match Decide(nc, |X|)
    case Everything => Built(X)
    case Invalid => NegativeCount
    case Take(k) => Built(Gather(X, perm[..Min(k, |X|)]))
  }

  /** Unset or zero keeps every row; a negative count is refused; a count
      equal to the number of rows keeps every row in its order. */
  lemma CreateComponentsCases(X: Matrix, nc: Count, perm: seq<nat>)
    requires IsPermutation(perm, |X|)
    ensures nc.Unset? || Falsy(nc.v) ==> CreateComponents(X, nc, perm) == Built(X)
    ensures nc.Given? && Value(nc.v) < 0.0 ==> CreateComponents(X, nc, perm) == NegativeCount
    ensures nc.Given? && Value(nc.v) == |X| as real ==> CreateComponents(X, nc, perm) == Built(X)
  {
  }

  /** Otherwise the k-th component is the row at the k-th shuffled index:
      min(count, n) rows, drawn from pairwise distinct positions. */
  lemma DrawnRows(X: Matrix, nc: Count, perm: seq<nat>)
    requires IsPermutation(perm, |X|) && Decide(nc, |X|).Take?
    ensures var k := Min(Decide(nc, |X|).count, |X|);
      var C := CreateComponents(X, nc, perm).components;
      && |C| == k
      && (forall i :: 0 <= i < k ==> C[i] == X[perm[i]])
      && (forall i, j :: 0 <= i < j < k ==> perm[i] != perm[j])
  {
  }

  /** A fraction f of n samples draws int(f * n) rows (or keeps X when that
      is n). */
  lemma FractionDraw(X: Matrix, f: real, perm: seq<nat>)
    requires IsPermutation(perm, |X|) && 0.0 < f <= 1.0
    ensures var k := FractionOf(Float(f), |X|);
      CreateComponents(X, Given(Float(f)), perm) ==
        if k == |X| then Built(X) else Built(Gather(X, perm[..k]))
  {
  }
}
