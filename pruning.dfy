/** _post_fit: drop every component whose coefficient is zero for every
    target. coef_ has one row per target and one column per component. */
module Pruning {
  import opened Vectors
  import opened Masks

  /** np.sum(coef_ != 0, axis=0, dtype=bool)[j] over the first k rows: an OR
      down column j. */
  function ColumnUsed(coef: Matrix, j: nat, k: nat): bool
    requires k <= |coef| && forall i :: 0 <= i < |coef| ==> j < |coef[i]|
  {
    if k == 0 then false else ColumnUsed(coef, j, k - 1) || coef[k - 1][j] != 0.0
  }

  /** The OR is true exactly when some row has a nonzero entry in column j. */
  lemma {:induction false} ColumnUsedSpec(coef: Matrix, j: nat, k: nat)
    requires k <= |coef| && forall i :: 0 <= i < |coef| ==> j < |coef[i]|
    ensures ColumnUsed(coef, j, k) <==> exists i :: 0 <= i < k && coef[i][j] != 0.0
  {
    if k > 0 {
      ColumnUsedSpec(coef, j, k - 1);
    }
  }

  /** Some target gives component j a nonzero coefficient. */
  ghost predicate Used(coef: Matrix, j: nat)
    requires forall i :: 0 <= i < |coef| ==> j < |coef[i]|
  {
    exists i :: 0 <= i < |coef| && coef[i][j] != 0.0
  }

  /** used_basis for a c x m coefficient matrix. */
  function UsedBasis(coef: Matrix, m: nat): (used: seq<bool>)
    requires IsMatrix(coef, |coef|, m)
    ensures |used| == m
  {
    seq(m, j requires 0 <= j < m => ColumnUsed(coef, j, |coef|))
  }

  /** The fitted model: coef_ (c x m) and components_ (m rows). */
  datatype Fitted = Fitted(coef: Matrix, components: Matrix)

  /** Every row of coef_ has one entry per component. */
  predicate Aligned(f: Fitted) {
    IsMatrix(f.coef, |f.coef|, |f.components|)
  }

  /** coef_[:, used_basis] and components_[used_basis]. */
  function Prune(f: Fitted): (g: Fitted)
    requires Aligned(f)
    ensures Aligned(g) && |g.coef| == |f.coef| && |g.components| <= |f.components|
  {
    var idx := TrueIndices(UsedBasis(f.coef, |f.components|));
    Fitted(seq(|f.coef|, k requires 0 <= k < |f.coef| => Gather(f.coef[k], idx)),
           Gather(f.components, idx))
  }

  /** Pruning keeps exactly the components some target uses, in their
      original order: the kept positions ascend, and a position is kept iff
      its column of coef_ has a nonzero entry. */
  lemma PruneKeepsUsed(f: Fitted)
    requires Aligned(f)
    ensures var idx := TrueIndices(UsedBasis(f.coef, |f.components|));
      && Prune(f).components == Gather(f.components, idx)
      && (forall k, l :: 0 <= k < l < |idx| ==> idx[k] < idx[l])
      && (forall j :: 0 <= j < |f.components| ==> (j in idx <==> Used(f.coef, j)))
  {
    var used := UsedBasis(f.coef, |f.components|);
    var idx := TrueIndices(used);
    TrueIndicesSpec(used);
    forall j | 0 <= j < |f.components|
      ensures j in idx <==> Used(f.coef, j)
    {
      ColumnUsedSpec(f.coef, j, |f.coef|);
      assert used[j] == ColumnUsed(f.coef, j, |f.coef|);
      if j in idx {
        var k :| 0 <= k < |idx| && idx[k] == j;
        assert used[j];
      }
    }
  }

  /** After pruning every component is used, and the coefficients line up
      with the components: each row of coef_ is as wide as there are
      components. */
  lemma PrunedAllUsed(f: Fitted)
    requires Aligned(f)
    ensures forall j :: 0 <= j < |Prune(f).components| ==> Used(Prune(f).coef, j)
  {
    var g := Prune(f);
    var used := UsedBasis(f.coef, |f.components|);
    var idx := TrueIndices(used);
    forall j | 0 <= j < |g.components|
      ensures Used(g.coef, j)
    {
      assert idx[j] < |used| && used[idx[j]];
      assert used[idx[j]] == ColumnUsed(f.coef, idx[j], |f.coef|);
      ColumnUsedSpec(f.coef, idx[j], |f.coef|);
      var i :| 0 <= i < |f.coef| && f.coef[i][idx[j]] != 0.0;
      assert g.coef[i][j] == f.coef[i][idx[j]];
    }
  }

  /** Pruning a pruned model changes nothing. */
  lemma PruneIdempotent(f: Fitted)
    requires Aligned(f)
    ensures Prune(Prune(f)) == Prune(f)
  {
    var g := Prune(f);
    PrunedAllUsed(f);
    var used := UsedBasis(g.coef, |g.components|);
    forall j | 0 <= j < |g.components| ensures used[j] {
      assert Used(g.coef, j);
      ColumnUsedSpec(g.coef, j, |g.coef|);
      assert used[j] == ColumnUsed(g.coef, j, |g.coef|);
    }
    AllTrueIndices(used);
    var idx := TrueIndices(used);
    var h := Prune(g);
    assert Gather(g.components, idx) == g.components;
    forall k | 0 <= k < |g.coef| ensures h.coef[k] == g.coef[k] {
      assert Gather(g.coef[k], idx) == g.coef[k];
    }
  }

  /** The entries of s at the true positions of mask, built from the back.
      This is `Gather(s, TrueIndices(mask))` (KeptIsGather), written so that
      the dot-product proofs below can peel off the last entry by
      induction. */
  function Kept(s: Vector, mask: seq<bool>): (k: Vector)
    requires |s| == |mask|
    ensures |k| == CountTrue(mask)
  {
    if |s| == 0 then []
    else Kept(s[..|s| - 1], mask[..|mask| - 1]) + (if mask[|mask| - 1] then [s[|s| - 1]] else [])
  }

  /** Kept is numpy's s[mask]. */
  lemma {:induction false} KeptIsGather(s: Vector, mask: seq<bool>)
    requires |s| == |mask|
    ensures Kept(s, mask) == Gather(s, TrueIndices(mask))
  {
    if |s| > 0 {
      KeptIsGather(s[..|s| - 1], mask[..|mask| - 1]);
    }
  }

  /** One unfolding of the dot product: the last term split off. */
  lemma {:induction false} DotLast(a: Vector, b: Vector)
    requires |a| == |b| > 0
    ensures Dot(a, b) == Dot(a[..|a| - 1], b[..|b| - 1]) + a[|a| - 1] * b[|b| - 1]
  {
  }

  /** Dropping positions where w is zero leaves the dot product x . w
      unchanged. */
  lemma DotOnSupport(x: Vector, w: Vector, mask: seq<bool>)
    requires |x| == |w| == |mask|
    requires forall j :: 0 <= j < |w| && !mask[j] ==> w[j] == 0.0
    ensures Dot(Gather(x, TrueIndices(mask)), Gather(w, TrueIndices(mask))) == Dot(x, w)
  {
    KeptIsGather(x, mask);
    KeptIsGather(w, mask);
    DotOnKept(x, w, mask);
  }

  lemma {:induction false} DotOnKept(x: Vector, w: Vector, mask: seq<bool>)
    requires |x| == |w| == |mask|
    requires forall j :: 0 <= j < |w| && !mask[j] ==> w[j] == 0.0
    ensures Dot(Kept(x, mask), Kept(w, mask)) == Dot(x, w)
  {
    var n := |mask|;
    if n > 0 {
      var x', w', m' := x[..n - 1], w[..n - 1], mask[..n - 1];
      DotOnKept(x', w', m');
      DotLast(x, w);
      if mask[n - 1] {
        KeptLastKept(x, w, mask);
      } else {
        KeptLastDropped(x, w, mask);
        assert x[n - 1] * w[n - 1] == 0.0;
      }
    }
  }

  /** A true last entry adds its product to the dot product of the kept
      entries. */
  lemma {:induction false} KeptLastKept(x: Vector, w: Vector, mask: seq<bool>)
    requires |x| == |w| == |mask| > 0 && mask[|mask| - 1]
    ensures var n := |mask|;
      Dot(Kept(x, mask), Kept(w, mask))
        == Dot(Kept(x[..n - 1], mask[..n - 1]), Kept(w[..n - 1], mask[..n - 1])) + x[n - 1] * w[n - 1]
  {
    var n := |mask|;
    var kx, kw := Kept(x, mask), Kept(w, mask);
    DotLast(kx, kw);
    assert kx[..|kx| - 1] == Kept(x[..n - 1], mask[..n - 1]) && kx[|kx| - 1] == x[n - 1];
    assert kw[..|kw| - 1] == Kept(w[..n - 1], mask[..n - 1]) && kw[|kw| - 1] == w[n - 1];
  }

  /** A false last entry adds nothing to the kept entries. */
  lemma {:induction false} KeptLastDropped(x: Vector, w: Vector, mask: seq<bool>)
    requires |x| == |w| == |mask| > 0 && !mask[|mask| - 1]
    ensures var n := |mask|;
      Dot(Kept(x, mask), Kept(w, mask))
        == Dot(Kept(x[..n - 1], mask[..n - 1]), Kept(w[..n - 1], mask[..n - 1]))
  {
    var n := |mask|;
    assert Kept(x, mask) == Kept(x[..n - 1], mask[..n - 1]);
    assert Kept(w, mask) == Kept(w[..n - 1], mask[..n - 1]);
  }

  /** The decision function does not change: for every kernel row x over
      the original components and every target k, the pruned row of x
      (the kernel over the kept components) against the pruned coef_ gives
      the same value as before. */
  lemma PruneKeepsDecision(f: Fitted, x: Vector, k: nat)
    requires Aligned(f) && |x| == |f.components| && k < |f.coef|
    ensures var idx := TrueIndices(UsedBasis(f.coef, |f.components|));
      Dot(Gather(x, idx), Prune(f).coef[k]) == Dot(x, f.coef[k])
  {
    var used := UsedBasis(f.coef, |f.components|);
    forall j | 0 <= j < |f.components| && !used[j] ensures f.coef[k][j] == 0.0 {
      ColumnUsedSpec(f.coef, j, |f.coef|);
    }
    DotOnSupport(x, f.coef[k], used);
  }
}
