/** Dense vectors and matrices over exact reals, standing in for the float64
    numpy arrays of the pursuit. A matrix is a sequence of rows. */
module Vectors {

  type Vector = seq<real>
  type Matrix = seq<seq<real>>

  /** K has n rows, each of width m. */
  predicate IsMatrix(K: Matrix, n: nat, m: nat) {
    |K| == n && forall i :: 0 <= i < n ==> |K[i]| == m
  }

  function Zeros(n: nat): (z: Vector)
    ensures |z| == n
  {
    seq(n, _ => 0.0)
  }

  /** np.dot of two vectors of the same length, summed from the last entry
      back (the order does not matter over the reals). */
  function Dot(a: Vector, b: Vector): real
    requires |a| == |b|
  {
    if |a| == 0 then 0.0
    else Dot(a[..|a| - 1], b[..|b| - 1]) + a[|a| - 1] * b[|b| - 1]
  }

  /** np.sum(v ** 2). */
  function SumSq(v: Vector): real {
    Dot(v, v)
  }

  /** Element-wise a - b. */
  function Sub(a: Vector, b: Vector): (d: Vector)
    requires |a| == |b|
    ensures |d| == |a|
  {
    seq(|a|, i requires 0 <= i < |a| => a[i] - b[i])
  }

  /** a + alpha * v, the in-place update `a += alpha * v`. */
  function AddScaled(a: Vector, alpha: real, v: Vector): (r: Vector)
    requires |a| == |v|
    ensures |r| == |a|
  {
    seq(|a|, i requires 0 <= i < |a| => a[i] + alpha * v[i])
  }

  /** K[:, j]. */
  function Column(K: Matrix, j: nat): (c: Vector)
    requires forall i :: 0 <= i < |K| ==> j < |K[i]|
    ensures |c| == |K|
  {
    seq(|K|, i requires 0 <= i < |K| => K[i][j])
  }

  /** np.dot(K, x). */
  function MatVec(K: Matrix, x: Vector): (p: Vector)
    requires forall i :: 0 <= i < |K| ==> |K[i]| == |x|
    ensures |p| == |K|
  {
    seq(|K|, i requires 0 <= i < |K| => Dot(K[i], x))
  }

  /** A vector with a positive sum of squares is not empty. */
  lemma SumSqPositiveNonEmpty(v: Vector)
    requires SumSq(v) > 0.0
    ensures |v| > 0
  {
  }

  /** Adding alpha to one coefficient moves the dot product by alpha times
      the matching entry of the other vector. */
  lemma {:induction false} DotBump(row: Vector, x: Vector, b: nat, alpha: real)
    requires |row| == |x| && b < |x|
    ensures Dot(row, x[b := x[b] + alpha]) == Dot(row, x) + alpha * row[b]
  {
    var x' := x[b := x[b] + alpha];
    var n := |x|;
    if b == n - 1 {
      assert x'[..n - 1] == x[..n - 1];
      calc {
        Dot(row, x');
        Dot(row[..n - 1], x[..n - 1]) + row[b] * (x[b] + alpha);
        { assert row[b] * (x[b] + alpha) == row[b] * x[b] + alpha * row[b]; }
        Dot(row, x) + alpha * row[b];
      }
    } else {
      assert x'[..n - 1] == x[..n - 1][b := x[b] + alpha];
      DotBump(row[..n - 1], x[..n - 1], b, alpha);
    }
  }

  /** Moving r by -s along c changes its sum of squares by the quadratic
      -2 s (c . r) + s^2 |c|^2. */
  lemma {:induction false} SumSqAlongLine(r: Vector, c: Vector, s: real)
    requires |r| == |c|
    ensures SumSq(AddScaled(r, -s, c)) == SumSq(r) - 2.0 * s * Dot(c, r) + s * s * SumSq(c)
  {
    var n := |r|;
    if n > 0 {
      AddScaledInit(r, -s, c);
      SumSqAlongLine(r[..n - 1], c[..n - 1], s);
      ExpandLast(r[n - 1], c[n - 1], s, SumSq(r[..n - 1]), Dot(c[..n - 1], r[..n - 1]), SumSq(c[..n - 1]));
    }
  }

  /** All but the last entry of a + alpha v is the same update of all but
      the last entries of a and v. */
  lemma AddScaledInit(a: Vector, alpha: real, v: Vector)
    requires |a| == |v| > 0
    ensures var n := |a|;
      && AddScaled(a, alpha, v)[..n - 1] == AddScaled(a[..n - 1], alpha, v[..n - 1])
      && AddScaled(a, alpha, v)[n - 1] == a[n - 1] + alpha * v[n - 1]
  {
    var n := |a|;
    var d, init := AddScaled(a, alpha, v), AddScaled(a[..n - 1], alpha, v[..n - 1]);
    assert |d[..n - 1]| == |init|;
    forall i | 0 <= i < |init| ensures d[..n - 1][i] == init[i] {
      assert d[i] == a[i] + alpha * v[i];
    }
  }

  /** The scalar algebra of one induction step of SumSqAlongLine. */
  lemma ExpandLast(r0: real, c0: real, s: real, a: real, b: real, q: real)
    ensures (a - 2.0 * s * b + s * s * q) + (r0 + (-s) * c0) * (r0 + (-s) * c0)
         == (a + r0 * r0) - 2.0 * s * (b + c0 * r0) + s * s * (q + c0 * c0)
  {
    assert (r0 + (-s) * c0) * (r0 + (-s) * c0) == r0 * r0 - 2.0 * s * (c0 * r0) + s * s * (c0 * c0);
    assert 2.0 * s * (b + c0 * r0) == 2.0 * s * (c0 * r0) + 2.0 * s * b;
    assert s * s * (q + c0 * c0) == s * s * (c0 * c0) + s * s * q;
  }

  /** The error vector after the step: y - (p + s c) == (y - p) - s c. */
  lemma ResidualAfterStep(y: Vector, p: Vector, s: real, c: Vector)
    requires |y| == |p| == |c|
    ensures Sub(y, AddScaled(p, s, c)) == AddScaled(Sub(y, p), -s, c)
  {
    var lhs, rhs := Sub(y, AddScaled(p, s, c)), AddScaled(Sub(y, p), -s, c);
    assert |lhs| == |rhs|;
    forall i | 0 <= i < |lhs| ensures lhs[i] == rhs[i] {
      assert lhs[i] == y[i] - (p[i] + s * c[i]);
    }
  }

  // Scalar facts the proofs above and in the pursuit rely on.

  lemma DivMul(p: real, n: real)
    requires n != 0.0
    ensures (p / n) * n == p
  {
  }

  lemma MulDiv(a: real, c: real)
    requires c != 0.0
    ensures (a * c) / c == a
  {
  }

  /** Dividing twice by n is dividing once by s = n * n. */
  lemma DivideTwice(d: real, n: real, s: real)
    requires n != 0.0 && s == n * n && s != 0.0
    ensures (d / n) / n == d / s
  {
    var p := (d / n) / n;
    DivMul(d / n, n);
    DivMul(d, n);
    assert p * s == d;
    MulDiv(p, s);
  }
}
