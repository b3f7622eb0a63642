/** The numeric arguments n_nonzero_coefs and n_components may be given as
    a whole number of components or as a fraction of them, so the model
    keeps apart what Python keeps apart: an int and a float. */
module Arguments {

  datatype Number = Int(n: int) | Float(x: real)

  /** The value, compared as Python compares an int with a float. */
  function Value(v: Number): real {
    match v
    case Int(n) => n as real
    case Float(x) => x
  }

  /** `not v`: zero is false, whether int or float. */
  predicate Falsy(v: Number) {
    Value(v) == 0.0
  }

  /** `0 < v <= 1`: the argument is read as a fraction of the available
      count. */
  predicate IsFraction(v: Number) {
    0.0 < Value(v) <= 1.0
  }

  /** Python's int() of a non-negative real: truncation, which for such
      values is the floor. */
  function Truncate(x: real): (k: nat)
    requires x >= 0.0
    ensures k as real <= x < k as real + 1.0
  {
    x.Floor
  }

  /** int(v * m) for a fraction v: never more than m. */
  function FractionOf(v: Number, m: nat): (k: nat)
    requires IsFraction(v)
    ensures k <= m
    ensures k as real <= Value(v) * m as real < k as real + 1.0
  {
    FractionAtMost(Value(v), m);
    TruncateAtMost(Value(v) * m as real, m)
  }

  /** int(x) for 0 <= x <= m is at most m. */
  function TruncateAtMost(x: real, m: nat): (k: nat)
    requires 0.0 <= x <= m as real
    ensures k <= m && k as real <= x < k as real + 1.0
  {
    var k := Truncate(x);
    OrderOfReals(k, m);
    k
  }

  /** The embedding of the integers into the reals keeps their order. */
  lemma OrderOfReals(k: int, m: int)
    requires k as real <= m as real
    ensures k <= m
  {
  }

  /** A fraction of m is at most m. */
  lemma FractionAtMost(f: real, m: nat)
    requires 0.0 < f <= 1.0
    ensures 0.0 <= f * m as real <= m as real
  {
    assert f * m as real <= 1.0 * m as real;
  }
}
