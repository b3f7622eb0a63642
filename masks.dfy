/** Boolean masks over component indices and numpy's mask indexing:
    `K[:, mask]` gathers the masked columns in ascending order and
    `coef[mask] = v` scatters v into them. */
module Masks {

  /** np.sum(mask): how many entries are true. */
  function CountTrue(mask: seq<bool>): (c: nat)
    ensures c <= |mask|
  {
    if |mask| == 0 then 0
    else CountTrue(mask[..|mask| - 1]) + (if mask[|mask| - 1] then 1 else 0)
  }

  /** np.flatnonzero(mask): the true positions, in ascending order. */
  function TrueIndices(mask: seq<bool>): (idx: seq<nat>)
    ensures |idx| == CountTrue(mask)
    ensures forall k :: 0 <= k < |idx| ==> idx[k] < |mask| && mask[idx[k]]
  {
    if |mask| == 0 then []
    else
      var init := mask[..|mask| - 1];
      assert forall j :: 0 <= j < |init| ==> init[j] == mask[j];
      TrueIndices(init) + (if mask[|mask| - 1] then [|mask| - 1] else [])
  }

  /** The true positions are listed in strictly ascending order, and none
      is missing. */
  lemma {:induction false} TrueIndicesSpec(mask: seq<bool>)
    ensures var idx := TrueIndices(mask);
      && (forall k, l :: 0 <= k < l < |idx| ==> idx[k] < idx[l])
      && (forall j :: 0 <= j < |mask| && mask[j] ==> j in idx)
  {
    if |mask| > 0 {
      var init := mask[..|mask| - 1];
      TrueIndicesSpec(init);
      assert forall j :: 0 <= j < |init| ==> init[j] == mask[j];
    }
  }

  /** s[idx]: the entries of s at the given positions, in that order. */
  function Gather<T>(s: seq<T>, idx: seq<nat>): (g: seq<T>)
    requires forall k :: 0 <= k < |idx| ==> idx[k] < |s|
    ensures |g| == |idx|
  {
    seq(|idx|, k requires 0 <= k < |idx| => s[idx[k]])
  }

  /** The number of true entries strictly before position j. */
  lemma {:induction false} RankBelowCount(mask: seq<bool>, j: nat)
    requires j < |mask|
    ensures mask[j] ==> CountTrue(mask[..j]) < CountTrue(mask)
    ensures CountTrue(mask[..j + 1]) == CountTrue(mask[..j]) + (if mask[j] then 1 else 0)
  {
    assert mask[..j + 1][..j] == mask[..j];
    if j + 1 < |mask| {
      RankBelowCount(mask[..|mask| - 1], j);
      assert mask[..|mask| - 1][..j] == mask[..j];
      assert mask[..|mask| - 1][..j + 1] == mask[..j + 1];
    } else {
      assert mask[..j + 1] == mask;
    }
  }

  /** `base[mask] = v`: the k-th true position receives v[k]; every other
      position keeps its value. */
  function Scatter(base: seq<real>, mask: seq<bool>, v: seq<real>): (r: seq<real>)
    requires |mask| == |base| && |v| == CountTrue(mask)
    ensures |r| == |base|
    ensures forall j :: 0 <= j < |base| && !mask[j] ==> r[j] == base[j]
  {
    seq(|base|, j requires 0 <= j < |base| =>
      if mask[j] then RankBelowCount(mask, j); v[CountTrue(mask[..j])] else base[j])
  }

  /** The rank of the k-th true position is k. */
  lemma {:induction false} RankOfTrueIndex(mask: seq<bool>, k: nat)
    requires k < CountTrue(mask)
    ensures CountTrue(mask[..TrueIndices(mask)[k]]) == k
  {
    var init := mask[..|mask| - 1];
    var idx := TrueIndices(mask);
    assert TrueIndices(mask) == TrueIndices(init) + (if mask[|mask| - 1] then [|mask| - 1] else []);
    if k < CountTrue(init) {
      RankOfTrueIndex(init, k);
      assert idx[k] == TrueIndices(init)[k];
      assert mask[..idx[k]] == init[..idx[k]];
    } else {
      assert idx[k] == |mask| - 1;
      assert mask[..idx[k]] == init;
    }
  }

  /** Scatter puts v[k] at the k-th true position, as numpy does. */
  lemma ScatterAtTrueIndex(base: seq<real>, mask: seq<bool>, v: seq<real>, k: nat)
    requires |mask| == |base| && |v| == CountTrue(mask) && k < |v|
    ensures Scatter(base, mask, v)[TrueIndices(mask)[k]] == v[k]
  {
    RankOfTrueIndex(mask, k);
  }

  /** With every entry true, the true positions are 0, 1, ..., |mask| - 1. */
  lemma {:induction false} AllTrueIndices(mask: seq<bool>)
    requires forall j :: 0 <= j < |mask| ==> mask[j]
    ensures |TrueIndices(mask)| == |mask|
    ensures forall k :: 0 <= k < |mask| ==> TrueIndices(mask)[k] == k
  {
    if |mask| > 0 {
      AllTrueIndices(mask[..|mask| - 1]);
    }
  }

  /** Setting one false entry to true raises the count by one; setting a
      true entry changes nothing. */
  lemma {:induction false} CountTrueSet(mask: seq<bool>, j: nat)
    requires j < |mask|
    ensures CountTrue(mask[j := true]) == CountTrue(mask) + (if mask[j] then 0 else 1)
  {
    var m' := mask[j := true];
    var n := |mask|;
    if j == n - 1 {
      assert m'[..n - 1] == mask[..n - 1];
    } else {
      assert m'[..n - 1] == mask[..n - 1][j := true];
      CountTrueSet(mask[..n - 1], j);
    }
  }

  /** A mask with fewer true entries than positions has a false entry. */
  lemma {:induction false} SomeFalse(mask: seq<bool>)
    requires CountTrue(mask) < |mask|
    ensures exists j :: 0 <= j < |mask| && !mask[j]
  {
    var n := |mask|;
    if mask[n - 1] {
      SomeFalse(mask[..n - 1]);
      var j :| 0 <= j < n - 1 && !mask[..n - 1][j];
      assert !mask[j];
    } else {
      assert !mask[n - 1];
    }
  }

  /** A mask with no true entry counts zero. */
  lemma {:induction false} NoneTrue(mask: seq<bool>)
    requires forall j :: 0 <= j < |mask| ==> !mask[j]
    ensures CountTrue(mask) == 0
  {
    if |mask| > 0 {
      NoneTrue(mask[..|mask| - 1]);
    }
  }
}
