/** Choosing the next basis: np.argmax over the absolute correlation scores,
    where a column excluded by the duplicate check scores -inf. Here the
    exclusion is an eligibility mask: an eligible score is never negative,
    so -inf loses to every eligible column, and when every column is
    excluded all scores tie at -inf and np.argmax answers 0. */
module Selection {

  /** Python's abs() of one score. */
  function Abs(x: real): real {
    if x < 0.0 then -x else x
  }

  /** np.abs, entry by entry. */
  function Magnitudes(v: seq<real>): (a: seq<real>)
    ensures |a| == |v|
  {
    seq(|v|, j requires 0 <= j < |v| => Abs(v[j]))
  }

  /** A column may be chosen unless duplicates are checked and it is taken. */
  function Eligibility(checkDuplicates: bool, selected: seq<bool>): (e: seq<bool>)
    ensures |e| == |selected|
  {
    seq(|selected|, j requires 0 <= j < |selected| => !(checkDuplicates && selected[j]))
  }

  /** The running candidate of the argmax scan: none yet, or an index. */
  datatype Pick = NoPick | Pick(index: nat)

  /** The first eligible position of a maximal eligible score among the
      first k positions, if any position below k is eligible. */
  function ArgMaxPrefix(a: seq<real>, eligible: seq<bool>, k: nat): (r: Pick)
    requires |a| == |eligible| && k <= |a|
    ensures r.Pick? ==> r.index < k
  {
    if k == 0 then NoPick
    else
      var prev := ArgMaxPrefix(a, eligible, k - 1);
      if eligible[k - 1] && (prev.NoPick? || a[k - 1] > a[prev.index]) then Pick(k - 1)
      else prev
  }

  /** The scan picks something exactly when an eligible position was seen,
      and then an eligible position whose score no eligible one exceeds and
      every earlier eligible one falls short of. */
  lemma {:induction false} ArgMaxPrefixSpec(a: seq<real>, eligible: seq<bool>, k: nat)
    requires |a| == |eligible| && k <= |a|
    ensures var r := ArgMaxPrefix(a, eligible, k);
      && (r.Pick? <==> exists j :: 0 <= j < k && eligible[j])
      && (r.Pick? ==> eligible[r.index])
      && (r.Pick? ==> forall j :: 0 <= j < k && eligible[j] ==> a[j] <= a[r.index])
      && (r.Pick? ==> forall j :: 0 <= j < r.index && eligible[j] ==> a[j] < a[r.index])
  {
    if k > 0 {
      ArgMaxPrefixSpec(a, eligible, k - 1);
    }
  }

  /** np.argmax(abs_dots): the lowest index among the eligible ones whose
      score is maximal, or 0 when nothing is eligible. */
  function FirstArgMax(a: seq<real>, eligible: seq<bool>): (best: nat)
    requires |a| == |eligible| > 0
    ensures best < |a|
  {
    match ArgMaxPrefix(a, eligible, |a|)
    case NoPick => 0
    case Pick(b) => b
  }

  /** np.argmax's answer is eligible whenever anything is, no eligible
      score exceeds it, every eligible score before it is smaller; with
      nothing eligible it is 0. */
  lemma FirstArgMaxSpec(a: seq<real>, eligible: seq<bool>)
    requires |a| == |eligible| > 0
    ensures var best := FirstArgMax(a, eligible);
      && ((exists j :: 0 <= j < |a| && eligible[j]) ==>
            && eligible[best]
            && (forall j :: 0 <= j < |a| && eligible[j] ==> a[j] <= a[best])
            && (forall j :: 0 <= j < best && eligible[j] ==> a[j] < a[best]))
      && ((forall j :: 0 <= j < |a| ==> !eligible[j]) ==> best == 0)
  {
    ArgMaxPrefixSpec(a, eligible, |a|);
  }

  /** The scan np.argmax performs: keep the first strictly larger score. */
  method ArgMax(a: seq<real>, eligible: seq<bool>) returns (best: nat)
    requires |a| == |eligible| > 0
    ensures best == FirstArgMax(a, eligible)
    ensures (exists j :: 0 <= j < |a| && eligible[j]) ==>
      eligible[best] && forall j :: 0 <= j < |a| && eligible[j] ==> a[j] <= a[best]
  {
    FirstArgMaxSpec(a, eligible);
    var found := false;
    best := 0;
    var j := 0;
    while j < |a|
      invariant 0 <= j <= |a|
      invariant found <==> ArgMaxPrefix(a, eligible, j).Pick?
      invariant found ==> best == ArgMaxPrefix(a, eligible, j).index
      invariant !found ==> best == 0
    {
      if eligible[j] && (!found || a[j] > a[best]) {
        best := j;
        found := true;
      }
      j := j + 1;
    }
  }
}
