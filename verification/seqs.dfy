/** Sequence helpers shared by every detector: first-match search (the
    `for … if …: break` pattern and top-down band evaluation), sums, means,
    population variance and first-occurrence argmax. */
module Seqs {
  import opened Wrappers

  /** Index of the first element satisfying `p`; `None` when there is none. */
  function FirstWhere<T>(xs: seq<T>, p: T -> bool): (r: Option<nat>)
    ensures r.Some? ==> r.value < |xs| && p(xs[r.value])
    ensures r.Some? ==> forall j :: 0 <= j < r.value ==> !p(xs[j])
    ensures r.None? <==> forall j :: 0 <= j < |xs| ==> !p(xs[j])
  {
    if |xs| == 0 then None
    else if p(xs[0]) then Some(0)
    else
      match FirstWhere(xs[1..], p)
      case None => None
      case Some(i) => Some(i + 1)
  }

  function Sum(xs: seq<real>): real
  {
    if |xs| == 0 then 0.0 else Sum(xs[..|xs| - 1]) + xs[|xs| - 1]
  }

  /** Arithmetic mean, as `np.mean` of a non-empty list. */
  function Mean(xs: seq<real>): real
    requires |xs| > 0
  {
    Sum(xs) / (|xs| as real)
  }

  /** The `np.mean(xs) if xs else 0` idiom of the detectors. */
  function MeanOrZero(xs: seq<real>): real
  {
    if |xs| == 0 then 0.0 else Mean(xs)
  }

  function SquaredDeviations(xs: seq<real>, m: real): (r: seq<real>)
    ensures |r| == |xs|
    ensures forall i :: 0 <= i < |xs| ==> r[i] == (xs[i] - m) * (xs[i] - m)
  {
    seq(|xs|, i requires 0 <= i < |xs| => (xs[i] - m) * (xs[i] - m))
  }

  /** Population variance, as `np.var` of a non-empty list. */
  function Variance(xs: seq<real>): (v: real)
    requires |xs| > 0
    ensures v >= 0.0
  {
    var m := Mean(xs);
    var d := SquaredDeviations(xs, m);
    forall i | 0 <= i < |d|
      ensures d[i] >= 0.0
    {
      SquareNonNegative(xs[i] - m);
    }
    SumNonNegative(d);
    Sum(d) / (|xs| as real)
  }

  lemma SquareNonNegative(y: real)
    ensures y * y >= 0.0
  {
    if y < 0.0 {
      assert y * y == (-y) * (-y);
    }
  }

  lemma {:induction false} SumNonNegative(xs: seq<real>)
    requires forall i :: 0 <= i < |xs| ==> xs[i] >= 0.0
    ensures Sum(xs) >= 0.0
  {
    if |xs| > 0 {
      SumNonNegative(xs[..|xs| - 1]);
    }
  }

  lemma {:induction false} SumOfConstant(xs: seq<real>, c: real)
    requires forall i :: 0 <= i < |xs| ==> xs[i] == c
    ensures Sum(xs) == (|xs| as real) * c
  {
    if |xs| > 0 {
      SumOfConstant(xs[..|xs| - 1], c);
    }
  }

  /** A list of identical values has zero variance: the flat-prosody case. */
  lemma VarianceOfConstant(xs: seq<real>, c: real)
    requires |xs| > 0
    requires forall i :: 0 <= i < |xs| ==> xs[i] == c
    ensures Variance(xs) == 0.0
  {
    SumOfConstant(xs, c);
    assert Mean(xs) == c;
    var d := SquaredDeviations(xs, c);
    SumOfConstant(d, 0.0);
  }

  /** Index of the first maximum, as numpy's `argmax`. */
  function ArgMax(xs: seq<real>): (r: nat)
    requires |xs| > 0
    ensures r < |xs|
    ensures forall j :: 0 <= j < |xs| ==> xs[j] <= xs[r]
    ensures forall j :: 0 <= j < r ==> xs[j] < xs[r]
  {
    if |xs| == 1 then 0
    else
      var i := ArgMax(xs[..|xs| - 1]);
      if xs[|xs| - 1] > xs[i] then |xs| - 1 else i
  }

  /** The strictly positive elements, in order. */
  function Positives(xs: seq<real>): (r: seq<real>)
    ensures |r| <= |xs|
    ensures forall i :: 0 <= i < |r| ==> r[i] > 0.0
  {
    if |xs| == 0 then []
    else
      var last := xs[|xs| - 1];
      assert xs == xs[..|xs| - 1] + [last];
      Positives(xs[..|xs| - 1]) + (if last > 0.0 then [last] else [])
  }

  /** `Positives` keeps every positive element and nothing else. */
  lemma {:induction false} PositivesMembers(xs: seq<real>, v: real)
    ensures v in Positives(xs) <==> v in xs && v > 0.0
  {
    if |xs| > 0 {
      var init := xs[..|xs| - 1];
      PositivesMembers(init, v);
      assert xs == init + [xs[|xs| - 1]];
    }
  }
}
