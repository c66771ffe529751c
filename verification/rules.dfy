/** Threshold-banded rule tables and the aggregation every detector shares.

    A table is an ordered list of bands; a feature value selects the first
    band whose guard holds (an `if/elif/else` chain read top-down, with the
    source's strict comparisons). Selected bands contribute a score delta, a
    confidence weight (an integer percentage) and a rationale tag. */
module Rules {
  import opened Wrappers
  import Seqs

  type Percent = x: int | 0 <= x <= 100

  /** The measured quantity a table judges. */
  datatype Feature =
    | ElaAverage | FrequencyVariance                          // image
    | Sharpness | FaceSpectrum | Motion | FaceTracking        // video
    | VoiceVariance | Bandwidth | PitchVariation | ZcrVariation // audio

  /** The tag a rationale opens with; `Plain` rationales carry none. */
  datatype Level = Critical | VeryHigh | High | Moderate | Minor | Baseline | Plain

  /** `x > bound`, `x < bound`, or the trailing `else`. */
  datatype Guard = Above(bound: real) | Below(bound: real) | Otherwise

  predicate Holds(g: Guard, x: real)
  {
    match g
    case Above(b) => x > b
    case Below(b) => x < b
    case Otherwise => true
  }

  datatype Band = Band(guard: Guard, delta: nat, weight: Percent, level: Level)

  datatype Table = Table(feature: Feature, bands: seq<Band>)

  /** A table ending in an `else` band: some band fires for every value. */
  predicate Total(t: Table)
  {
    |t.bands| > 0 && t.bands[|t.bands| - 1].guard.Otherwise?
  }

  /** Band `i` is the first whose guard holds for `x`. */
  predicate FirstHolding(t: Table, x: real, i: int)
  {
    && 0 <= i < |t.bands|
    && Holds(t.bands[i].guard, x)
    && forall j :: 0 <= j < i ==> !Holds(t.bands[j].guard, x)
  }

  /** The band that fires for `x`: first match wins. */
  function Select(t: Table, x: real): (r: Option<Band>)
    ensures r.Some? <==> exists i :: 0 <= i < |t.bands| && Holds(t.bands[i].guard, x)
    ensures r.Some? ==> exists i :: FirstHolding(t, x, i) && t.bands[i] == r.value
    ensures Total(t) ==> r.Some?
  {
    match Seqs.FirstWhere(t.bands, (b: Band) => Holds(b.guard, x))
    case None => None
    case Some(i) =>
      assert FirstHolding(t, x, i);
      Some(t.bands[i])
  }

  /** At most one band is the first to hold. */
  lemma FirstHoldingUnique(t: Table, x: real, i: int, k: int)
    requires FirstHolding(t, x, i) && FirstHolding(t, x, k)
    ensures i == k
  {
    assert Holds(t.bands[i].guard, x) && Holds(t.bands[k].guard, x);
  }

  /** The first holding band is the one selected. */
  lemma SelectAt(t: Table, x: real, k: int)
    requires FirstHolding(t, x, k)
    ensures Select(t, x) == Some(t.bands[k])
  {
    assert Holds(t.bands[k].guard, x);
    var i :| FirstHolding(t, x, i) && t.bands[i] == Select(t, x).value;
    FirstHoldingUnique(t, x, i, k);
  }

  /** The band a table ending in `else` fires for `x`. */
  function Judge(t: Table, x: real): (b: Band)
    requires Total(t)
    ensures Select(t, x) == Some(b)
  {
    Select(t, x).value
  }

  /** One feature value to be judged by one table. */
  datatype Check = Check(table: Table, value: real)

  /** A band that fired, remembered with the feature it judged. */
  datatype Fired = Fired(feature: Feature, band: Band)

  predicate AllTotal(checks: seq<Check>)
  {
    forall i :: 0 <= i < |checks| ==> Total(checks[i].table)
  }

  /** Evaluates every check in order; a check whose table has no matching
      band contributes nothing. */
  function Fire(checks: seq<Check>): (r: seq<Fired>)
    ensures |r| <= |checks|
    ensures AllTotal(checks) ==> |r| == |checks|
    ensures AllTotal(checks) ==> forall i :: 0 <= i < |checks| ==>
      && r[i].feature == checks[i].table.feature
      && Select(checks[i].table, checks[i].value) == Some(r[i].band)
  {
    if |checks| == 0 then []
    else
      var c := checks[0];
      var head := match Select(c.table, c.value)
        case None => []
        case Some(b) => [Fired(c.table.feature, b)];
      assert AllTotal(checks) ==> AllTotal(checks[1..]) by {
        if AllTotal(checks) {
          forall i | 0 <= i < |checks[1..]|
            ensures Total(checks[1..][i].table)
          {
            assert checks[1..][i] == checks[i + 1];
          }
        }
      }
      head + Fire(checks[1..])
  }

  function SumDeltas(fs: seq<Fired>): nat
  {
    if |fs| == 0 then 0 else fs[0].band.delta + SumDeltas(fs[1..])
  }

  function SumWeights(fs: seq<Fired>): nat
  {
    if |fs| == 0 then 0 else fs[0].band.weight + SumWeights(fs[1..])
  }

  lemma {:induction false} SumWeightsBound(fs: seq<Fired>)
    ensures SumWeights(fs) <= 100 * |fs|
  {
    if |fs| > 0 {
      SumWeightsBound(fs[1..]);
    }
  }

  /** `min(hi, max(lo, x))`. */
  function Clamp(lo: int, hi: int, x: int): (r: int)
    requires lo <= hi
    ensures lo <= r <= hi
    ensures lo <= x <= hi ==> r == x
    ensures x < lo ==> r == lo
    ensures x > hi ==> r == hi
  {
    var floored := if x < lo then lo else x;
    if floored > hi then hi else floored
  }

  /** `int(mean(weights) * 100)` over percentage weights, 50 when nothing
      fired: the largest whole percentage not above the exact mean. */
  function Confidence(fs: seq<Fired>): (r: int)
    ensures 0 <= r <= 100
    ensures |fs| == 0 ==> r == 50
    ensures |fs| > 0 ==> r * |fs| <= SumWeights(fs) < (r + 1) * |fs|
  {
    if |fs| == 0 then 50
    else
      SumWeightsBound(fs);
      FloorDivision(SumWeights(fs), |fs|);
      SumWeights(fs) / |fs|
  }

  /** Integer division of a sum of n percentages by n is the floor of their
      mean, itself a percentage. */
  lemma FloorDivision(s: int, n: int)
    requires n > 0 && 0 <= s <= 100 * n
    ensures 0 <= s / n <= 100
    ensures (s / n) * n <= s < (s / n + 1) * n
  {
    var q := s / n;
    assert s == q * n + s % n;
    assert (q + 1) * n == q * n + n;
    assert (q - 100) * n == q * n - 100 * n;
    PositiveFactor(q + 1, n);
    PositiveFactor(q - 100, n);
  }

  predicate WeightsWithin(fs: seq<Fired>, lo: int, hi: int)
  {
    forall k :: 0 <= k < |fs| ==> lo <= fs[k].band.weight <= hi
  }

  predicate TablesWeightsWithin(checks: seq<Check>, lo: int, hi: int)
  {
    forall i, j :: 0 <= i < |checks| && 0 <= j < |checks[i].table.bands| ==>
      lo <= checks[i].table.bands[j].weight <= hi
  }

  /** Every fired band comes from its own table, so it carries one of that
      table's weights. */
  lemma {:induction false} FireWeightsWithin(checks: seq<Check>, lo: int, hi: int)
    requires TablesWeightsWithin(checks, lo, hi)
    ensures WeightsWithin(Fire(checks), lo, hi)
  {
    if |checks| > 0 {
      assert TablesWeightsWithin(checks[1..], lo, hi) by {
        forall i, j | 0 <= i < |checks[1..]| && 0 <= j < |checks[1..][i].table.bands|
          ensures lo <= checks[1..][i].table.bands[j].weight <= hi
        {
          assert checks[1..][i] == checks[i + 1];
        }
      }
      FireWeightsWithin(checks[1..], lo, hi);
      var c := checks[0];
      match Select(c.table, c.value)
      case None =>
      case Some(b) =>
        var i :| FirstHolding(c.table, c.value, i) && c.table.bands[i] == b;
        assert lo <= b.weight <= hi;
    }
  }

  lemma {:induction false} SumWeightsWithin(fs: seq<Fired>, lo: int, hi: int)
    requires WeightsWithin(fs, lo, hi)
    ensures lo * |fs| <= SumWeights(fs) <= hi * |fs|
  {
    if |fs| > 0 {
      assert WeightsWithin(fs[1..], lo, hi) by {
        forall k | 0 <= k < |fs[1..]|
          ensures lo <= fs[1..][k].band.weight <= hi
        {
          assert fs[1..][k] == fs[k + 1];
        }
      }
      SumWeightsWithin(fs[1..], lo, hi);
      assert lo * |fs| == lo + lo * |fs[1..]|;
      assert hi * |fs| == hi + hi * |fs[1..]|;
    }
  }

  /** The confidence lies between the smallest and the largest weight that
      fired. */
  lemma ConfidenceWithin(fs: seq<Fired>, lo: int, hi: int)
    requires |fs| > 0 && WeightsWithin(fs, lo, hi)
    ensures lo <= Confidence(fs) <= hi
  {
    SumWeightsWithin(fs, lo, hi);
    FloorOfMeanWithin(Confidence(fs), |fs|, SumWeights(fs), lo, hi);
  }

  lemma FloorOfMeanWithin(c: int, n: int, s: int, lo: int, hi: int)
    requires n > 0 && c * n <= s < (c + 1) * n
    requires lo * n <= s <= hi * n
    ensures lo <= c <= hi
  {
    assert (c - hi) * n == c * n - hi * n;
    assert (c + 1 - lo) * n == (c + 1) * n - lo * n;
    PositiveFactor(c - hi, n);
    PositiveFactor(c + 1 - lo, n);
  }

  /** With a positive factor, a product is positive exactly when the other
      factor is. */
  lemma PositiveFactor(x: int, n: int)
    requires n > 0
    ensures x > 0 <==> x * n > 0
  {
  }

  /** The aggregation fixture: deltas 10, 20, 30 with weights 0.5, 0.7, 0.9
      sum to 60 and average to a confidence of 70. */
  lemma AggregationFixture(f: Feature)
    ensures var fs := [Fired(f, Band(Otherwise, 10, 50, Plain)),
                       Fired(f, Band(Otherwise, 20, 70, Plain)),
                       Fired(f, Band(Otherwise, 30, 90, Plain))];
      Clamp(5, 100, SumDeltas(fs)) == 60 && Confidence(fs) == 70
  {
    var fs := [Fired(f, Band(Otherwise, 10, 50, Plain)),
               Fired(f, Band(Otherwise, 20, 70, Plain)),
               Fired(f, Band(Otherwise, 30, 90, Plain))];
    assert fs[1..][1..][1..] == [];
    assert SumWeights(fs[1..][1..]) == 90 && SumDeltas(fs[1..][1..]) == 30;
    assert SumWeights(fs[1..]) == 160 && SumDeltas(fs[1..]) == 50;
    assert SumWeights(fs) == 210 && SumDeltas(fs) == 60;
  }

  lemma SumDeltasOfFour(fs: seq<Fired>)
    requires |fs| == 4
    ensures SumDeltas(fs) == fs[0].band.delta + fs[1].band.delta + fs[2].band.delta + fs[3].band.delta
  {
    var tail := fs[1..];
    assert SumDeltas(fs) == fs[0].band.delta + SumDeltas(tail);
    assert SumDeltas(tail) == fs[1].band.delta + SumDeltas(tail[1..]);
    assert SumDeltas(tail[1..]) == fs[2].band.delta + SumDeltas(tail[1..][1..]);
    assert SumDeltas(tail[1..][1..]) == fs[3].band.delta + SumDeltas(tail[1..][1..][1..]);
    assert tail[1..][1..][1..] == [];
  }

  lemma SumWeightsOfFour(fs: seq<Fired>)
    requires |fs| == 4
    ensures SumWeights(fs) == fs[0].band.weight + fs[1].band.weight + fs[2].band.weight + fs[3].band.weight
  {
    var tail := fs[1..];
    assert SumWeights(fs) == fs[0].band.weight + SumWeights(tail);
    assert SumWeights(tail) == fs[1].band.weight + SumWeights(tail[1..]);
    assert SumWeights(tail[1..]) == fs[2].band.weight + SumWeights(tail[1..][1..]);
    assert SumWeights(tail[1..][1..]) == fs[3].band.weight + SumWeights(tail[1..][1..][1..]);
    assert tail[1..][1..][1..] == [];
  }

  /** Four checks against tables ending in `else` fire four bands, one per
      check, in order. */
  lemma FireOfFour(c0: Check, c1: Check, c2: Check, c3: Check)
    requires Total(c0.table) && Total(c1.table) && Total(c2.table) && Total(c3.table)
    ensures Fire([c0, c1, c2, c3]) ==
      [Fired(c0.table.feature, Judge(c0.table, c0.value)), Fired(c1.table.feature, Judge(c1.table, c1.value)),
       Fired(c2.table.feature, Judge(c2.table, c2.value)), Fired(c3.table.feature, Judge(c3.table, c3.value))]
  {
    var checks := [c0, c1, c2, c3];
    assert AllTotal(checks);
    var r := Fire(checks);
    assert r[0] == Fired(c0.table.feature, Judge(c0.table, c0.value)) by { assert checks[0] == c0; }
    assert r[1] == Fired(c1.table.feature, Judge(c1.table, c1.value)) by { assert checks[1] == c1; }
    assert r[2] == Fired(c2.table.feature, Judge(c2.table, c2.value)) by { assert checks[2] == c2; }
    assert r[3] == Fired(c3.table.feature, Judge(c3.table, c3.value)) by { assert checks[3] == c3; }
  }

  /** A check against a table ending in `else`, then one against a table
      that may fire nothing. */
  lemma FireOfTwo(c0: Check, c1: Check)
    requires Total(c0.table)
    ensures Fire([c0, c1]) ==
      [Fired(c0.table.feature, Judge(c0.table, c0.value))]
      + (match Select(c1.table, c1.value)
         case None => []
         case Some(b) => [Fired(c1.table.feature, b)])
  {
    assert [c0, c1][1..] == [c1];
    assert [c1][1..] == [];
  }
}
