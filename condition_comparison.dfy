/**
 * Mental versus physical rotation (`experience3.py`): the comparison of the two conditions and
 * the per-disparity breakdown into six 30-degree bins. Arrays are sequences of reals; the
 * t-test is foreign and passed in.
 */
module ConditionComparison {
  import opened Common

  /** A numpy float: a number, or `nan` (what `np.mean` of an empty array gives). */
  datatype Float = Num(v: real) | NaN

  /** `np.mean(xs)`. */
  function MeanOf(xs: seq<real>): (m: Float)
    ensures m.NaN? <==> xs == []
  {
    if xs == [] then NaN else Num(Sum(xs) / (|xs| as real))
  }

  /** `f * 100`; `nan` stays `nan`. */
  function Percent(f: Float): Float
  {
    match f
    case NaN => NaN
    case Num(x) => Num(x * 100.0)
  }

  /** `(1 - f) * 100`; `nan` stays `nan`. */
  function ComplementPercent(f: Float): Float
  {
    match f
    case NaN => NaN
    case Num(x) => Num((1.0 - x) * 100.0)
  }

  /** The dictionary `comparer_conditions` returns. */
  datatype Comparison = Comparison(
    meanTimeMental: Float,
    meanTimePhysical: Float,
    errorRateMental: Float,
    errorRatePhysical: Float,
    precisionMental: Float,
    precisionPhysical: Float,
    tStat: real,
    pValueTime: real,
    speedAccuracyTradeOff: bool)

  /**
   * `comparer_conditions`: mean times, error rates and precisions in percent, and the t-test on
   * the times. Precision is always 100 minus the error rate, and the trade-off flag is a
   * constant `True`.
   */
  function CompareConditions(
    ttest: (seq<real>, seq<real>) -> (real, real),
    timesMental: seq<real>, timesPhysical: seq<real>,
    errorsMental: seq<real>, errorsPhysical: seq<real>): (c: Comparison)
    ensures c.meanTimeMental == MeanOf(timesMental) && c.meanTimePhysical == MeanOf(timesPhysical)
    ensures c.errorRateMental.NaN? <==> errorsMental == []
    ensures c.errorRatePhysical.NaN? <==> errorsPhysical == []
    ensures c.precisionMental.NaN? <==> c.errorRateMental.NaN?
    ensures c.precisionPhysical.NaN? <==> c.errorRatePhysical.NaN?
    ensures c.precisionMental.Num? ==> c.precisionMental.v == 100.0 - c.errorRateMental.v
    ensures c.precisionPhysical.Num? ==> c.precisionPhysical.v == 100.0 - c.errorRatePhysical.v
    ensures (c.tStat, c.pValueTime) == ttest(timesMental, timesPhysical)
    ensures c.speedAccuracyTradeOff
  {
    var (t, p) := ttest(timesMental, timesPhysical);
    Comparison(
      MeanOf(timesMental), MeanOf(timesPhysical),
      Percent(MeanOf(errorsMental)), Percent(MeanOf(errorsPhysical)),
      ComplementPercent(MeanOf(errorsMental)), ComplementPercent(MeanOf(errorsPhysical)),
      t, p, true)
  }

  /** The bin edges 0, 30, ..., 180 and the label of each bin. */
  const Edges: seq<real> := [0.0, 30.0, 60.0, 90.0, 120.0, 150.0, 180.0]
  const Labels: seq<string> := ["0-30°", "30-60°", "60-90°", "90-120°", "120-150°", "150-180°"]
  const BinCount := 6

  /** Every bin has its own label: an earlier bin's label differs from a later one's. */
  lemma LabelsDistinct(k: nat, i: nat)
    requires k < i < BinCount
    ensures Labels[k] != Labels[i]
  {
    if k == 4 && i == 5 {
      assert Labels[k][1] == '2' && Labels[i][1] == '5';
    } else {
      assert Labels[k][0] != Labels[i][0];
    }
  }

  /** The mask of bin `i`: `bins[i] <= x < bins[i + 1]`. */
  predicate InBin(x: real, i: nat)
    requires i < BinCount
  {
    Edges[i] <= x < Edges[i + 1]
  }

  /** The bins are pairwise disjoint; `[0, 180)` is covered, and nothing else is. */
  lemma {:induction false} OneBinAtMost(x: real)
    ensures forall i, j :: 0 <= i < j < BinCount ==> !(InBin(x, i) && InBin(x, j))
    ensures (exists i :: 0 <= i < BinCount && InBin(x, i)) <==> 0.0 <= x < 180.0
  {
    if 0.0 <= x < 180.0 {
      var i := if x < 30.0 then 0 else if x < 60.0 then 1 else if x < 90.0 then 2
        else if x < 120.0 then 3 else if x < 150.0 then 4 else 5;
      assert InBin(x, i);
    }
  }

  /** `np.sum((d >= lo) & (d < hi))`. */
  function CountIn(d: seq<real>, lo: real, hi: real): (n: nat)
    ensures n <= |d|
  {
    if d == [] then 0 else (if lo <= d[0] < hi then 1 else 0) + CountIn(d[1..], lo, hi)
  }

  /** `xs[(d >= lo) & (d < hi)]`: the entries whose disparity is in `[lo, hi)`, in order. */
  function Select(xs: seq<real>, d: seq<real>, lo: real, hi: real): (s: seq<real>)
    requires |xs| == |d|
    ensures |s| == CountIn(d, lo, hi)
  {
    if d == [] then [] else (if lo <= d[0] < hi then [xs[0]] else []) + Select(xs[1..], d[1..], lo, hi)
  }

  /** Adjacent intervals: counting over `[lo, mid)` and `[mid, hi)` is counting over `[lo, hi)`. */
  lemma {:induction false} CountSplit(d: seq<real>, lo: real, mid: real, hi: real)
    requires lo <= mid <= hi
    ensures CountIn(d, lo, mid) + CountIn(d, mid, hi) == CountIn(d, lo, hi)
  {
    if d != [] {
      CountSplit(d[1..], lo, mid, hi);
    }
  }

  /** The statistics of one bin. */
  datatype BinStats = BinStats(
    timeMental: real,
    timePhysical: real,
    errorMental: real,
    errorPhysical: real,
    n: nat)

  /** One bin's entry of `analyser_par_disparite`: means over the mask, or 0 for an empty bin. */
  function BinEntry(
    d: seq<real>, tm: seq<real>, tp: seq<real>, em: seq<real>, ep: seq<real>, lo: real, hi: real)
    : (b: BinStats)
    requires |tm| == |d| && |tp| == |d| && |em| == |d| && |ep| == |d|
    ensures b.n == CountIn(d, lo, hi)
    ensures b.n == 0 ==> b == BinStats(0.0, 0.0, 0.0, 0.0, 0)
    ensures b.n > 0 ==>
      && Num(b.timeMental) == MeanOf(Select(tm, d, lo, hi))
      && Num(b.timePhysical) == MeanOf(Select(tp, d, lo, hi))
      && Num(b.errorMental) == Percent(MeanOf(Select(em, d, lo, hi)))
      && Num(b.errorPhysical) == Percent(MeanOf(Select(ep, d, lo, hi)))
  {
    var n := CountIn(d, lo, hi);
    if n == 0 then BinStats(0.0, 0.0, 0.0, 0.0, 0)
    else
      BinStats(
        MeanOf(Select(tm, d, lo, hi)).v,
        MeanOf(Select(tp, d, lo, hi)).v,
        Percent(MeanOf(Select(em, d, lo, hi))).v,
        Percent(MeanOf(Select(ep, d, lo, hi))).v,
        n)
  }

  /** The labels of the first `i` bins. */
  function LabelsUpTo(i: nat): set<string>
    requires i <= BinCount
  {
    set k | 0 <= k < i :: Labels[k]
  }

  lemma LabelsUpToStep(i: nat)
    requires i < BinCount
    ensures LabelsUpTo(i + 1) == LabelsUpTo(i) + {Labels[i]}
  {
  }

  /** `stats` holds exactly the entries of the first `i` bins. */
  predicate Filled(
    stats: map<string, BinStats>, i: nat,
    d: seq<real>, tm: seq<real>, tp: seq<real>, em: seq<real>, ep: seq<real>)
    requires i <= BinCount
    requires |tm| == |d| && |tp| == |d| && |em| == |d| && |ep| == |d|
  {
    && stats.Keys == LabelsUpTo(i)
    && forall k :: 0 <= k < i ==> stats[Labels[k]] == BinEntry(d, tm, tp, em, ep, Edges[k], Edges[k + 1])
  }

  /** Adding the entry of bin `i` keeps the entries of the bins before it. */
  lemma FillStep(
    stats: map<string, BinStats>, i: nat,
    d: seq<real>, tm: seq<real>, tp: seq<real>, em: seq<real>, ep: seq<real>)
    requires i < BinCount
    requires |tm| == |d| && |tp| == |d| && |em| == |d| && |ep| == |d|
    requires Filled(stats, i, d, tm, tp, em, ep)
    ensures Filled(stats[Labels[i] := BinEntry(d, tm, tp, em, ep, Edges[i], Edges[i + 1])], i + 1, d, tm, tp, em, ep)
  {
    var next := stats[Labels[i] := BinEntry(d, tm, tp, em, ep, Edges[i], Edges[i + 1])];
    LabelsUpToStep(i);
    assert next.Keys == LabelsUpTo(i + 1);
    forall k | 0 <= k < i + 1
      ensures next[Labels[k]] == BinEntry(d, tm, tp, em, ep, Edges[k], Edges[k + 1])
    {
      if k < i {
        LabelsDistinct(k, i);
      }
    }
  }

  /** `analyser_par_disparite`: the loop that fills one dictionary entry per bin. */
  method AnalyseByDisparity(d: seq<real>, tm: seq<real>, tp: seq<real>, em: seq<real>, ep: seq<real>)
    returns (stats: map<string, BinStats>)
    requires |tm| == |d| && |tp| == |d| && |em| == |d| && |ep| == |d|
    ensures stats.Keys == set i | 0 <= i < BinCount :: Labels[i]
    ensures forall i :: 0 <= i < BinCount ==> stats[Labels[i]] == BinEntry(d, tm, tp, em, ep, Edges[i], Edges[i + 1])
  {
    stats := map[];
    var i := 0;
    while i < BinCount
      invariant 0 <= i <= BinCount
      invariant Filled(stats, i, d, tm, tp, em, ep)
    {
      FillStep(stats, i, d, tm, tp, em, ep);
      stats := stats[Labels[i] := BinEntry(d, tm, tp, em, ep, Edges[i], Edges[i + 1])];
      i := i + 1;
    }
  }

  /**
   * The six counts add up to the number of disparities in `[0, 180)`: a disparity of 180 or
   * more, or below 0, is in no bin, so the counts never exceed the number of samples.
   */
  lemma BinCountsAddUp(d: seq<real>, tm: seq<real>, tp: seq<real>, em: seq<real>, ep: seq<real>)
    requires |tm| == |d| && |tp| == |d| && |em| == |d| && |ep| == |d|
    ensures
      var total := BinEntry(d, tm, tp, em, ep, 0.0, 30.0).n + BinEntry(d, tm, tp, em, ep, 30.0, 60.0).n
        + BinEntry(d, tm, tp, em, ep, 60.0, 90.0).n + BinEntry(d, tm, tp, em, ep, 90.0, 120.0).n
        + BinEntry(d, tm, tp, em, ep, 120.0, 150.0).n + BinEntry(d, tm, tp, em, ep, 150.0, 180.0).n;
      total == CountIn(d, 0.0, 180.0) <= |d|
  {
    CountSplit(d, 0.0, 30.0, 60.0);
    CountSplit(d, 0.0, 60.0, 90.0);
    CountSplit(d, 0.0, 90.0, 120.0);
    CountSplit(d, 0.0, 120.0, 150.0);
    CountSplit(d, 0.0, 150.0, 180.0);
  }
}
