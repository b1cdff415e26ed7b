/**
 * What the rotation experiment reports once the session is over: the console summary
 * (`show_results`) and the automatic angle/time analysis (`analyze_ade_automatically`), which
 * splits the results by rotation condition and then by correctness before fitting a line.
 */
module SessionSummary {
  import opened Common
  import opened TrialSession
  import opened ResultLog

  /** `r.rotation_enabled` and its negation, as comprehension guards. */
  predicate Rotated(r: TrialResult)
  {
    r.rotationEnabled
  }

  predicate NotRotated(r: TrialResult)
  {
    !r.rotationEnabled
  }

  /** Correct answers and trials of one rotation condition. */
  datatype GroupScore = GroupScore(correct: nat, size: nat)

  /** The numbers `show_results` prints. A condition without trials prints nothing (`None`). */
  datatype Summary = Summary(
    total: nat,
    correct: nat,
    accuracy: real,
    withRotation: Option<GroupScore>,
    withoutRotation: Option<GroupScore>,
    avgTime: real,
    avgDisparity: real)

  /** `sum(1 for r in rs if r.is_correct)`. */
  function CountCorrect(rs: seq<TrialResult>): (n: nat)
    ensures n <= |rs|
  {
    |Filter(rs, IsCorrect)|
  }

  function Score(rs: seq<TrialResult>): (g: Option<GroupScore>)
    ensures g.None? <==> rs == []
    ensures g.Some? ==> g.value.size == |rs| && g.value.correct <= g.value.size
  {
    if rs == [] then None else Some(GroupScore(CountCorrect(rs), |rs|))
  }

  function Size(g: Option<GroupScore>): nat
  {
    if g.Some? then g.value.size else 0
  }

  function CorrectIn(g: Option<GroupScore>): nat
  {
    if g.Some? then g.value.correct else 0
  }

  function Disparities(rs: seq<TrialResult>): (d: seq<real>)
    ensures |d| == |rs| && forall i :: 0 <= i < |rs| ==> d[i] == rs[i].disparity
  {
    seq(|rs|, i requires 0 <= i < |rs| => rs[i].disparity)
  }

  /** Python's `sum(xs) / len(xs)` on a nonempty list. */
  function Mean(xs: seq<real>): real
    requires |xs| > 0
  {
    Sum(xs) / (|xs| as real)
  }

  /** The two rotation conditions partition the results, and so do their correct answers. */
  lemma ConditionPartition(results: seq<TrialResult>)
    ensures |Filter(results, Rotated)| + |Filter(results, NotRotated)| == |results|
    ensures CountCorrect(Filter(results, Rotated)) + CountCorrect(Filter(results, NotRotated))
      == CountCorrect(results)
    ensures Filter(results, Rotated) != [] <==> exists r :: r in results && r.rotationEnabled
    ensures Filter(results, NotRotated) != [] <==> exists r :: r in results && !r.rotationEnabled
  {
    FilterComplement(results, Rotated, NotRotated);
    FilterSplitCount(results, Rotated, NotRotated, IsCorrect);
    if r :| r in results && r.rotationEnabled {
      FilterKeeps(results, Rotated, r);
      assert r in multiset(Filter(results, Rotated));
    }
    if r :| r in results && !r.rotationEnabled {
      FilterKeeps(results, NotRotated, r);
      assert r in multiset(Filter(results, NotRotated));
    }
    if Filter(results, Rotated) != [] {
      assert Filter(results, Rotated)[0] in Filter(results, Rotated);
    }
    if Filter(results, NotRotated) != [] {
      assert Filter(results, NotRotated)[0] in Filter(results, NotRotated);
    }
  }

  /**
   * `show_results`: nothing for an empty session; otherwise the totals, one score per
   * condition that has trials, and the mean response time and disparity.
   */
  function ShowResults(results: seq<TrialResult>): (s: Option<Summary>)
    ensures s.None? <==> results == []
    ensures s.Some? ==>
      && s.value.total == |results|
      && s.value.correct == CountCorrect(results) <= s.value.total
      && Size(s.value.withRotation) + Size(s.value.withoutRotation) == s.value.total
      && CorrectIn(s.value.withRotation) + CorrectIn(s.value.withoutRotation) == s.value.correct
      && (s.value.withRotation.Some? <==> exists r :: r in results && r.rotationEnabled)
      && (s.value.withoutRotation.Some? <==> exists r :: r in results && !r.rotationEnabled)
      && 0.0 <= s.value.accuracy <= 100.0
  {
    if results == [] then None
    else
      var total := |results|;
      var correct := CountCorrect(results);
      ConditionPartition(results);
      FractionAtMostOne(correct as real, total as real);
      Some(Summary(
        total,
        correct,
        correct as real / total as real * 100.0,
        Score(Filter(results, Rotated)),
        Score(Filter(results, NotRotated)),
        Mean(Times(results)),
        Mean(Disparities(results))))
  }

  /** A part over a positive whole is a fraction between 0 and 1. */
  lemma FractionAtMostOne(part: real, whole: real)
    requires 0.0 <= part <= whole && 0.0 < whole
    ensures 0.0 <= part / whole <= 1.0
  {
  }

  /** The mean of nonnegative values is nonnegative. */
  lemma MeanNonnegative(xs: seq<real>)
    requires |xs| > 0 && forall i :: 0 <= i < |xs| ==> 0.0 <= xs[i]
    ensures 0.0 <= Mean(xs)
  {
    SumNonnegative(xs);
  }

  /** With disparities from the session (never negative) the mean disparity is never negative. */
  lemma MeanDisparityNonnegative(results: seq<TrialResult>)
    requires results != []
    requires forall r :: r in results ==> 0.0 <= r.disparity
    ensures 0.0 <= ShowResults(results).value.avgDisparity
  {
    MeanNonnegative(Disparities(results));
  }

  /** `make_plot`'s two-point rule: (0, 0, 0, 1) instead of a fit below two points. */
  datatype LineFit = LineFit(slope: real, intercept: real, r: real, p: real)

  const NoLine := LineFit(0.0, 0.0, 0.0, 1.0)

  /** The points and the two fits of one `make_plot` call. */
  datatype Plot = Plot(
    correctAngles: seq<real>,
    correctTimes: seq<real>,
    incorrectAngles: seq<real>,
    incorrectTimes: seq<real>,
    correctFit: LineFit,
    incorrectFit: LineFit)

  function FitOrNone(regress: (seq<real>, seq<real>) -> Regression, angles: seq<real>, times: seq<real>): (f: LineFit)
    ensures |angles| < 2 ==> f == NoLine
    ensures |angles| >= 2 ==>
      var g := regress(angles, times); f == LineFit(g.slope, g.intercept, g.r, g.p)
  {
    if |angles| >= 2 then
      var g := regress(angles, times);
      LineFit(g.slope, g.intercept, g.r, g.p)
    else NoLine
  }

  /** `make_plot(data, ...)`: correct and incorrect points, each fitted or given the fallback. */
  function MakePlot(regress: (seq<real>, seq<real>) -> Regression, data: seq<TrialResult>): (p: Plot)
    ensures |p.correctAngles| == |p.correctTimes| && |p.incorrectAngles| == |p.incorrectTimes|
    ensures |p.correctAngles| + |p.incorrectAngles| == |data|
    ensures p.correctAngles == Angles(Filter(data, IsCorrect)) && p.correctTimes == Times(Filter(data, IsCorrect))
    ensures p.incorrectAngles == Angles(Filter(data, IsIncorrect)) && p.incorrectTimes == Times(Filter(data, IsIncorrect))
    ensures |p.correctAngles| < 2 ==> p.correctFit == NoLine
    ensures |p.correctAngles| >= 2 ==>
      var g := regress(p.correctAngles, p.correctTimes); p.correctFit == LineFit(g.slope, g.intercept, g.r, g.p)
    ensures |p.incorrectAngles| < 2 ==> p.incorrectFit == NoLine
    ensures |p.incorrectAngles| >= 2 ==>
      var g := regress(p.incorrectAngles, p.incorrectTimes); p.incorrectFit == LineFit(g.slope, g.intercept, g.r, g.p)
  {
    var correct := Filter(data, IsCorrect);
    var incorrect := Filter(data, IsIncorrect);
    CorrectnessPartition(data);
    Plot(Angles(correct), Times(correct), Angles(incorrect), Times(incorrect),
         FitOrNone(regress, Angles(correct), Times(correct)),
         FitOrNone(regress, Angles(incorrect), Times(incorrect)))
  }

  /**
   * `analyze_ade_automatically`: nothing for no results; otherwise one plot per rotation
   * condition that has results, built from exactly that condition's results.
   */
  function AnalyzeAdeAutomatically(regress: (seq<real>, seq<real>) -> Regression, results: seq<TrialResult>)
    : (a: Option<(Option<Plot>, Option<Plot>)>)
    ensures a.None? <==> results == []
    ensures a.Some? ==>
      && (a.value.0.Some? <==> exists r :: r in results && r.rotationEnabled)
      && (a.value.1.Some? <==> exists r :: r in results && !r.rotationEnabled)
      && (a.value.0.Some? ==> a.value.0.value == MakePlot(regress, Filter(results, Rotated)))
      && (a.value.1.Some? ==> a.value.1.value == MakePlot(regress, Filter(results, NotRotated)))
  {
    if results == [] then None
    else
      var rotables := Filter(results, Rotated);
      var nonRotables := Filter(results, NotRotated);
      ConditionPartition(results);
      Some((if rotables != [] then Some(MakePlot(regress, rotables)) else None,
            if nonRotables != [] then Some(MakePlot(regress, nonRotables)) else None))
  }

  /** Condition by correctness: the four groups of `analyze_ade_automatically` partition the results. */
  lemma FourWayPartition(results: seq<TrialResult>)
    ensures var rot := Filter(results, Rotated); var non := Filter(results, NotRotated);
      multiset(Filter(rot, IsCorrect)) + multiset(Filter(rot, IsIncorrect))
      + multiset(Filter(non, IsCorrect)) + multiset(Filter(non, IsIncorrect))
      == multiset(results)
  {
    var rot := Filter(results, Rotated);
    var non := Filter(results, NotRotated);
    FilterComplement(results, Rotated, NotRotated);
    CorrectnessPartition(rot);
    CorrectnessPartition(non);
  }

  /**
   * Every result is plotted exactly once, as a point of its condition's plot: the four point
   * sets (condition by correctness) partition the results as a multiset, each plot shows the
   * angles of exactly its part, and a condition without a plot has no results.
   */
  lemma EveryResultPlottedOnce(regress: (seq<real>, seq<real>) -> Regression, results: seq<TrialResult>)
    requires results != []
    ensures var a := AnalyzeAdeAutomatically(regress, results).value;
      (if a.0.Some? then |a.0.value.correctAngles| + |a.0.value.incorrectAngles| else 0)
      + (if a.1.Some? then |a.1.value.correctAngles| + |a.1.value.incorrectAngles| else 0)
      == |results|
    ensures var rot := Filter(results, Rotated); var non := Filter(results, NotRotated);
      multiset(Filter(rot, IsCorrect)) + multiset(Filter(rot, IsIncorrect))
      + multiset(Filter(non, IsCorrect)) + multiset(Filter(non, IsIncorrect))
      == multiset(results)
    ensures var a := AnalyzeAdeAutomatically(regress, results).value;
      var rot := Filter(results, Rotated); var non := Filter(results, NotRotated);
      && (a.0.None? ==> rot == [])
      && (a.1.None? ==> non == [])
      && (a.0.Some? ==> a.0.value.correctAngles == Angles(Filter(rot, IsCorrect))
                        && a.0.value.incorrectAngles == Angles(Filter(rot, IsIncorrect)))
      && (a.1.Some? ==> a.1.value.correctAngles == Angles(Filter(non, IsCorrect))
                        && a.1.value.incorrectAngles == Angles(Filter(non, IsIncorrect)))
  {
    ConditionPartition(results);
    FourWayPartition(results);
  }
}
