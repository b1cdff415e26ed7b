/**
 * The stand-alone angle/time analysis of a saved results file (`analyze_ade`): split the
 * records into correct and incorrect answers, extract the angle and time columns of each, and
 * correlate and fit each part that has at least two points.
 */
module AdeAnalysis {
  import opened Common
  import opened TrialSession
  import opened ResultLog

  /** `(r, p)` of a correlation test. */
  type Correlation = (real, real)

  const NoCorrelation: Correlation := (0.0, 1.0)

  /** The fit recorded for a part with fewer than two points. */
  const NoRegression := Regression(0.0, 0.0, 0.0, 1.0, 0.0)

  /** `calculate_correlation(x, y)`: below two points the answer is (0.0, 1.0), never a test. */
  function CalculateCorrelation(pearson: (seq<real>, seq<real>) -> Correlation, x: seq<real>, y: seq<real>)
    : (c: Correlation)
    ensures |x| < 2 ==> c == NoCorrelation
    ensures |x| >= 2 ==> c == pearson(x, y)
  {
    if |x| < 2 then NoCorrelation else pearson(x, y)
  }

  /** One of the two parts: its records, their angle and time columns, and what was computed. */
  datatype PartFit = PartFit(
    records: seq<TrialResult>,
    angles: seq<real>,
    times: seq<real>,
    correlation: Correlation,
    fit: Regression)

  /** The branch of `analyze_ade` for one part: statistics with two points or more, fallbacks below. */
  function FitPart(
    pearson: (seq<real>, seq<real>) -> Correlation,
    regress: (seq<real>, seq<real>) -> Regression,
    part: seq<TrialResult>): (f: PartFit)
    ensures f.records == part
    ensures |f.angles| == |part| && |f.times| == |part|
    ensures forall i :: 0 <= i < |part| ==> f.angles[i] == part[i].initialAngle && f.times[i] == part[i].responseTime
    ensures |part| < 2 ==> f.correlation == NoCorrelation && f.fit == NoRegression
    ensures |part| >= 2 ==> f.correlation == pearson(f.angles, f.times) && f.fit == regress(f.angles, f.times)
    // the explicit fallback below two points agrees with the one inside `calculate_correlation`
    ensures f.correlation == CalculateCorrelation(pearson, f.angles, f.times)
  {
    var angles := Angles(part);
    var times := Times(part);
    if |angles| >= 2 then
      PartFit(part, angles, times, CalculateCorrelation(pearson, angles, times), regress(angles, times))
    else
      PartFit(part, angles, times, NoCorrelation, NoRegression)
  }

  /**
   * `analyze_ade(results)`: nothing is computed for an empty list; otherwise the correct and
   * incorrect parts, in input order, together hold every record exactly once.
   */
  function AnalyzeAde(
    pearson: (seq<real>, seq<real>) -> Correlation,
    regress: (seq<real>, seq<real>) -> Regression,
    results: seq<TrialResult>): (a: Option<(PartFit, PartFit)>)
    ensures a.None? <==> results == []
    ensures a.Some? ==>
      && a.value.0 == FitPart(pearson, regress, Filter(results, IsCorrect))
      && a.value.1 == FitPart(pearson, regress, Filter(results, IsIncorrect))
      && |a.value.0.records| + |a.value.1.records| == |results|
      && multiset(a.value.0.records) + multiset(a.value.1.records) == multiset(results)
      && (forall r :: r in a.value.0.records ==> Truthy(r.isCorrect))
      && (forall r :: r in a.value.1.records ==> !Truthy(r.isCorrect))
  {
    if results == [] then None
    else
      CorrectnessPartition(results);
      Some((FitPart(pearson, regress, Filter(results, IsCorrect)),
            FitPart(pearson, regress, Filter(results, IsIncorrect))))
  }

  /**
   * The parts keep input order: analysing a concatenation of two result lists gives the parts
   * of the first followed by the parts of the second.
   */
  lemma PartsKeepOrder(a: seq<TrialResult>, b: seq<TrialResult>)
    ensures Filter(a + b, IsCorrect) == Filter(a, IsCorrect) + Filter(b, IsCorrect)
    ensures Filter(a + b, IsIncorrect) == Filter(a, IsIncorrect) + Filter(b, IsIncorrect)
  {
    FilterAppend(a, b, IsCorrect);
    FilterAppend(a, b, IsIncorrect);
  }
}
