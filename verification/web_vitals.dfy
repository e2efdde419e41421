/**
 * Rating of Core Web Vitals measurements against the fixed threshold table
 * of `assessMetrics`, and the overall verdict of `createPerformanceReport`.
 * Metric values are compared only, so they are exact reals here.
 */
module WebVitals {

  /** The three ratings, both the one this module computes and the one the
      web-vitals library attaches to each metric. */
  datatype Rating = Good | NeedsImprovement | Poor

  /** A measurement as the web-vitals library reports it. */
  datatype Metric = Metric(name: string, value: real, rating: Rating, delta: real)

  /** Upper bounds of the `good` and `needs-improvement` bands. */
  datatype Threshold = Threshold(good: real, poor: real)

  /** One entry of the assessment record: the computed rating and the
      measured value. */
  datatype Assessment = Assessment(rating: Rating, value: real)

  /** One entry of the report's `metrics` record, copied from the library. */
  datatype MetricSummary = MetricSummary(value: real, rating: Rating, delta: real)

  /** The report's `overall` field: 'excellent' | 'good' | 'needs-improvement'. */
  datatype Overall = OverallExcellent | OverallGood | OverallNeedsImprovement

  datatype PerformanceReport = PerformanceReport(
    metrics: map<string, MetricSummary>,
    assessment: map<string, Assessment>,
    overall: Overall)

  /** The threshold table, keyed by metric name. */
  const Thresholds: map<string, Threshold> := map[
    "LCP" := Threshold(2500.0, 4000.0),
    "FID" := Threshold(100.0, 300.0),
    "CLS" := Threshold(0.1, 0.25),
    "FCP" := Threshold(1800.0, 3000.0),
    "TTFB" := Threshold(800.0, 1800.0)]

  /** Every band is non-empty: the `good` bound lies strictly below the
      `poor` bound, and only the five listed names have thresholds. */
  lemma ThresholdsOrdered()
    ensures Thresholds.Keys == {"LCP", "FID", "CLS", "FCP", "TTFB"}
    ensures forall name :: name in Thresholds ==> Thresholds[name].good < Thresholds[name].poor
  {
  }

  /** Position of a rating on the scale from best to worst. */
  function Severity(r: Rating): nat
  {
    match r
    case Good => 0
    case NeedsImprovement => 1
    case Poor => 2
  }

  /** The rating of `value` against threshold `t`. */
  function Rate(value: real, t: Threshold): (r: Rating)
    requires t.good < t.poor
    ensures r == Good <==> value <= t.good
    ensures r == NeedsImprovement <==> t.good < value <= t.poor
    ensures r == Poor <==> t.poor < value
  {
    if value <= t.good then Good
    else if value <= t.poor then NeedsImprovement
    else Poor
  }

  /** A larger value never gets a better rating. */
  lemma RatingMonotone(t: Threshold, v1: real, v2: real)
    requires t.good < t.poor
    requires v1 <= v2
    ensures Severity(Rate(v1, t)) <= Severity(Rate(v2, t))
  {
  }

  /** The assessment entry for one metric of a known name. */
  function Rated(m: Metric): (a: Assessment)
    requires m.name in Thresholds
    ensures a.value == m.value
  {
    ThresholdsOrdered();
    Assessment(Rate(m.value, Thresholds[m.name]), m.value)
  }

  /** The assessment record after processing `metrics` in order: metrics of
      unknown name are skipped, a later metric of the same name overwrites the
      earlier entry. */
  function Assessed(metrics: seq<Metric>): (assessment: map<string, Assessment>)
    ensures forall k :: k in assessment ==> k in Thresholds
    ensures |assessment| <= |metrics|
    decreases |metrics|
  {
    if metrics == [] then map[]
    else
      var last := metrics[|metrics| - 1];
      var before := Assessed(metrics[..|metrics| - 1]);
      if last.name in Thresholds then before[last.name := Rated(last)] else before
  }

  /** Whether `metrics[i]` is the last metric of its name. */
  ghost predicate IsLastOfName(metrics: seq<Metric>, i: int)
    requires 0 <= i < |metrics|
  {
    forall j :: i < j < |metrics| ==> metrics[j].name != metrics[i].name
  }

  /** The assessment has an entry exactly for the known names that occur. */
  lemma {:induction false} AssessedKeys(metrics: seq<Metric>)
    ensures forall k :: k in Assessed(metrics) <==>
      k in Thresholds && exists i :: 0 <= i < |metrics| && metrics[i].name == k
    decreases |metrics|
  {
    if metrics != [] {
      var init := metrics[..|metrics| - 1];
      AssessedKeys(init);
      forall k | k in Thresholds && (exists i :: 0 <= i < |metrics| && metrics[i].name == k)
        ensures k in Assessed(metrics)
      {
        var i :| 0 <= i < |metrics| && metrics[i].name == k;
        if i < |metrics| - 1 {
          assert init[i].name == k;
        }
      }
      forall k | k in Assessed(metrics)
        ensures k in Thresholds && exists i :: 0 <= i < |metrics| && metrics[i].name == k
      {
        if k != metrics[|metrics| - 1].name {
          var i :| 0 <= i < |init| && init[i].name == k;
          assert metrics[i].name == k;
        }
      }
    }
  }

  /** Each entry is the rating and the unchanged value of the last metric of
      that name. */
  lemma {:induction false} AssessedLastWins(metrics: seq<Metric>, i: int)
    requires 0 <= i < |metrics|
    requires metrics[i].name in Thresholds
    requires IsLastOfName(metrics, i)
    ensures metrics[i].name in Assessed(metrics)
    ensures Assessed(metrics)[metrics[i].name] == Rated(metrics[i])
    decreases |metrics|
  {
    if i < |metrics| - 1 {
      var init := metrics[..|metrics| - 1];
      assert init[i] == metrics[i];
      AssessedLastWins(init, i);
    }
  }

  /** `assessMetrics`: fills the assessment record entry by entry. */
  method AssessMetrics(metrics: seq<Metric>) returns (assessment: map<string, Assessment>)
    ensures assessment == Assessed(metrics)
    ensures forall k :: k in assessment ==> k in Thresholds
  {
    assessment := map[];
    var i := 0;
    while i < |metrics|
      invariant 0 <= i <= |metrics|
      invariant assessment == Assessed(metrics[..i])
    {
      var metric := metrics[i];
      assert metrics[..i + 1][..i] == metrics[..i];
      if metric.name in Thresholds {
        var threshold := Thresholds[metric.name];
        ThresholdsOrdered();
        var rating: Rating;
        if metric.value <= threshold.good {
          rating := Good;
        } else if metric.value <= threshold.poor {
          rating := NeedsImprovement;
        } else {
          rating := Poor;
        }
        assessment := assessment[metric.name := Assessment(rating, metric.value)];
      }
      i := i + 1;
    }
    assert metrics[..i] == metrics;
    AssessedKeys(metrics);
  }

  /** The report's `metrics` record: `reduce` keyed by name, the later metric
      of a name overwriting the earlier one. */
  function Summarized(metrics: seq<Metric>): (acc: map<string, MetricSummary>)
    ensures forall k :: k in acc <==> exists i :: 0 <= i < |metrics| && metrics[i].name == k
    decreases |metrics|
  {
    if metrics == [] then map[]
    else
      var last := metrics[|metrics| - 1];
      var before := Summarized(metrics[..|metrics| - 1]);
      assert forall i :: 0 <= i < |metrics| - 1 ==> metrics[..|metrics| - 1][i] == metrics[i];
      before[last.name := MetricSummary(last.value, last.rating, last.delta)]
  }

  /** Each summary entry is a copy of the last metric of that name. */
  lemma {:induction false} SummarizedLastWins(metrics: seq<Metric>, i: int)
    requires 0 <= i < |metrics|
    requires IsLastOfName(metrics, i)
    ensures Summarized(metrics)[metrics[i].name]
      == MetricSummary(metrics[i].value, metrics[i].rating, metrics[i].delta)
    decreases |metrics|
  {
    if i < |metrics| - 1 {
      var init := metrics[..|metrics| - 1];
      assert init[i] == metrics[i];
      SummarizedLastWins(init, i);
    }
  }

  /** The `overall` verdict over the values of the assessment record. */
  function OverallVerdict(assessment: map<string, Assessment>): (v: Overall)
    ensures v == OverallExcellent <==> forall k :: k in assessment ==> assessment[k].rating == Good
    ensures v == OverallGood <==>
      (exists k :: k in assessment && assessment[k].rating == NeedsImprovement) &&
      (forall k :: k in assessment ==> assessment[k].rating != Poor)
    ensures v == OverallNeedsImprovement <==> exists k :: k in assessment && assessment[k].rating == Poor
  {
    if forall k :: k in assessment ==> assessment[k].rating == Good then OverallExcellent
    else if forall k :: k in assessment ==> assessment[k].rating != Poor then OverallGood
    else OverallNeedsImprovement
  }

  /** An empty assessment (no known metric reported) is 'excellent'. */
  lemma EmptyAssessmentIsExcellent()
    ensures OverallVerdict(map[]) == OverallExcellent
  {
  }

  /** The verdict is 'excellent' exactly when the last reported value of
      every known metric lies within its `good` bound. */
  lemma {:induction false} ExcellentIffAllWithinGood(metrics: seq<Metric>)
    ensures OverallVerdict(Assessed(metrics)) == OverallExcellent <==>
      forall i :: 0 <= i < |metrics| && metrics[i].name in Thresholds && IsLastOfName(metrics, i) ==>
        metrics[i].value <= Thresholds[metrics[i].name].good
  {
    var a := Assessed(metrics);
    AssessedKeys(metrics);
    ThresholdsOrdered();
    forall i | 0 <= i < |metrics| && metrics[i].name in Thresholds && IsLastOfName(metrics, i)
      ensures a[metrics[i].name] == Rated(metrics[i])
    {
      AssessedLastWins(metrics, i);
    }
    forall k | k in a
      ensures exists i :: 0 <= i < |metrics| && metrics[i].name == k && IsLastOfName(metrics, i)
    {
      var i :| 0 <= i < |metrics| && metrics[i].name == k;
      var j := LastOccurrence(metrics, i);
    }
  }

  /** The index of the last metric with the same name as `metrics[i]`. */
  lemma {:induction false} LastOccurrence(metrics: seq<Metric>, i: int) returns (j: int)
    requires 0 <= i < |metrics|
    ensures i <= j < |metrics| && metrics[j].name == metrics[i].name && IsLastOfName(metrics, j)
    decreases |metrics| - i
  {
    if IsLastOfName(metrics, i) {
      j := i;
    } else {
      var l :| i < l < |metrics| && metrics[l].name == metrics[i].name;
      j := LastOccurrence(metrics, l);
    }
  }

  /** `createPerformanceReport`, given the collected metrics. */
  method CreatePerformanceReport(metrics: seq<Metric>) returns (report: PerformanceReport)
    ensures report.metrics == Summarized(metrics)
    ensures report.assessment == Assessed(metrics)
    ensures report.overall == OverallExcellent <==>
      forall k :: k in report.assessment ==> report.assessment[k].rating == Good
    ensures report.overall == OverallNeedsImprovement <==>
      exists k :: k in report.assessment && report.assessment[k].rating == Poor
  {
    var assessment := AssessMetrics(metrics);
    report := PerformanceReport(Summarized(metrics), assessment, OverallVerdict(assessment));
  }
}
