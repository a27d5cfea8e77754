/**
 The KPI scoring engine: capped metric scores, weighted into area scores, weighted into one overall
 score, with two-decimal rounding at the end. Decimals are exact reals.
 */
module KpiScoring {
  import opened RealArithmetic

  datatype Metric = Metric(weight: real, actual: real, target: real)

  datatype Area = Area(id: nat, name: string, weight: real, metrics: seq<Metric>)

  datatype AreaResult = AreaResult(id: nat, name: string, score: real, weight: real)

  datatype ScoringResult = ScoringResult(overall: real, areas: seq<AreaResult>)

  function Over(a: real, b: real): real
    requires b != 0.0
  {
    a / b
  }

  // ---- Rounding --------------------------------------------------------------------

  /** `Math.Round(x, 2, MidpointRounding.AwayFromZero)`. */
  function Round2(x: real): real {
    if x >= 0.0 then Hundredths((x * 100.0 + 0.5).Floor) else -Hundredths((-x * 100.0 + 0.5).Floor)
  }

  function Hundredths(n: int): real { n as real / 100.0 }

  lemma RoundIsNear(x: real)
    ensures -0.005 <= Round2(x) - x <= 0.005
    ensures x >= 0.0 ==> Round2(x) >= 0.0
  {
  }

  lemma FloorMonotone(x: real, y: real)
    requires x <= y
    ensures x.Floor <= y.Floor
  {
  }

  lemma RoundMonotone(x: real, y: real)
    requires x <= y
    ensures Round2(x) <= Round2(y)
  {
    if x >= 0.0 {
      FloorMonotone(x * 100.0 + 0.5, y * 100.0 + 0.5);
    } else if y < 0.0 {
      FloorMonotone(-y * 100.0 + 0.5, -x * 100.0 + 0.5);
    } else {
      assert (-x * 100.0 + 0.5).Floor >= 0;
    }
  }

  /** Two-decimal numbers are left alone, and a half is rounded away from zero. */
  lemma RoundExact(n: int)
    ensures Round2(Hundredths(n)) == Hundredths(n)
    ensures n >= 0 ==> Round2(Hundredths(n) + 0.005) == Hundredths(n + 1)
    ensures n <= 0 ==> Round2(Hundredths(n) - 0.005) == Hundredths(n - 1)
  {
    var x := Hundredths(n);
    if n >= 0 {
      assert (x * 100.0 + 0.5).Floor == n && ((x + 0.005) * 100.0 + 0.5).Floor == n + 1;
    }
    if n <= 0 {
      assert (-x * 100.0 + 0.5).Floor == -n && (-(x - 0.005) * 100.0 + 0.5).Floor == -n + 1;
    }
  }

  // ---- Scores ------------------------------------------------------------------------

  function Min(a: real, b: real): real { if a <= b then a else b }

  function MetricScore(m: Metric): real {
    if m.target > 0.0 then Min(Times(Over(m.actual, m.target), 100.0), 100.0) else 0.0
  }

  function TotalWeight(ms: seq<Metric>): real {
    if ms == [] then 0.0 else TotalWeight(ms[..|ms| - 1]) + ms[|ms| - 1].weight
  }

  /** The metric scores, each with its share of `total`. */
  function Shares(ms: seq<Metric>, total: real): real
    requires total != 0.0
  {
    if ms == [] then 0.0
    else
      var last := ms[|ms| - 1];
      Shares(ms[..|ms| - 1], total) + Times(MetricScore(last), Over(last.weight, total))
  }

  function AreaScore(ms: seq<Metric>): real {
    var total := TotalWeight(ms);
    if total > 0.0 then Shares(ms, total) else 0.0
  }

  function Overall(areas: seq<Area>): real {
    if areas == [] then 0.0
    else
      var last := areas[|areas| - 1];
      Overall(areas[..|areas| - 1]) + Times(AreaScore(last.metrics), Over(last.weight, 100.0))
  }

  function Rounded(area: Area): AreaResult {
    AreaResult(area.id, area.name, Round2(AreaScore(area.metrics)), area.weight)
  }

  method Compute(areas: seq<Area>) returns (result: ScoringResult)
    ensures |result.areas| == |areas|
    ensures forall i :: 0 <= i < |areas| ==> result.areas[i] == Rounded(areas[i])
    ensures result.overall == Round2(Overall(areas))
  {
    var areaScores: seq<AreaResult> := [];
    var overallScore := 0.0;
    var i := 0;
    while i < |areas|
      invariant 0 <= i <= |areas| && |areaScores| == i
      invariant forall k :: 0 <= k < i ==> areaScores[k] == Rounded(areas[k])
      invariant overallScore == Overall(areas[..i])
    {
      var area := areas[i];
      var areaScore := ComputeArea(area.metrics);
      areaScores := areaScores + [AreaResult(area.id, area.name, Round2(areaScore), area.weight)];
      assert areas[..i + 1][..i] == areas[..i];
      overallScore := overallScore + Times(areaScore, Over(area.weight, 100.0));
      i := i + 1;
    }
    assert areas[..|areas|] == areas;
    result := ScoringResult(Round2(overallScore), areaScores);
  }

  method ComputeArea(metrics: seq<Metric>) returns (areaScore: real)
    ensures areaScore == AreaScore(metrics)
  {
    var totalMetricWeight := 0.0;
    var i := 0;
    while i < |metrics|
      invariant 0 <= i <= |metrics|
      invariant totalMetricWeight == TotalWeight(metrics[..i])
    {
      assert metrics[..i + 1][..i] == metrics[..i];
      totalMetricWeight := totalMetricWeight + metrics[i].weight;
      i := i + 1;
    }
    assert metrics[..|metrics|] == metrics;
    areaScore := 0.0;
    if totalMetricWeight > 0.0 {
      i := 0;
      while i < |metrics|
        invariant 0 <= i <= |metrics|
        invariant areaScore == Shares(metrics[..i], totalMetricWeight)
      {
        var metric := metrics[i];
        var metricScore := if metric.target > 0.0 then Min(Times(Over(metric.actual, metric.target), 100.0), 100.0)
            else 0.0;
        assert metrics[..i + 1][..i] == metrics[..i];
        areaScore := areaScore + Times(metricScore, Over(metric.weight, totalMetricWeight));
        i := i + 1;
      }
    }
  }

  // ---- An area score is a weighted mean ---------------------------------------------------

  function WeightedSum(ms: seq<Metric>): real {
    if ms == [] then 0.0
    else WeightedSum(ms[..|ms| - 1]) + Times(MetricScore(ms[|ms| - 1]), ms[|ms| - 1].weight)
  }

  lemma ShareStep(sum: real, score: real, weight: real, total: real)
    requires total != 0.0
    ensures Times(sum + Times(score, Over(weight, total)), total) == Times(sum, total) + Times(score, weight)
  {
    var share := Over(weight, total);
    assert share * total == weight;
    assert (score * share) * total == score * (share * total);
  }

  lemma {:induction false} SharesAreWeighted(ms: seq<Metric>, total: real)
    requires total != 0.0
    ensures Times(Shares(ms, total), total) == WeightedSum(ms)
  {
    if ms != [] {
      var init, last := ms[..|ms| - 1], ms[|ms| - 1];
      SharesAreWeighted(init, total);
      ShareStep(Shares(init, total), MetricScore(last), last.weight, total);
    }
  }

  /** The score of an area is the mean of its metric scores under its weights. */
  lemma AreaScoreIsMean(ms: seq<Metric>)
    requires TotalWeight(ms) > 0.0
    ensures Times(AreaScore(ms), TotalWeight(ms)) == WeightedSum(ms)
  {
    SharesAreWeighted(ms, TotalWeight(ms));
  }

  // ---- Ranges ---------------------------------------------------------------------------------

  predicate Weighted(ms: seq<Metric>) { forall i :: 0 <= i < |ms| ==> ms[i].weight >= 0.0 }

  predicate Valid(ms: seq<Metric>) { Weighted(ms) && forall i :: 0 <= i < |ms| ==> ms[i].actual >= 0.0 }

  predicate Met(m: Metric) { m.target > 0.0 && m.actual >= m.target }

  lemma ScaledQuotient(actual: real, target: real)
    requires target > 0.0
    ensures actual >= 0.0 ==> Times(Over(actual, target), 100.0) >= 0.0
    ensures Times(Over(actual, target), 100.0) >= 100.0 <==> actual >= target
  {
    var q := Over(actual, target);
    assert q * target == actual;
    if q >= 1.0 { assert (q - 1.0) * target >= 0.0; } else { assert (1.0 - q) * target > 0.0; }
    if q < 0.0 { assert -q * target > 0.0; }
  }

  /** A metric scores at most 100, and 100 exactly when it has a target and meets it. */
  lemma MetricScoreRange(m: Metric)
    ensures MetricScore(m) <= 100.0 && (m.actual >= 0.0 ==> MetricScore(m) >= 0.0)
    ensures MetricScore(m) == 100.0 <==> Met(m)
  {
    if m.target > 0.0 { ScaledQuotient(m.actual, m.target); }
  }

  lemma ProductRange(score: real, weight: real)
    requires weight >= 0.0 && score <= 100.0
    ensures Times(score, weight) <= Times(100.0, weight)
    ensures score >= 0.0 ==> Times(score, weight) >= 0.0
    ensures Times(score, weight) == Times(100.0, weight) <==> score == 100.0 || weight == 0.0
  {
    if weight > 0.0 && score < 100.0 { assert (100.0 - score) * weight > 0.0; }
  }

  predicate AllMet(ms: seq<Metric>) { forall i :: 0 <= i < |ms| && ms[i].weight > 0.0 ==> Met(ms[i]) }

  lemma {:induction false} WeightedSumRange(ms: seq<Metric>)
    requires Valid(ms)
    ensures 0.0 <= WeightedSum(ms) <= Times(100.0, TotalWeight(ms)) && TotalWeight(ms) >= 0.0
    ensures WeightedSum(ms) == Times(100.0, TotalWeight(ms)) <==> AllMet(ms)
  {
    if ms != [] {
      var init, last := ms[..|ms| - 1], ms[|ms| - 1];
      WeightedSumRange(init);
      MetricScoreRange(last);
      ProductRange(MetricScore(last), last.weight);
      assert AllMet(ms) <==> AllMet(init) && (last.weight > 0.0 ==> Met(last)) by {
        assert forall i :: 0 <= i < |init| ==> init[i] == ms[i];
      }
    }
  }

  lemma CancelOrder(x: real, y: real, w: real)
    requires w > 0.0
    ensures Times(x, w) <= Times(y, w) <==> x <= y
    ensures Times(x, w) == Times(y, w) <==> x == y
  {
    if x < y { assert (y - x) * w > 0.0; }
    if y < x { assert (x - y) * w > 0.0; }
  }

  /**
   Area scores lie between 0 and 100, and reach 100 exactly when some weight counts and every metric that counts met
   its target.
   */
  lemma AreaScoreRange(ms: seq<Metric>)
    requires Valid(ms)
    ensures 0.0 <= AreaScore(ms) <= 100.0
    ensures AreaScore(ms) == 100.0 <==> TotalWeight(ms) > 0.0 && AllMet(ms)
  {
    var total := TotalWeight(ms);
    if total > 0.0 {
      AreaScoreIsMean(ms);
      WeightedSumRange(ms);
      CancelOrder(AreaScore(ms), 100.0, total);
      CancelOrder(0.0, AreaScore(ms), total);
    }
  }

  function AreaWeight(areas: seq<Area>): real {
    if areas == [] then 0.0 else AreaWeight(areas[..|areas| - 1]) + areas[|areas| - 1].weight
  }

  predicate AllValid(areas: seq<Area>) {
    forall i :: 0 <= i < |areas| ==> areas[i].weight >= 0.0 && Valid(areas[i].metrics)
  }

  lemma PercentRange(score: real, weight: real)
    requires 0.0 <= score <= 100.0 && weight >= 0.0
    ensures 0.0 <= Times(score, Over(weight, 100.0)) <= weight
  {
    ProductRange(score, Over(weight, 100.0));
  }

  lemma {:induction false} OverallWithinWeight(areas: seq<Area>)
    requires AllValid(areas)
    ensures 0.0 <= Overall(areas) <= AreaWeight(areas)
  {
    if areas != [] {
      var init, last := areas[..|areas| - 1], areas[|areas| - 1];
      OverallWithinWeight(init);
      AreaScoreRange(last.metrics);
      PercentRange(AreaScore(last.metrics), last.weight);
    }
  }

  /** The stored overall score of an agreement whose area weights may total 100.01 is at most 100.01. */
  lemma OverallRange(areas: seq<Area>)
    requires AllValid(areas) && AreaWeight(areas) <= 100.01
    ensures 0.0 <= Round2(Overall(areas)) <= 100.01
    ensures AreaWeight(areas) <= 100.0 ==> Round2(Overall(areas)) <= 100.0
  {
    OverallWithinWeight(areas);
    RoundIsNear(Overall(areas));
    RoundMonotone(Overall(areas), 100.01);
    RoundExact(10001);
    RoundExact(10000);
    if AreaWeight(areas) <= 100.0 { RoundMonotone(Overall(areas), 100.0); }
  }

  // ---- More done never scores less ------------------------------------------------------------------

  /** The same metrics with actuals at least as high. */
  predicate Improves(ms: seq<Metric>, better: seq<Metric>) {
    && |ms| == |better|
    && forall i :: 0 <= i < |ms| ==>
         better[i].weight == ms[i].weight && better[i].target == ms[i].target && better[i].actual >= ms[i].actual
  }

  lemma MetricMonotone(m: Metric, better: Metric)
    requires better.target == m.target && better.actual >= m.actual
    ensures MetricScore(m) <= MetricScore(better)
  {
    if m.target > 0.0 {
      var p, q := Over(m.actual, m.target), Over(better.actual, m.target);
      assert p * m.target == m.actual && q * m.target == better.actual;
      CancelOrder(p, q, m.target);
    }
  }

  lemma {:induction false} WeightedSumMonotone(ms: seq<Metric>, better: seq<Metric>)
    requires Weighted(ms) && Improves(ms, better)
    ensures WeightedSum(ms) <= WeightedSum(better) && TotalWeight(ms) == TotalWeight(better)
  {
    if ms != [] {
      var a, b := ms[|ms| - 1], better[|better| - 1];
      WeightedSumMonotone(ms[..|ms| - 1], better[..|better| - 1]);
      MetricMonotone(a, b);
      ProductMonotone(MetricScore(a), MetricScore(b), a.weight);
    }
  }

  lemma ProductMonotone(x: real, y: real, w: real)
    requires x <= y && w >= 0.0
    ensures Times(x, w) <= Times(y, w)
  {
    assert (y - x) * w >= 0.0;
  }

  lemma AreaScoreMonotone(ms: seq<Metric>, better: seq<Metric>)
    requires Weighted(ms) && Improves(ms, better)
    ensures AreaScore(ms) <= AreaScore(better) && Round2(AreaScore(ms)) <= Round2(AreaScore(better))
  {
    WeightedSumMonotone(ms, better);
    if TotalWeight(ms) > 0.0 {
      AreaScoreIsMean(ms);
      AreaScoreIsMean(better);
      CancelOrder(AreaScore(ms), AreaScore(better), TotalWeight(ms));
    }
    RoundMonotone(AreaScore(ms), AreaScore(better));
  }

  predicate AllImprove(areas: seq<Area>, better: seq<Area>) {
    && |areas| == |better|
    && forall i :: 0 <= i < |areas| ==>
         areas[i].weight >= 0.0 && better[i].weight == areas[i].weight && Weighted(areas[i].metrics)
         && Improves(areas[i].metrics, better[i].metrics)
  }

  /** Raising any actuals, in any areas at once, lowers neither the exact nor the stored overall score. */
  lemma {:induction false} OverallMonotone(areas: seq<Area>, better: seq<Area>)
    requires AllImprove(areas, better)
    ensures Overall(areas) <= Overall(better) && Round2(Overall(areas)) <= Round2(Overall(better))
  {
    if areas != [] {
      var a, b := areas[|areas| - 1], better[|better| - 1];
      OverallMonotone(areas[..|areas| - 1], better[..|better| - 1]);
      AreaScoreMonotone(a.metrics, b.metrics);
      ProductMonotone(AreaScore(a.metrics), AreaScore(b.metrics), Over(a.weight, 100.0));
    }
    RoundMonotone(Overall(areas), Overall(better));
  }

  // ---- Only the proportions of metric weights matter ---------------------------------------------------

  function Rescaled(ms: seq<Metric>, c: real): seq<Metric> {
    if ms == [] then []
    else Rescaled(ms[..|ms| - 1], c) + [ms[|ms| - 1].(weight := Times(c, ms[|ms| - 1].weight))]
  }

  lemma RescaleStep(c: real, score: real, weight: real, total: real, sum: real)
    ensures Times(c, total) + Times(c, weight) == Times(c, total + weight)
    ensures Times(c, sum) + Times(score, Times(c, weight)) == Times(c, sum + Times(score, weight))
  {
    assert score * (c * weight) == c * (score * weight);
  }

  lemma {:induction false} RescaledSums(ms: seq<Metric>, c: real)
    ensures TotalWeight(Rescaled(ms, c)) == Times(c, TotalWeight(ms))
    ensures WeightedSum(Rescaled(ms, c)) == Times(c, WeightedSum(ms))
  {
    if ms != [] {
      var init, last := ms[..|ms| - 1], ms[|ms| - 1];
      var scaled := Rescaled(ms, c);
      RescaledSums(init, c);
      assert scaled[..|scaled| - 1] == Rescaled(init, c);
      assert MetricScore(scaled[|scaled| - 1]) == MetricScore(last);
      RescaleStep(c, MetricScore(last), last.weight, TotalWeight(init), WeightedSum(init));
    }
  }

  lemma RescaledMean(score: real, scaled: real, c: real, total: real, sum: real)
    requires c > 0.0 && total > 0.0
    requires Times(score, total) == sum && Times(scaled, Times(c, total)) == Times(c, sum)
    ensures scaled == score
  {
    assert scaled * (c * total) == c * (scaled * total);
    CancelOrder(scaled * total, sum, c);
    CancelOrder(scaled, score, total);
  }

  lemma PositiveProduct(c: real, x: real)
    requires c > 0.0
    ensures Times(c, x) > 0.0 <==> x > 0.0
  {
    CancelOrder(x, 0.0, c);
  }

  /** Multiplying all metric weights of an area by one positive number leaves its score as it was. */
  lemma RescalingIsIrrelevant(ms: seq<Metric>, c: real)
    requires c > 0.0
    ensures AreaScore(Rescaled(ms, c)) == AreaScore(ms)
  {
    RescaledSums(ms, c);
    PositiveProduct(c, TotalWeight(ms));
    if TotalWeight(ms) > 0.0 {
      AreaScoreIsMean(ms);
      AreaScoreIsMean(Rescaled(ms, c));
      RescaledMean(AreaScore(ms), AreaScore(Rescaled(ms, c)), c, TotalWeight(ms), WeightedSum(ms));
    }
  }

  /** Each area with its metric weights multiplied by a factor of its own. */
  function RescaledAreas(areas: seq<Area>, factors: seq<real>): seq<Area>
    requires |factors| == |areas|
  {
    if areas == [] then []
    else
      var last := areas[|areas| - 1];
      RescaledAreas(areas[..|areas| - 1], factors[..|factors| - 1])
      + [last.(metrics := Rescaled(last.metrics, factors[|factors| - 1]))]
  }

  lemma {:induction false} OverallIgnoresScale(areas: seq<Area>, factors: seq<real>)
    requires |factors| == |areas| && forall i :: 0 <= i < |factors| ==> factors[i] > 0.0
    ensures Overall(RescaledAreas(areas, factors)) == Overall(areas)
  {
    if areas != [] {
      var init, rest := areas[..|areas| - 1], factors[..|factors| - 1];
      OverallIgnoresScale(init, rest);
      RescalingIsIrrelevant(areas[|areas| - 1].metrics, factors[|factors| - 1]);
      var scaled := RescaledAreas(areas, factors);
      assert scaled[..|scaled| - 1] == RescaledAreas(init, rest);
    }
  }

  // ---- Rounding early or late -------------------------------------------------------------------------------

  /** The overall score one would get from the rounded area scores that are stored beside it. */
  function FromRounded(areas: seq<Area>): real {
    if areas == [] then 0.0
    else
      var last := areas[|areas| - 1];
      FromRounded(areas[..|areas| - 1]) + Times(Round2(AreaScore(last.metrics)), Over(last.weight, 100.0))
  }

  lemma PercentDistance(x: real, y: real, weight: real)
    requires -0.005 <= x - y <= 0.005 && weight >= 0.0
    ensures -0.00005 * weight <= Times(x, Over(weight, 100.0)) - Times(y, Over(weight, 100.0)) <= 0.00005 * weight
  {
    var p := Over(weight, 100.0);
    ProductMonotone(x, y + 0.005, p);
    ProductMonotone(y, x + 0.005, p);
    assert Times(y + 0.005, p) == Times(y, p) + 0.005 * p && Times(x + 0.005, p) == Times(x, p) + 0.005 * p;
  }

  lemma {:induction false} RoundedSumDistance(areas: seq<Area>)
    requires forall i :: 0 <= i < |areas| ==> areas[i].weight >= 0.0
    ensures -0.00005 * AreaWeight(areas) <= FromRounded(areas) - Overall(areas) <= 0.00005 * AreaWeight(areas)
  {
    if areas != [] {
      var last := areas[|areas| - 1];
      RoundedSumDistance(areas[..|areas| - 1]);
      RoundIsNear(AreaScore(last.metrics));
      PercentDistance(Round2(AreaScore(last.metrics)), AreaScore(last.metrics), last.weight);
    }
  }

  /** The stored overall score is within 0.005 * (1 + W / 100) of the one its stored area scores give. */
  lemma RoundingBound(areas: seq<Area>)
    requires forall i :: 0 <= i < |areas| ==> areas[i].weight >= 0.0
    ensures var bound := 0.005 * (1.0 + AreaWeight(areas) / 100.0);
            -bound <= Round2(Overall(areas)) - FromRounded(areas) <= bound
  {
    RoundedSumDistance(areas);
    RoundIsNear(Overall(areas));
  }

  // ---- What a score says of the actuals ------------------------------------------------------------------------

  lemma QuotientTimes(actual: real, target: real)
    requires target > 0.0
    ensures Times(Times(Over(actual, target), 100.0), target) == Times(100.0, actual)
  {
    var q := Over(actual, target);
    assert q * target == actual;
    assert (q * 100.0) * target == 100.0 * (q * target);
  }

  /** A metric's score is to 100 as its actual is to its target, until it is met; without a target it is 0. */
  lemma MetricScoreIsProportional(m: Metric)
    ensures m.target > 0.0 && m.actual <= m.target ==> Times(MetricScore(m), m.target) == Times(100.0, m.actual)
    ensures m.target > 0.0 && m.actual >= m.target ==> MetricScore(m) == 100.0
    ensures m.target <= 0.0 ==> MetricScore(m) == 0.0
  {
    if m.target > 0.0 {
      QuotientTimes(m.actual, m.target);
      ScaledQuotient(m.actual, m.target);
    }
  }

  /** Every metric of the area has reached the fraction `f` of its target. */
  predicate Reached(ms: seq<Metric>, f: real) {
    forall i :: 0 <= i < |ms| ==> ms[i].target > 0.0 && ms[i].actual == Times(f, ms[i].target)
  }

  lemma ReachedMetric(m: Metric, f: real)
    requires m.target > 0.0 && m.actual == Times(f, m.target) && f <= 1.0
    ensures MetricScore(m) == Times(100.0, f)
  {
    assert (1.0 - f) * m.target >= 0.0;
    MetricScoreIsProportional(m);
    assert 100.0 * (f * m.target) == (100.0 * f) * m.target;
    CancelOrder(MetricScore(m), Times(100.0, f), m.target);
  }

  lemma {:induction false} ReachedSum(ms: seq<Metric>, f: real)
    requires Reached(ms, f) && f <= 1.0
    ensures WeightedSum(ms) == Times(Times(100.0, f), TotalWeight(ms))
  {
    if ms != [] {
      var init, last := ms[..|ms| - 1], ms[|ms| - 1];
      ReachedSum(init, f);
      ReachedMetric(last, f);
      RescaleStep(Times(100.0, f), 1.0, last.weight, TotalWeight(init), 0.0);
    }
  }

  /** An area whose metrics have all reached the same fraction of their targets scores that fraction of 100. */
  lemma ReachedAreaScore(ms: seq<Metric>, f: real)
    requires Reached(ms, f) && f <= 1.0 && TotalWeight(ms) > 0.0
    ensures AreaScore(ms) == Times(100.0, f)
  {
    AreaScoreIsMean(ms);
    ReachedSum(ms, f);
    CancelOrder(AreaScore(ms), Times(100.0, f), TotalWeight(ms));
  }

  predicate AllReached(areas: seq<Area>, f: real) {
    forall i :: 0 <= i < |areas| ==> Reached(areas[i].metrics, f) && TotalWeight(areas[i].metrics) > 0.0
  }

  lemma PercentOf(f: real, weight: real, total: real)
    ensures Times(f, total) + Times(Times(100.0, f), Over(weight, 100.0)) == Times(f, total + weight)
  {
    var p := Over(weight, 100.0);
    assert p * 100.0 == weight;
    assert (100.0 * f) * p == f * (p * 100.0);
  }

  /** When all metrics have reached one fraction of their targets, the overall score is that of the area weights. */
  lemma {:induction false} ReachedOverall(areas: seq<Area>, f: real)
    requires AllReached(areas, f) && f <= 1.0
    ensures Overall(areas) == Times(f, AreaWeight(areas))
  {
    if areas != [] {
      var init, last := areas[..|areas| - 1], areas[|areas| - 1];
      ReachedOverall(init, f);
      ReachedAreaScore(last.metrics, f);
      PercentOf(f, last.weight, AreaWeight(init));
    }
  }

  /** The same metrics with every actual multiplied by one number. */
  function Worked(ms: seq<Metric>, f: real): seq<Metric> {
    if ms == [] then []
    else Worked(ms[..|ms| - 1], f) + [ms[|ms| - 1].(actual := Times(f, ms[|ms| - 1].actual))]
  }

  predicate Unmet(ms: seq<Metric>) { forall i :: 0 <= i < |ms| ==> ms[i].target <= 0.0 || ms[i].actual <= ms[i].target }

  lemma WorkedMetric(m: Metric, f: real)
    requires 0.0 <= f <= 1.0 && (m.target <= 0.0 || m.actual <= m.target)
    ensures MetricScore(m.(actual := Times(f, m.actual))) == Times(f, MetricScore(m))
  {
    var less := m.(actual := Times(f, m.actual));
    MetricScoreIsProportional(m);
    MetricScoreIsProportional(less);
    if m.target > 0.0 {
      FractionUnder(f, m.actual, m.target);
      assert 100.0 * (f * m.actual) == f * (100.0 * m.actual);
      assert f * (MetricScore(m) * m.target) == (f * MetricScore(m)) * m.target;
      CancelOrder(MetricScore(less), Times(f, MetricScore(m)), m.target);
    }
  }

  lemma FractionUnder(f: real, actual: real, target: real)
    requires 0.0 <= f <= 1.0 && actual <= target && target > 0.0
    ensures Times(f, actual) <= target
  {
    ProductMonotone(actual, target, f);
    assert (1.0 - f) * target >= 0.0;
  }

  lemma {:induction false} WorkedSums(ms: seq<Metric>, f: real)
    requires Unmet(ms) && 0.0 <= f <= 1.0
    ensures TotalWeight(Worked(ms, f)) == TotalWeight(ms) && WeightedSum(Worked(ms, f)) == Times(f, WeightedSum(ms))
  {
    if ms != [] {
      var init, last := ms[..|ms| - 1], ms[|ms| - 1];
      var worked := Worked(ms, f);
      WorkedSums(init, f);
      assert worked[..|worked| - 1] == Worked(init, f);
      WorkedMetric(last, f);
      FactorOut(f, MetricScore(last), last.weight, WeightedSum(init));
    }
  }

  lemma FactorOut(f: real, score: real, weight: real, sum: real)
    ensures Times(f, sum) + Times(Times(f, score), weight) == Times(f, sum + Times(score, weight))
  {
    assert (f * score) * weight == f * (score * weight);
  }

  /** While no target is exceeded, the same fraction of every actual gives that fraction of the area's score. */
  lemma WorkedAreaScore(ms: seq<Metric>, f: real)
    requires Unmet(ms) && 0.0 <= f <= 1.0
    ensures AreaScore(Worked(ms, f)) == Times(f, AreaScore(ms))
  {
    WorkedSums(ms, f);
    var total := TotalWeight(ms);
    if total > 0.0 {
      AreaScoreIsMean(ms);
      AreaScoreIsMean(Worked(ms, f));
      WorkedMean(AreaScore(ms), AreaScore(Worked(ms, f)), f, total, WeightedSum(ms));
    } else {
      assert AreaScore(ms) == 0.0 && AreaScore(Worked(ms, f)) == 0.0;
    }
  }

  lemma WorkedMean(score: real, worked: real, f: real, total: real, sum: real)
    requires total > 0.0 && Times(score, total) == sum && Times(worked, total) == Times(f, sum)
    ensures worked == Times(f, score)
  {
    assert f * (score * total) == (f * score) * total;
    CancelOrder(worked, Times(f, score), total);
  }

  function WorkedAreas(areas: seq<Area>, f: real): seq<Area> {
    if areas == [] then []
    else
      var last := areas[|areas| - 1];
      WorkedAreas(areas[..|areas| - 1], f) + [last.(metrics := Worked(last.metrics, f))]
  }

  /** And that fraction of the overall score, before it is rounded. */
  lemma {:induction false} WorkedOverall(areas: seq<Area>, f: real)
    requires 0.0 <= f <= 1.0 && forall i :: 0 <= i < |areas| ==> Unmet(areas[i].metrics)
    ensures Overall(WorkedAreas(areas, f)) == Times(f, Overall(areas))
  {
    if areas != [] {
      var init, last := areas[..|areas| - 1], areas[|areas| - 1];
      var worked := WorkedAreas(areas, f);
      WorkedOverall(init, f);
      assert worked[..|worked| - 1] == WorkedAreas(init, f);
      WorkedAreaScore(last.metrics, f);
      FactorOut(f, AreaScore(last.metrics), Over(last.weight, 100.0), Overall(init));
    }
  }
}
