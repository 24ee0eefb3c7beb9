/** The rule-based part of the AI monitoring service: the three anomaly rules,
    the weighted impact score and the least-squares trend labelling. Calls to the
    language model are not part of this module. */
module AiMonitoring {
  import opened Types
  import opened Outcomes
  import Numerals

  // ---------------------------------------------------------------------------
  // Anomaly detection
  // ---------------------------------------------------------------------------

  /** Σ of the current carbon sequestration over a history, oldest first. */
  function CarbonSum(history: seq<EnvironmentalMetrics>): real
  {
    if |history| == 0 then 0.0
    else CarbonSum(history[..|history| - 1]) + history[|history| - 1].carbonSequestration.current
  }

  function CarbonMean(history: seq<EnvironmentalMetrics>): real
    requires |history| > 0
  {
    CarbonSum(history) / |history| as real
  }

  function Abs(x: real): (r: real)
    ensures r >= 0.0 && (r == x || r == -x)
  {
    if x < 0.0 then -x else x
  }

  /** The relative deviation of the current carbon value from the historical mean. */
  function CarbonDeviation(current: EnvironmentalMetrics, history: seq<EnvironmentalMetrics>): real
    requires |history| > 0 && CarbonMean(history) != 0.0
  {
    Abs(current.carbonSequestration.current - CarbonMean(history)) / CarbonMean(history)
  }

  const CarbonActions: seq<string> :=
    ["Investigate potential causes", "Review recent land use changes", "Check sensor calibration"]
  const BiodiversityActions: seq<string> :=
    ["Conduct field survey", "Review habitat conditions", "Implement restoration measures"]
  const WaterActions: seq<string> :=
    ["Identify pollution sources", "Collect water samples", "Notify environmental authorities"]

  /** Which of the three rules raised an alert, in evaluation order; read off the
      reading the alert carries as evidence. */
  function RuleOf(a: AIMonitoringAlert): nat
  {
    match a.evidence.data
    case CarbonReading(_) => 0
    case BiodiversityReading(_) => 1
    case WaterReading(_) => 2
  }

  /** An unresolved sensor alert for `zone`, stamped with the clock value `now`. */
  function SensorAlert(zone: CommunityZone, rule: string, kind: AlertType, severity: Severity,
                       description: AlertDescription, reading: Reading, actions: seq<string>,
                       now: nat): AIMonitoringAlert
  {
    AIMonitoringAlert(
      "alert-" + Numerals.Decimal(now) + "-" + rule, zone.id, kind, severity, description, now,
      zone.location, AlertEvidence(Sensor, reading), false, None, actions)
  }

  /** `a` was raised now for `zone` from sensor data, is unresolved, and proposes three actions. */
  predicate RaisedFor(a: AIMonitoringAlert, zone: CommunityZone, now: nat)
  {
    && a.zoneId == zone.id && a.location == zone.location && a.detectedAt == now
    && !a.resolved && a.resolvedAt.None? && a.evidence.kind == Sensor && |a.actions| == 3
  }

  /** What the carbon rule promises of its alert: a "biodiversity change" that is high
      above 40% deviation and medium otherwise, and says which way the value moved. */
  predicate IsCarbonAlert(a: AIMonitoringAlert, current: EnvironmentalMetrics, history: seq<EnvironmentalMetrics>)
    requires |history| > 0 && CarbonMean(history) != 0.0
  {
    var deviation := CarbonDeviation(current, history);
    && a.kind == BiodiversityChange
    && (a.severity == High <==> deviation > 0.4)
    && (a.severity == Medium <==> deviation <= 0.4)
    && a.evidence.data == CarbonReading(current.carbonSequestration)
    && a.description == CarbonShift(current.carbonSequestration.current < CarbonMean(history), deviation)
    && a.actions == CarbonActions
  }

  /** What the biodiversity rule promises: critical below 30, high otherwise. */
  predicate IsBiodiversityAlert(a: AIMonitoringAlert, current: EnvironmentalMetrics)
  {
    var index := current.biodiversity.biodiversityIndex;
    && a.kind == BiodiversityChange
    && (a.severity == Critical <==> index < 30.0)
    && (a.severity == High <==> index >= 30.0)
    && a.evidence.data == BiodiversityReading(current.biodiversity)
    && a.description == LowBiodiversityIndex(index)
    && a.actions == BiodiversityActions
  }

  /** What the water rule promises: a pollution alert, critical below 40, medium otherwise. */
  predicate IsWaterAlert(a: AIMonitoringAlert, current: EnvironmentalMetrics)
  {
    var index := current.waterQuality.index;
    && a.kind == WaterPollution
    && (a.severity == Critical <==> index < 40.0)
    && (a.severity == Medium <==> index >= 40.0)
    && a.evidence.data == WaterReading(current.waterQuality)
    && a.description == LowWaterQuality(index)
    && a.actions == WaterActions
  }

  /** A history that is empty or has a non-zero mean: the histories on which the
      carbon rule never meets an infinite deviation. */
  predicate UsableHistory(history: seq<EnvironmentalMetrics>)
  {
    |history| > 0 ==> CarbonMean(history) != 0.0
  }

  /** Whether the carbon rule fires. An empty history makes the mean 0/0, which is
      NaN, and a comparison with NaN is false, so the rule stays silent. */
  predicate CarbonRuleFires(current: EnvironmentalMetrics, history: seq<EnvironmentalMetrics>)
    requires UsableHistory(history)
  {
    |history| > 0 && CarbonDeviation(current, history) > 0.2
  }

  function CarbonAlerts(zone: CommunityZone, current: EnvironmentalMetrics,
                        history: seq<EnvironmentalMetrics>, now: nat): (r: seq<AIMonitoringAlert>)
    requires UsableHistory(history)
    ensures |r| <= 1 && (|r| == 1 <==> CarbonRuleFires(current, history))
    ensures forall a | a in r ::
      RuleOf(a) == 0 && RaisedFor(a, zone, now) && |history| > 0 && IsCarbonAlert(a, current, history)
  {
    if |history| == 0 then []
    else
      var deviation := CarbonDeviation(current, history);
      var mean := CarbonMean(history);
      if deviation > 0.2 then
        [SensorAlert(zone, "carbon", BiodiversityChange,
                     if deviation > 0.4 then High else Medium,
                     CarbonShift(current.carbonSequestration.current < mean, deviation),
                     CarbonReading(current.carbonSequestration), CarbonActions, now)]
      else []
  }

  function BiodiversityAlerts(zone: CommunityZone, current: EnvironmentalMetrics, now: nat): (r: seq<AIMonitoringAlert>)
    ensures |r| <= 1 && (|r| == 1 <==> current.biodiversity.biodiversityIndex < 50.0)
    ensures forall a | a in r :: RuleOf(a) == 1 && RaisedFor(a, zone, now) && IsBiodiversityAlert(a, current)
  {
    var index := current.biodiversity.biodiversityIndex;
    if index < 50.0 then
      [SensorAlert(zone, "biodiversity", BiodiversityChange,
                   if index < 30.0 then Critical else High,
                   LowBiodiversityIndex(index), BiodiversityReading(current.biodiversity),
                   BiodiversityActions, now)]
    else []
  }

  function WaterAlerts(zone: CommunityZone, current: EnvironmentalMetrics, now: nat): (r: seq<AIMonitoringAlert>)
    ensures |r| <= 1 && (|r| == 1 <==> current.waterQuality.index < 60.0)
    ensures forall a | a in r :: RuleOf(a) == 2 && RaisedFor(a, zone, now) && IsWaterAlert(a, current)
  {
    var index := current.waterQuality.index;
    if index < 60.0 then
      [SensorAlert(zone, "water", WaterPollution,
                   if index < 40.0 then Critical else Medium,
                   LowWaterQuality(index), WaterReading(current.waterQuality), WaterActions, now)]
    else []
  }

  /** Three rule outputs of at most one alert each, concatenated in rule order, are
      strictly ordered by rule, and hold an alert of a rule iff that rule fired. */
  lemma {:induction false} ConcatenatedRules(c: seq<AIMonitoringAlert>, b: seq<AIMonitoringAlert>, w: seq<AIMonitoringAlert>)
    requires |c| <= 1 && |b| <= 1 && |w| <= 1
    requires forall a | a in c :: RuleOf(a) == 0
    requires forall a | a in b :: RuleOf(a) == 1
    requires forall a | a in w :: RuleOf(a) == 2
    ensures var all := c + b + w;
      && (forall i, j | 0 <= i < j < |all| :: RuleOf(all[i]) < RuleOf(all[j]))
      && ((exists a | a in all :: RuleOf(a) == 0) <==> |c| == 1)
      && ((exists a | a in all :: RuleOf(a) == 1) <==> |b| == 1)
      && ((exists a | a in all :: RuleOf(a) == 2) <==> |w| == 1)
  {
    var all := c + b + w;
    forall k | 0 <= k < |all|
      ensures RuleOf(all[k]) == if k < |c| then 0 else if k < |c| + |b| then 1 else 2
    {
      if k < |c| {
        assert all[k] == c[k];
      } else if k < |c| + |b| {
        assert all[k] == b[k - |c|];
      } else {
        assert all[k] == w[k - |c| - |b|];
      }
    }
    if |c| == 1 { assert all[0] == c[0]; }
    if |b| == 1 { assert all[|c|] == b[0]; }
    if |w| == 1 { assert all[|c| + |b|] == w[0]; }
  }

  /** The alerts the three fixed rules raise for the current metrics of a zone. */
  function DetectAnomalies(zone: CommunityZone, current: EnvironmentalMetrics,
                           history: seq<EnvironmentalMetrics>, now: nat): (alerts: seq<AIMonitoringAlert>)
    requires UsableHistory(history)
    ensures forall a | a in alerts :: RaisedFor(a, zone, now)
    // at most one alert per rule, in the order carbon, biodiversity, water
    ensures forall i, j | 0 <= i < j < |alerts| :: RuleOf(alerts[i]) < RuleOf(alerts[j])
    ensures |alerts| <= 3
    ensures (exists a | a in alerts :: RuleOf(a) == 0) <==> CarbonRuleFires(current, history)
    ensures forall a | a in alerts && RuleOf(a) == 0 :: |history| > 0 && IsCarbonAlert(a, current, history)
    ensures (exists a | a in alerts :: RuleOf(a) == 1) <==> current.biodiversity.biodiversityIndex < 50.0
    ensures forall a | a in alerts && RuleOf(a) == 1 :: IsBiodiversityAlert(a, current)
    ensures (exists a | a in alerts :: RuleOf(a) == 2) <==> current.waterQuality.index < 60.0
    ensures forall a | a in alerts && RuleOf(a) == 2 :: IsWaterAlert(a, current)
  {
    var carbon := CarbonAlerts(zone, current, history, now);
    var biodiversity := BiodiversityAlerts(zone, current, now);
    var water := WaterAlerts(zone, current, now);
    ConcatenatedRules(carbon, biodiversity, water);
    carbon + biodiversity + water
  }

  /** Severity never decreases as the carbon deviation grows. */
  lemma CarbonSeverityMonotone(zone: CommunityZone, c1: EnvironmentalMetrics, c2: EnvironmentalMetrics,
                               history: seq<EnvironmentalMetrics>, now: nat)
    requires |history| > 0 && CarbonMean(history) != 0.0
    requires 0.2 < CarbonDeviation(c1, history) <= CarbonDeviation(c2, history)
    ensures var a1, a2 := DetectAnomalies(zone, c1, history, now)[0], DetectAnomalies(zone, c2, history, now)[0];
      RuleOf(a1) == 0 && RuleOf(a2) == 0 && a1.severity.Rank() <= a2.severity.Rank()
  {
  }

  /** Severity never decreases as the biodiversity index falls. */
  lemma BiodiversitySeverityMonotone(zone: CommunityZone, c1: EnvironmentalMetrics, c2: EnvironmentalMetrics,
                                     history: seq<EnvironmentalMetrics>, now: nat, a1: AIMonitoringAlert, a2: AIMonitoringAlert)
    requires UsableHistory(history)
    requires c2.biodiversity.biodiversityIndex <= c1.biodiversity.biodiversityIndex
    requires a1 in DetectAnomalies(zone, c1, history, now) && RuleOf(a1) == 1
    requires a2 in DetectAnomalies(zone, c2, history, now) && RuleOf(a2) == 1
    ensures a1.severity.Rank() <= a2.severity.Rank()
  {
  }

  /** Severity never decreases as the water quality index falls. */
  lemma WaterSeverityMonotone(zone: CommunityZone, c1: EnvironmentalMetrics, c2: EnvironmentalMetrics,
                              history: seq<EnvironmentalMetrics>, now: nat, a1: AIMonitoringAlert, a2: AIMonitoringAlert)
    requires UsableHistory(history)
    requires c2.waterQuality.index <= c1.waterQuality.index
    requires a1 in DetectAnomalies(zone, c1, history, now) && RuleOf(a1) == 2
    requires a2 in DetectAnomalies(zone, c2, history, now) && RuleOf(a2) == 2
    ensures a1.severity.Rank() <= a2.severity.Rank()
  {
  }

  /** A zone with no history yet gets no carbon alert, while the biodiversity and
      water rules still run. */
  lemma EmptyHistoryRaisesNoCarbonAlert(zone: CommunityZone, current: EnvironmentalMetrics, now: nat)
    ensures forall a | a in DetectAnomalies(zone, current, [], now) :: RuleOf(a) != 0
    ensures DetectAnomalies(zone, current, [], now) == BiodiversityAlerts(zone, current, now) + WaterAlerts(zone, current, now)
  {
  }

  /** A snapshot with the given headline values and empty lists. */
  function Snapshot(carbon: real, change: real, biodiversity: real, water: real, fertility: real): EnvironmentalMetrics
  {
    EnvironmentalMetrics(
      CarbonSequestration(carbon, carbon, change),
      BiodiversityMetrics(0, biodiversity, []),
      WaterQuality(water, []),
      SoilHealth(0.0, 0.0, fertility),
      0)
  }

  /** History 400, 410, 420, 430 and current 450: the mean is 415, the deviation
      35/415 stays below 0.2, and with healthy indices nothing is raised. */
  lemma ExampleSmallCarbonDrift(zone: CommunityZone)
    ensures var h := [Snapshot(400.0, 0.0, 80.0, 90.0, 80.0), Snapshot(410.0, 0.0, 80.0, 90.0, 80.0),
                      Snapshot(420.0, 0.0, 80.0, 90.0, 80.0), Snapshot(430.0, 0.0, 80.0, 90.0, 80.0)];
      CarbonMean(h) == 415.0 && DetectAnomalies(zone, Snapshot(450.0, 0.0, 80.0, 90.0, 80.0), h, 0) == []
  {
    var s0, s1, s2, s3 := Snapshot(400.0, 0.0, 80.0, 90.0, 80.0), Snapshot(410.0, 0.0, 80.0, 90.0, 80.0),
                          Snapshot(420.0, 0.0, 80.0, 90.0, 80.0), Snapshot(430.0, 0.0, 80.0, 90.0, 80.0);
    var h := [s0, s1, s2, s3];
    assert h[..3] == [s0, s1, s2] && [s0, s1, s2][..2] == [s0, s1] && [s0, s1][..1] == [s0] && [s0][..0] == [];
    assert CarbonSum([s0]) == 400.0;
    assert CarbonSum([s0, s1]) == 810.0;
    assert CarbonSum([s0, s1, s2]) == 1230.0;
    assert CarbonSum(h) == 1660.0;
  }

  /** A biodiversity index of 28 with otherwise unremarkable metrics raises exactly
      one alert, of critical severity. */
  lemma ExampleCriticalBiodiversity(zone: CommunityZone)
    ensures var alerts := DetectAnomalies(zone, Snapshot(100.0, 0.0, 28.0, 90.0, 80.0),
                                          [Snapshot(100.0, 0.0, 80.0, 90.0, 80.0)], 0);
      |alerts| == 1 && alerts[0].severity == Critical && RuleOf(alerts[0]) == 1
  {
    var h := [Snapshot(100.0, 0.0, 80.0, 90.0, 80.0)];
    assert h[..0] == [];
  }

  // ---------------------------------------------------------------------------
  // Impact score
  // ---------------------------------------------------------------------------

  /** The carbon sub-score: half of (change + 100), capped above at 100 only. */
  function CarbonScore(change: real): real
  {
    var s := (change + 100.0) / 2.0;
    if s < 100.0 then s else 100.0
  }

  /** The unrounded weighted score: weights 0.3, 0.3, 0.2, 0.2. */
  function WeightedImpact(m: EnvironmentalMetrics): real
  {
    CarbonScore(m.carbonSequestration.change) * 0.3
      + m.biodiversity.biodiversityIndex * 0.3
      + m.waterQuality.index * 0.2
      + m.soilHealth.fertility * 0.2
  }

  /** JavaScript's Math.round: the nearest integer, halves rounded up. */
  function Round(x: real): (r: int)
    ensures r as real - 0.5 <= x < r as real + 0.5
  {
    (x + 0.5).Floor
  }

  function CalculateImpactScore(m: EnvironmentalMetrics): (score: int)
    ensures score as real - 0.5 <= WeightedImpact(m) < score as real + 0.5
  {
    Round(WeightedImpact(m))
  }

  /** In-range indices and a change of at least -100% give a score in [0, 100]. */
  lemma ImpactScoreBounds(m: EnvironmentalMetrics)
    requires 0.0 <= m.biodiversity.biodiversityIndex <= 100.0
    requires 0.0 <= m.waterQuality.index <= 100.0
    requires 0.0 <= m.soilHealth.fertility <= 100.0
    requires m.carbonSequestration.change >= -100.0
    ensures 0 <= CalculateImpactScore(m) <= 100
  {
    assert 0.0 <= WeightedImpact(m) <= 100.0;
  }

  /** Without a lower clamp, a steep enough carbon decline drives the score below zero. */
  lemma ImpactScoreHasNoLowerClamp()
    ensures CalculateImpactScore(Snapshot(0.0, -500.0, 0.0, 0.0, 0.0)) == -60
  {
  }

  /** The score never falls when any of its four inputs rises. */
  lemma ImpactScoreMonotone(m1: EnvironmentalMetrics, m2: EnvironmentalMetrics)
    requires m1.carbonSequestration.change <= m2.carbonSequestration.change
    requires m1.biodiversity.biodiversityIndex <= m2.biodiversity.biodiversityIndex
    requires m1.waterQuality.index <= m2.waterQuality.index
    requires m1.soilHealth.fertility <= m2.soilHealth.fertility
    ensures CalculateImpactScore(m1) <= CalculateImpactScore(m2)
  {
    assert WeightedImpact(m1) <= WeightedImpact(m2);
  }

  /** Change 20, biodiversity 80, water 90, fertility 88: 18 + 24 + 18 + 17.6 = 77.6, scored 78. */
  lemma ImpactScoreExample()
    ensures CalculateImpactScore(Snapshot(0.0, 20.0, 80.0, 90.0, 88.0)) == 78
  {
  }

  // ---------------------------------------------------------------------------
  // Least-squares trend
  // ---------------------------------------------------------------------------

  /** Σy over the series. */
  function SumY(data: seq<real>): real
  {
    if |data| == 0 then 0.0 else SumY(data[..|data| - 1]) + data[|data| - 1]
  }

  /** Σx·y over the series, x being the position 0..n-1. */
  function SumXY(data: seq<real>): real
  {
    if |data| == 0 then 0.0 else SumXY(data[..|data| - 1]) + (|data| - 1) as real * data[|data| - 1]
  }

  /** Σx over 0..n-1, added up term by term. */
  function IndexSum(n: nat): real
  {
    if n == 0 then 0.0 else IndexSum(n - 1) + (n - 1) as real
  }

  /** Σx² over 0..n-1, added up term by term. */
  function IndexSquareSum(n: nat): real
  {
    if n == 0 then 0.0 else IndexSquareSum(n - 1) + (n - 1) as real * (n - 1) as real
  }

  /** The closed form the source uses for Σx. */
  function ClosedSumX(n: nat): real
  {
    n as real * (n as real - 1.0) / 2.0
  }

  /** The closed form the source uses for Σx². */
  function ClosedSumX2(n: nat): real
  {
    n as real * (n as real - 1.0) * (2.0 * n as real - 1.0) / 6.0
  }

  /** The least-squares denominator n·Σx² − (Σx)². */
  function Denominator(n: nat): real
  {
    n as real * ClosedSumX2(n) - ClosedSumX(n) * ClosedSumX(n)
  }

  lemma {:induction false} ClosedSumXCorrect(n: nat)
    ensures IndexSum(n) == ClosedSumX(n)
  {
    if n > 0 {
      ClosedSumXCorrect(n - 1);
    }
  }

  lemma {:induction false} ClosedSumX2Correct(n: nat)
    ensures IndexSquareSum(n) == ClosedSumX2(n)
  {
    if n > 0 {
      ClosedSumX2Correct(n - 1);
      SquareSumStep(n as real, (n - 1) as real);
    }
  }

  /** With x = m + 1: x(x−1)(2x−1)/6 == m(m−1)(2m−1)/6 + m². */
  lemma SquareSumStep(x: real, m: real)
    requires x == m + 1.0
    ensures x * (x - 1.0) * (2.0 * x - 1.0) / 6.0 == m * (m - 1.0) * (2.0 * m - 1.0) / 6.0 + m * m
  {
  }

  /** The denominator is n²(n²−1)/12 ... */
  lemma DenominatorClosedForm(n: nat)
    ensures Denominator(n) == n as real * n as real * (n as real * n as real - 1.0) / 12.0
  {
  }

  /** ... so it is positive from two points on. */
  lemma DenominatorPositive(n: nat)
    requires n >= 2
    ensures Denominator(n) > 0.0
  {
    var x := n as real;
    DenominatorClosedForm(n);
    assert x * x >= 4.0 by {
      assert x >= 2.0;
    }
  }

  /** The least-squares numerator n·Σxy − Σx·Σy, with the closed form for Σx. */
  function SlopeNumerator(data: seq<real>): real
  {
    |data| as real * SumXY(data) - ClosedSumX(|data|) * SumY(data)
  }

  /** Slope of the least-squares line through (i, data[i]), with the closed forms
      for Σx and Σx²; 0 below two points. */
  function CalculateTrend(data: seq<real>): (slope: real)
    ensures if |data| < 2 then slope == 0.0 else slope * Denominator(|data|) == SlopeNumerator(data)
  {
    if |data| < 2 then 0.0
    else
      DenominatorPositive(|data|);
      Quotient(SlopeNumerator(data), Denominator(|data|));
      SlopeNumerator(data) / Denominator(|data|)
  }

  /** The slope solves the least-squares normal equation with Σx and Σx² added up
      term by term: slope·(n·Σx² − (Σx)²) == n·Σxy − Σx·Σy. */
  lemma TrendSolvesNormalEquation(data: seq<real>)
    requires |data| >= 2
    ensures var n := |data|;
      CalculateTrend(data) * (n as real * IndexSquareSum(n) - IndexSum(n) * IndexSum(n)) == Numerator(data)
  {
    var n := |data|;
    ClosedSumXCorrect(n);
    ClosedSumX2Correct(n);
    assert n as real * IndexSquareSum(n) - IndexSum(n) * IndexSum(n) == Denominator(n);
    assert Numerator(data) == SlopeNumerator(data);
  }

  lemma Quotient(p: real, d: real)
    requires d > 0.0
    ensures (p / d) * d == p
  {
  }

  /** From `q·d == p` with `d > 0`: `q` has the sign of `p`, and `q == c` when `p == c·d`. */
  lemma QuotientFacts(q: real, d: real, p: real, c: real)
    requires d > 0.0 && q * d == p
    ensures p > 0.0 ==> q > 0.0
    ensures p == c * d ==> q == c
  {
    if p == c * d {
      assert (q - c) * d == 0.0;
    }
  }

  /** What the slope is, read off its numerator: positive with it, and `c` when the
      numerator is `c` times the denominator. */
  lemma TrendFromNumerator(data: seq<real>, c: real)
    requires |data| >= 2
    ensures SlopeNumerator(data) > 0.0 ==> CalculateTrend(data) > 0.0
    ensures SlopeNumerator(data) == c * Denominator(|data|) ==> CalculateTrend(data) == c
  {
    var q, d, p := CalculateTrend(data), Denominator(|data|), SlopeNumerator(data);
    DenominatorPositive(|data|);
    QuotientFacts(q, d, p, c);
  }

  lemma {:induction false} LinearSums(data: seq<real>, a: real, b: real)
    requires forall i | 0 <= i < |data| :: data[i] == a + b * i as real
    ensures SumY(data) == |data| as real * a + b * IndexSum(|data|)
    ensures SumXY(data) == a * IndexSum(|data|) + b * IndexSquareSum(|data|)
  {
    if |data| > 0 {
      var n := |data|;
      var last := data[n - 1];
      LinearSums(data[..n - 1], a, b);
      assert (n - 1) as real * last == a * (n - 1) as real + b * ((n - 1) as real * (n - 1) as real);
    }
  }

  /** With Σy = n·a + b·Σx and Σxy = a·Σx + b·Σx²: n·Σxy − Σx·Σy == b(n·Σx² − (Σx)²). */
  lemma LineNumerator(n: real, a: real, b: real, sx: real, sx2: real, sy: real, sxy: real)
    requires sy == n * a + b * sx && sxy == a * sx + b * sx2
    ensures n * sxy - sx * sy == b * (n * sx2 - sx * sx)
  {
  }

  /** For points on the line y = a + b·x the numerator is b times the denominator. */
  lemma LineSlopeNumerator(data: seq<real>, a: real, b: real)
    requires forall i | 0 <= i < |data| :: data[i] == a + b * i as real
    ensures SlopeNumerator(data) == b * Denominator(|data|)
  {
    var n := |data|;
    LinearSums(data, a, b);
    ClosedSumXCorrect(n);
    ClosedSumX2Correct(n);
    LineNumerator(n as real, a, b, ClosedSumX(n), ClosedSumX2(n), SumY(data), SumXY(data));
  }

  /** Points on the line y = a + b·x have slope exactly b. */
  lemma TrendOfLine(data: seq<real>, a: real, b: real)
    requires |data| >= 2
    requires forall i | 0 <= i < |data| :: data[i] == a + b * i as real
    ensures CalculateTrend(data) == b
  {
    LineSlopeNumerator(data, a, b);
    TrendFromNumerator(data, b);
  }

  /** A constant series has slope 0. */
  lemma TrendOfConstant(data: seq<real>, c: real)
    requires forall i | 0 <= i < |data| :: data[i] == c
    ensures CalculateTrend(data) == 0.0
  {
    if |data| >= 2 {
      TrendOfLine(data, c, 0.0);
    }
  }

  /** Σ over the series of (n − i)·(y − data[i]): what appending y adds to the
      slope's numerator. */
  function Gain(data: seq<real>, y: real): real
  {
    if |data| == 0 then 0.0
    else |data| as real * y - SumY(data) + Gain(data[..|data| - 1], y)
  }

  /** The numerator n·Σxy − Σx·Σy with Σx added up term by term. */
  function Numerator(data: seq<real>): real
  {
    |data| as real * SumXY(data) - IndexSum(|data|) * SumY(data)
  }

  lemma {:induction false} GainIdentity(data: seq<real>, y: real)
    ensures Gain(data, y) == SumXY(data) - |data| as real * SumY(data)
                             + (|data| as real * |data| as real - IndexSum(|data|)) * y
  {
    if |data| > 0 {
      GainIdentity(data[..|data| - 1], y);
    }
  }

  lemma NumeratorStep(data: seq<real>, y: real)
    ensures Numerator(data + [y]) == Numerator(data) + Gain(data, y)
  {
    var s := data + [y];
    assert s[..|s| - 1] == data;
    GainIdentity(data, y);
  }

  lemma {:induction false} SumYBelow(data: seq<real>, y: real)
    requires forall i | 0 <= i < |data| :: data[i] < y
    ensures |data| > 0 ==> SumY(data) < |data| as real * y
    ensures SumY(data) <= |data| as real * y
  {
    if |data| > 0 {
      SumYBelow(data[..|data| - 1], y);
    }
  }

  lemma {:induction false} GainPositive(data: seq<real>, y: real)
    requires forall i | 0 <= i < |data| :: data[i] < y
    ensures Gain(data, y) >= 0.0
    ensures |data| > 0 ==> Gain(data, y) > 0.0
  {
    if |data| > 0 {
      SumYBelow(data, y);
      GainPositive(data[..|data| - 1], y);
    }
  }

  predicate StrictlyIncreasing(data: seq<real>)
  {
    forall i, j | 0 <= i < j < |data| :: data[i] < data[j]
  }

  lemma {:induction false} NumeratorOfIncreasing(data: seq<real>)
    requires StrictlyIncreasing(data)
    ensures Numerator(data) >= 0.0
    ensures |data| >= 2 ==> Numerator(data) > 0.0
  {
    if |data| > 0 {
      var n := |data|;
      var prefix := data[..n - 1];
      assert data == prefix + [data[n - 1]];
      NumeratorOfIncreasing(prefix);
      GainPositive(prefix, data[n - 1]);
      NumeratorStep(prefix, data[n - 1]);
    }
  }

  /** A strictly increasing series of two or more points has a positive slope. */
  lemma TrendOfIncreasing(data: seq<real>)
    requires |data| >= 2 && StrictlyIncreasing(data)
    ensures CalculateTrend(data) > 0.0
  {
    assert SlopeNumerator(data) > 0.0 by {
      NumeratorOfIncreasing(data);
      ClosedSumXCorrect(|data|);
    }
    TrendFromNumerator(data, 0.0);
  }

  // ---------------------------------------------------------------------------
  // Trend prediction
  // ---------------------------------------------------------------------------

  const TrendWindow: nat := 12

  datatype TrendDirection = Increasing | Decreasing | Improving | Declining

  datatype MetricPrediction = MetricPrediction(trend: TrendDirection, projectedChange: real, confidence: real)

  datatype TrendPrediction = TrendPrediction(zoneId: string, carbon: MetricPrediction, biodiversity: MetricPrediction)

  /** The last twelve entries, or all of them when there are fewer. */
  function RecentWindow(history: seq<EnvironmentalMetrics>): (recent: seq<EnvironmentalMetrics>)
    ensures |recent| == if |history| < TrendWindow then |history| else TrendWindow
    ensures recent == history[|history| - |recent|..]
  {
    if |history| <= TrendWindow then history else history[|history| - TrendWindow..]
  }

  function CarbonSeries(history: seq<EnvironmentalMetrics>): (series: seq<real>)
    ensures |series| == |history|
    ensures forall i | 0 <= i < |history| :: series[i] == history[i].carbonSequestration.current
  {
    seq(|history|, i requires 0 <= i < |history| => history[i].carbonSequestration.current)
  }

  function BiodiversitySeries(history: seq<EnvironmentalMetrics>): (series: seq<real>)
    ensures |series| == |history|
    ensures forall i | 0 <= i < |history| :: series[i] == history[i].biodiversity.biodiversityIndex
  {
    seq(|history|, i requires 0 <= i < |history| => history[i].biodiversity.biodiversityIndex)
  }

  /** Trend labels for carbon and biodiversity over the recent window; a zero slope
      is labelled as a decline. An empty history has no last snapshot to base the
      recommendations on, and reading its baseline throws, so there is no
      prediction. */
  function PredictTrends(zone: CommunityZone, history: seq<EnvironmentalMetrics>): (r: Option<TrendPrediction>)
    ensures r.None? <==> |history| == 0
    ensures r.Some? ==> var p := r.value;
      && p.zoneId == zone.id
      && p.carbon.projectedChange == CalculateTrend(CarbonSeries(RecentWindow(history)))
      && p.biodiversity.projectedChange == CalculateTrend(BiodiversitySeries(RecentWindow(history)))
      && p.carbon.trend in {Increasing, Decreasing}
      && (p.carbon.trend == Increasing <==> p.carbon.projectedChange > 0.0)
      && p.biodiversity.trend in {Improving, Declining}
      && (p.biodiversity.trend == Improving <==> p.biodiversity.projectedChange > 0.0)
      && p.carbon.confidence == 0.75 && p.biodiversity.confidence == 0.70
  {
    if |history| == 0 then None
    else
      var recent := RecentWindow(history);
      var carbonTrend := CalculateTrend(CarbonSeries(recent));
      var biodiversityTrend := CalculateTrend(BiodiversitySeries(recent));
      Some(TrendPrediction(
        zone.id,
        MetricPrediction(if carbonTrend > 0.0 then Increasing else Decreasing, carbonTrend, 0.75),
        MetricPrediction(if biodiversityTrend > 0.0 then Improving else Declining, biodiversityTrend, 0.70)))
  }

  /** Only the last twelve snapshots matter: older history never changes the prediction. */
  lemma PredictTrendsIgnoresOlderHistory(zone: CommunityZone, older: seq<EnvironmentalMetrics>,
                                         recent: seq<EnvironmentalMetrics>)
    requires |recent| >= TrendWindow
    ensures PredictTrends(zone, older + recent) == PredictTrends(zone, recent)
  {
    var h := older + recent;
    assert h[|h| - TrendWindow..] == recent[|recent| - TrendWindow..];
  }

  /** A flat carbon history is reported as decreasing, a flat biodiversity history as declining. */
  lemma FlatHistoryReadsAsDecline(zone: CommunityZone, history: seq<EnvironmentalMetrics>)
    requires |history| > 0 && forall i | 0 <= i < |history| :: history[i] == history[0]
    ensures PredictTrends(zone, history).Some?
    ensures PredictTrends(zone, history).value.carbon.trend == Decreasing
    ensures PredictTrends(zone, history).value.biodiversity.trend == Declining
  {
    var recent := RecentWindow(history);
    TrendOfConstant(CarbonSeries(recent), history[0].carbonSequestration.current);
    TrendOfConstant(BiodiversitySeries(recent), history[0].biodiversity.biodiversityIndex);
  }

  /** Strictly rising carbon values over the window are reported as increasing. */
  lemma RisingCarbonReadsAsIncreasing(zone: CommunityZone, history: seq<EnvironmentalMetrics>)
    requires |history| >= 2
    requires StrictlyIncreasing(CarbonSeries(RecentWindow(history)))
    ensures PredictTrends(zone, history).Some?
    ensures PredictTrends(zone, history).value.carbon.trend == Increasing
  {
    TrendOfIncreasing(CarbonSeries(RecentWindow(history)));
  }
}
