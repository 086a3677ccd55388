/**
 * Health assessment (health_assessment.py): orbit classification, inclination, maintenance,
 * uniformity and drift scores, their weighted overall score, the health status and the remarks.
 *
 * A satellite's history is given column by column, oldest row first: inclinations, epoch
 * instants (seconds) and, when the longitudinal drift column exists, drifts. Display colours,
 * rounding and the remark wording are not modelled; remarks are values of `Remark`.
 */
module HealthAssessment {
  import opened Wrappers
  import opened Config
  import opened Stats
  import DriftAnalysis
  import ManeuverDetection

  const DAYS_PER_MONTH: real := 30.0
  /** IGSO drift tolerance: `assess_drift_health`'s default, and the IGSO stability divisor. */
  const IGSO_DRIFT_TOLERANCE: real := 2.0
  /** Samples `calculate_drift_trend` averages at each end of the series. */
  const TREND_WINDOW: nat := 7

  /** Python's `min(a, b)`: `a` unless `b` is smaller. */
  function Min2(a: real, b: real): (r: real)
    ensures r <= a && r <= b && (r == a || r == b)
  {
    if b < a then b else a
  }

  /** Python's `max(a, b)`: `a` unless `b` is larger. */
  function Max2(a: real, b: real): (r: real)
    ensures r >= a && r >= b && (r == a || r == b)
  {
    if b > a then b else a
  }

  // ------------------------------------------------------------ classification and rates

  /** Orbit class from the mean inclination (degrees): GSO strictly between 0 and 10, IGSO from 10. */
  function Classify(meanInclination: real): (t: DriftAnalysis.SatType)
    ensures t == DriftAnalysis.GSO <==> 0.0 < meanInclination < 10.0
    ensures t == DriftAnalysis.IGSO <==> meanInclination >= 10.0
    ensures t == DriftAnalysis.Unclassified <==> meanInclination <= 0.0
  {
    if 0.0 < meanInclination < 10.0 then DriftAnalysis.GSO
    else if meanInclination >= 10.0 then DriftAnalysis.IGSO
    else DriftAnalysis.Unclassified
  }

  /** Whole days between the first and the last epoch of the history. */
  function ObservationDays(epochs: seq<real>): (days: int)
    requires |epochs| > 0
    ensures days >= 0
  {
    MinMaxBound(epochs);
    (Max(epochs) - Min(epochs)).Floor / ManeuverDetection.SECONDS_PER_DAY
  }

  /** Maneuvers per 30-day month of observation; 0 when the history spans no whole day. */
  function ManeuversPerMonth(count: nat, days: int): (rate: real)
    ensures rate >= 0.0
    ensures days > 0 ==> rate * (days as real / DAYS_PER_MONTH) == count as real
    ensures days <= 0 ==> rate == 0.0
  {
    var months := days as real / DAYS_PER_MONTH;
    if months > 0.0 then count as real / months else 0.0
  }

  // ------------------------------------------------------------ component scores

  /** `min(20, std * 10)`; a NaN standard deviation (fewer than two rows) loses the comparison, giving 20. */
  function InclinationStabilityPenalty(std: Option<real>): (p: real)
    ensures p <= 20.0
    ensures std.None? ==> p == 20.0
    ensures std.Some? && 0.0 <= std.value ==> 0.0 <= p
    ensures std.Some? && std.value <= 2.0 ==> p == std.value * 10.0
  {
    if std.None? then 20.0 else Min2(20.0, std.value * 10.0)
  }

  /** 100 less the deviation as a percentage of the tolerance, less the stability penalty, floored at 0. */
  function InclinationScore(deviation: real, std: Option<real>, tolerance: real): (score: real)
    requires tolerance > 0.0
    ensures score >= 0.0
  {
    Max2(0.0, 100.0 - (deviation / tolerance) * 100.0 - InclinationStabilityPenalty(std))
  }

  /**
   * The inclination score reaches 100 exactly when the mean sits on the target and the
   * inclination never varied; it never exceeds 100, and a missing spread caps it at 80.
   */
  lemma InclinationScoreRange(deviation: real, std: Option<real>, tolerance: real)
    requires tolerance > 0.0 && deviation >= 0.0
    requires std.Some? ==> std.value >= 0.0
    ensures InclinationScore(deviation, std, tolerance) <= 100.0
    ensures InclinationScore(deviation, std, tolerance) == 100.0 <==> deviation == 0.0 && std == Some(0.0)
    ensures std.None? ==> InclinationScore(deviation, std, tolerance) <= 80.0
  {
    assert deviation / tolerance >= 0.0;
    if InclinationScore(deviation, std, tolerance) == 100.0 {
      assert deviation / tolerance == 0.0;
    }
  }

  /** A larger deviation or a larger spread never scores better. */
  lemma InclinationScoreMonotone(d1: real, d2: real, s1: real, s2: real, tolerance: real)
    requires tolerance > 0.0 && d1 <= d2 && s1 <= s2
    ensures InclinationScore(d2, Some(s2), tolerance) <= InclinationScore(d1, Some(s1), tolerance)
  {
    assert d1 / tolerance <= d2 / tolerance;
  }

  /**
   * Maintenance score from the maneuver rate: 30 to 70 below the minimum rate (rising with
   * the rate), 100 within [minimum, maximum], and 100 less up to 40 above the maximum.
   */
  function MaintenanceScore(rate: real, minRate: real, maxRate: real): (score: real)
    requires rate >= 0.0 && maxRate > 0.0
    ensures 0.0 <= score <= 100.0
  {
    if rate < minRate then Max2(0.0, 30.0 + (rate / minRate) * 40.0)
    else if rate > maxRate then 100.0 - Min2(40.0, (rate - maxRate) / maxRate * 60.0)
    else 100.0
  }

  lemma FractionBelowOne(a: real, b: real)
    requires 0.0 <= a < b
    ensures 0.0 <= a / b < 1.0
  {
    assert a / b * b == a;
  }

  /** Below the minimum rate the score rises from 30 towards 70. */
  lemma MaintenanceBelowMinimum(rate: real, minRate: real, maxRate: real)
    requires rate >= 0.0 && maxRate > 0.0
    requires rate < minRate
    ensures 30.0 <= MaintenanceScore(rate, minRate, maxRate) < 70.0
  {
    FractionBelowOne(rate, minRate);
  }

  /** Above the maximum rate the penalty is positive and at most 40. */
  lemma MaintenanceAboveMaximum(rate: real, minRate: real, maxRate: real)
    requires rate >= 0.0 && maxRate > 0.0
    requires rate > maxRate && rate >= minRate
    ensures 60.0 <= MaintenanceScore(rate, minRate, maxRate) < 100.0
  {
  }

  /** The three maintenance bands; 100 exactly within [minimum, maximum]. */
  lemma MaintenanceBands(rate: real, minRate: real, maxRate: real)
    requires rate >= 0.0 && maxRate > 0.0
    ensures rate < minRate ==> 30.0 <= MaintenanceScore(rate, minRate, maxRate) < 70.0
    ensures rate > maxRate && rate >= minRate ==> 60.0 <= MaintenanceScore(rate, minRate, maxRate) < 100.0
    ensures MaintenanceScore(rate, minRate, maxRate) == 100.0 <==> minRate <= rate <= maxRate
  {
    if rate < minRate {
      MaintenanceBelowMinimum(rate, minRate, maxRate);
    } else if rate > maxRate {
      MaintenanceAboveMaximum(rate, minRate, maxRate);
    }
  }

  /**
   * Uniformity score: with two or more maneuvers, 100 when the coefficient of variation is
   * within the threshold, down to 50 beyond it, and 50 when it is undefined; 50 for a single
   * maneuver and 0 for none.
   */
  function UniformityScore(count: nat, cov: Option<real>, threshold: real): (score: real)
    requires threshold > 0.0
    ensures 0.0 <= score <= 100.0
  {
    if count >= 2 then
      if cov.Some? && cov.value <= threshold then 100.0
      else if cov.Some? then 100.0 - Min2(50.0, ((cov.value - threshold) / threshold) * 50.0)
      else 50.0
    else if count == 1 then 50.0
    else 0.0
  }

  /** Uniformity scores by band. */
  lemma UniformityBands(count: nat, cov: Option<real>, threshold: real)
    requires threshold > 0.0
    ensures count >= 2 ==> 50.0 <= UniformityScore(count, cov, threshold)
    ensures UniformityScore(count, cov, threshold) == 100.0 <==> count >= 2 && cov.Some? && cov.value <= threshold
    ensures count == 0 ==> UniformityScore(count, cov, threshold) == 0.0
    ensures count == 1 ==> UniformityScore(count, cov, threshold) == 50.0
  {
    if count >= 2 && cov.Some? && cov.value > threshold {
      assert (cov.value - threshold) / threshold > 0.0;
    }
  }

  // ------------------------------------------------------------ drift score

  /** The drift score after the station-keeping stability penalty (a NaN spread gives no penalty). */
  function StabilityPenalised(base: real, satType: DriftAnalysis.SatType, std: Option<real>, toleranceGso: real): real
    requires toleranceGso > 0.0
  {
    if std.None? then base
    else if satType == DriftAnalysis.GSO then
      var stability := std.value / toleranceGso;
      if stability > 2.0 then Max2(0.0, base - Min2(30.0, (stability - 2.0) * 10.0)) else base
    else if satType == DriftAnalysis.IGSO then
      var stability := std.value / IGSO_DRIFT_TOLERANCE;
      if stability > 1.0 then Max2(0.0, base - Min2(20.0, (stability - 1.0) * 10.0)) else base
    else base
  }

  /** The drift score after the trend adjustment: -10 floored at 0 when the drift grows, +5 capped at 100 when it shrinks. */
  function TrendAdjusted(score: real, trend: real): real {
    if trend > 0.01 then Max2(0.0, score - 10.0)
    else if trend < -0.01 then Min2(100.0, score + 5.0)
    else score
  }

  /** The stability penalty takes at most 30 points from a GSO, at most 20 from an IGSO and none otherwise. */
  lemma StabilityPenaltyBounds(base: real, satType: DriftAnalysis.SatType, std: Option<real>, toleranceGso: real)
    requires toleranceGso > 0.0 && base >= 0.0
    ensures var r := StabilityPenalised(base, satType, std, toleranceGso);
      && 0.0 <= r <= base
      && (satType == DriftAnalysis.GSO ==> base - 30.0 <= r)
      && (satType == DriftAnalysis.IGSO ==> base - 20.0 <= r)
      && (satType == DriftAnalysis.Unclassified || std.None? ==> r == base)
  {
  }

  /** A more variable drift never scores better. */
  lemma StabilityPenaltyMonotone(base: real, satType: DriftAnalysis.SatType, s1: real, s2: real, toleranceGso: real)
    requires toleranceGso > 0.0 && base >= 0.0 && s1 <= s2
    ensures StabilityPenalised(base, satType, Some(s2), toleranceGso) <= StabilityPenalised(base, satType, Some(s1), toleranceGso)
  {
    assert s1 / toleranceGso <= s2 / toleranceGso;
  }

  /** The trend adjustment keeps a score in [0, 100] and moves it in the direction of improvement. */
  lemma TrendAdjustmentBounds(score: real, trend: real)
    requires 0.0 <= score <= 100.0
    ensures 0.0 <= TrendAdjusted(score, trend) <= 100.0
    ensures trend > 0.01 ==> TrendAdjusted(score, trend) <= score
    ensures trend < -0.01 ==> TrendAdjusted(score, trend) >= score
    ensures -0.01 <= trend <= 0.01 ==> TrendAdjusted(score, trend) == score
  {
  }

  /** Drift score: the table score, reassigned by the stability penalty and then by the trend adjustment. */
  method AdjustDriftScore(base: real, satType: DriftAnalysis.SatType, std: Option<real>, trend: real, toleranceGso: real)
    returns (score: real)
    requires toleranceGso > 0.0
    requires 0.0 <= base <= 100.0
    ensures score == TrendAdjusted(StabilityPenalised(base, satType, std, toleranceGso), trend)
    ensures 0.0 <= score <= 100.0
  {
    score := base;
    if satType == DriftAnalysis.GSO && std.Some? {
      var stability := std.value / toleranceGso;
      if stability > 2.0 {
        score := Max2(0.0, score - Min2(30.0, (stability - 2.0) * 10.0));
      }
    } else if satType == DriftAnalysis.IGSO && std.Some? {
      var stability := std.value / IGSO_DRIFT_TOLERANCE;
      if stability > 1.0 {
        score := Max2(0.0, score - Min2(20.0, (stability - 1.0) * 10.0));
      }
    }
    StabilityPenaltyBounds(base, satType, std, toleranceGso);
    if trend > 0.01 {
      score := Max2(0.0, score - 10.0);
    } else if trend < -0.01 {
      score := Min2(100.0, score + 5.0);
    }
  }

  // ------------------------------------------------------------ overall score and status

  /** Weights of the inclination, maintenance, uniformity and drift scores, by which of the optional two exist. */
  datatype Weights = Weights(inclination: real, maintenance: real, uniformity: real, drift: real)

  function WeightsFor(hasInclination: bool, hasDrift: bool): (w: Weights)
    ensures w.inclination + w.maintenance + w.uniformity + w.drift == 1.0
    ensures w.inclination >= 0.0 && w.maintenance > 0.0 && w.uniformity > 0.0 && w.drift >= 0.0
    ensures w.inclination > 0.0 <==> hasInclination
    ensures w.drift > 0.0 <==> hasDrift
  {
    if hasInclination && hasDrift then Weights(0.35, 0.25, 0.15, 0.25)
    else if hasInclination then Weights(0.5, 0.3, 0.2, 0.0)
    else if hasDrift then Weights(0.0, 0.4, 0.2, 0.4)
    else Weights(0.0, 0.6, 0.4, 0.0)
  }

  /** Weighted sum of the component scores that exist. */
  function OverallScore(inclination: Option<real>, maintenance: real, uniformity: real, drift: Option<real>): real {
    var w := WeightsFor(inclination.Some?, drift.Some?);
    w.inclination * inclination.GetOr(0.0) + w.maintenance * maintenance
      + w.uniformity * uniformity + w.drift * drift.GetOr(0.0)
  }

  /** The overall score lies between the lowest and the highest component score that takes part. */
  lemma OverallWithinComponents(inclination: Option<real>, maintenance: real, uniformity: real, drift: Option<real>, lo: real, hi: real)
    requires lo <= maintenance <= hi && lo <= uniformity <= hi
    requires inclination.Some? ==> lo <= inclination.value <= hi
    requires drift.Some? ==> lo <= drift.value <= hi
    ensures lo <= OverallScore(inclination, maintenance, uniformity, drift) <= hi
  {
    var m, u := maintenance, uniformity;
    if inclination.Some? && drift.Some? {
      var i, d := inclination.value, drift.value;
      assert lo <= 0.35 * i + 0.25 * m + 0.15 * u + 0.25 * d <= hi;
    } else if inclination.Some? {
      var i := inclination.value;
      assert lo <= 0.5 * i + 0.3 * m + 0.2 * u + 0.0 * 0.0 <= hi;
    } else if drift.Some? {
      var d := drift.value;
      assert lo <= 0.0 * 0.0 + 0.4 * m + 0.2 * u + 0.4 * d <= hi;
    } else {
      assert lo <= 0.0 * 0.0 + 0.6 * m + 0.4 * u + 0.0 * 0.0 <= hi;
    }
  }

  datatype HealthStatus = HealthExcellent | HealthGood | HealthFair | NeedsAttention

  /** Health status bands: from 85 Excellent, from 70 Good, from 50 Fair, below that Needs Attention. */
  function StatusOf(overall: real): HealthStatus {
    if overall >= 85.0 then HealthExcellent
    else if overall >= 70.0 then HealthGood
    else if overall >= 50.0 then HealthFair
    else NeedsAttention
  }

  function StatusRank(s: HealthStatus): nat {
    match s
    case HealthExcellent => 3
    case HealthGood => 2
    case HealthFair => 1
    case NeedsAttention => 0
  }

  /** A higher overall score never gets a worse status, and each status covers its band exactly. */
  lemma StatusBands(a: real, b: real)
    requires a <= b
    ensures StatusRank(StatusOf(a)) <= StatusRank(StatusOf(b))
    ensures StatusOf(a) == HealthExcellent <==> a >= 85.0
    ensures StatusOf(a) == HealthGood <==> 70.0 <= a < 85.0
    ensures StatusOf(a) == HealthFair <==> 50.0 <= a < 70.0
    ensures StatusOf(a) == NeedsAttention <==> a < 50.0
  {
  }

  // ------------------------------------------------------------ remarks

  /** One remark per kind the assessment can emit, with the value it reports. */
  datatype Remark =
    | ExcellentInclinationControl(deviation: real)
    | InclinationWithinTolerance(deviation: real)
    | InclinationExceedsTolerance(deviation: real)
    | ExcellentStationKeeping(absDrift: real)
    | GoodDriftControl(absDrift: real)
    | ModerateDrift(absDrift: real)
    | HighDriftNeedsCorrection(absDrift: real)
    | CriticalDrift(absDrift: real)
    | DriftingEastward(absDrift: real)
    | DriftingWestward(absDrift: real)
    | NormalIgsoDrift(absDrift: real)
    | ElevatedIgsoDrift(absDrift: real)
    | HighIgsoDrift(absDrift: real)
    | DriftMagnitudeIncreasing(trend: real)
    | DriftMagnitudeDecreasing(trend: real)
    | UnstableDrift(std: real)
    | ModerateDriftVariability(std: real)
    | LowMaintenanceActivity(rate: real)
    | HighCorrectionFrequency(rate: real)
    | ActiveMaintenance(rate: real)
    | RegularManeuverPattern
    | IrregularManeuverSpacing
    | StableOrbitalParameters

  predicate IsMaintenanceRemark(r: Remark) {
    r.LowMaintenanceActivity? || r.HighCorrectionFrequency? || r.ActiveMaintenance?
  }

  predicate IsInclinationRemark(r: Remark) {
    r.ExcellentInclinationControl? || r.InclinationWithinTolerance? || r.InclinationExceedsTolerance?
  }

  /** What the drift section of the assessment knows about the drift column. */
  datatype DriftSummary = DriftSummary(
    mean: real, std: Option<real>, current: real, trend: real,
    assessment: DriftAnalysis.DriftAssessment, score: real)

  function InclinationRemarks(deviation: Option<real>, tolerance: real): (rs: seq<Remark>)
    ensures |rs| == if deviation.Some? then 1 else 0
    ensures forall k :: 0 <= k < |rs| ==> IsInclinationRemark(rs[k])
  {
    if deviation.None? then []
    else if deviation.value <= tolerance * 0.3 then [ExcellentInclinationControl(deviation.value)]
    else if deviation.value <= tolerance then [InclinationWithinTolerance(deviation.value)]
    else [InclinationExceedsTolerance(deviation.value)]
  }

  /** Status remark of the drift table (none for an unclassified orbit). */
  function DriftStatusRemarks(satType: DriftAnalysis.SatType, a: DriftAnalysis.DriftAssessment): seq<Remark> {
    var x := a.absDrift;
    if satType == DriftAnalysis.GSO then
      match a.status
      case Excellent => [ExcellentStationKeeping(x)]
      case Good => [GoodDriftControl(x)]
      case Fair => [ModerateDrift(x)]
      case Poor => [HighDriftNeedsCorrection(x)]
      case _ => [CriticalDrift(x)]
    else if satType == DriftAnalysis.IGSO then
      match a.status
      case Normal => [NormalIgsoDrift(x)]
      case Elevated => [ElevatedIgsoDrift(x)]
      case _ => [HighIgsoDrift(x)]
    else []
  }

  function DirectionRemarks(satType: DriftAnalysis.SatType, mean: real): seq<Remark> {
    if satType != DriftAnalysis.GSO then []
    else if mean > 0.0 then [DriftingEastward(Abs(mean))]
    else if mean < 0.0 then [DriftingWestward(Abs(mean))]
    else []
  }

  function TrendRemarks(trend: real): seq<Remark> {
    if trend > 0.01 then [DriftMagnitudeIncreasing(trend)]
    else if trend < -0.01 then [DriftMagnitudeDecreasing(trend)]
    else []
  }

  function VariabilityRemarks(satType: DriftAnalysis.SatType, std: Option<real>, toleranceGso: real): seq<Remark> {
    if satType != DriftAnalysis.GSO || std.None? then []
    else if std.value > toleranceGso then [UnstableDrift(std.value)]
    else if std.value > toleranceGso * 0.5 then [ModerateDriftVariability(std.value)]
    else []
  }

  function MaintenanceRemark(rate: real, minRate: real, maxRate: real): (r: Remark)
    ensures IsMaintenanceRemark(r)
  {
    if rate < minRate then LowMaintenanceActivity(rate)
    else if rate > maxRate then HighCorrectionFrequency(rate)
    else ActiveMaintenance(rate)
  }

  function UniformityRemarks(cov: Option<real>, threshold: real): seq<Remark> {
    if cov.None? then []
    else if cov.value <= threshold then [RegularManeuverPattern]
    else [IrregularManeuverSpacing]
  }

  function StabilityRemarks(stdInclination: Option<real>): seq<Remark> {
    if stdInclination.Some? && stdInclination.value < 0.1 then [StableOrbitalParameters] else []
  }

  /** Appends the inclination remark, when the satellite has a target inclination. */
  method AppendInclinationRemark(remarks: seq<Remark>, deviation: Option<real>, tolerance: real)
    returns (out: seq<Remark>)
    ensures out == remarks + InclinationRemarks(deviation, tolerance)
  {
    out := remarks;
    if deviation.Some? {
      if deviation.value <= tolerance * 0.3 {
        out := out + [ExcellentInclinationControl(deviation.value)];
      } else if deviation.value <= tolerance {
        out := out + [InclinationWithinTolerance(deviation.value)];
      } else {
        out := out + [InclinationExceedsTolerance(deviation.value)];
      }
    }
  }

  /** Appends the drift remarks: table status, direction (GSO only), trend, variability (GSO only). */
  method AppendDriftRemarks(remarks: seq<Remark>, satType: DriftAnalysis.SatType, d: DriftSummary, toleranceGso: real)
    returns (out: seq<Remark>)
    ensures out == remarks + DriftStatusRemarks(satType, d.assessment) + DirectionRemarks(satType, d.mean)
      + TrendRemarks(d.trend) + VariabilityRemarks(satType, d.std, toleranceGso)
  {
    out := remarks;
    var x := d.assessment.absDrift;
    if satType == DriftAnalysis.GSO {
      match d.assessment.status {
        case Excellent => out := out + [ExcellentStationKeeping(x)];
        case Good => out := out + [GoodDriftControl(x)];
        case Fair => out := out + [ModerateDrift(x)];
        case Poor => out := out + [HighDriftNeedsCorrection(x)];
        case _ => out := out + [CriticalDrift(x)];
      }
      if d.mean > 0.0 {
        out := out + [DriftingEastward(Abs(d.mean))];
      } else if d.mean < 0.0 {
        out := out + [DriftingWestward(Abs(d.mean))];
      }
    } else if satType == DriftAnalysis.IGSO {
      match d.assessment.status {
        case Normal => out := out + [NormalIgsoDrift(x)];
        case Elevated => out := out + [ElevatedIgsoDrift(x)];
        case _ => out := out + [HighIgsoDrift(x)];
      }
    }
    ghost var afterStatus := out;
    assert afterStatus == remarks + DriftStatusRemarks(satType, d.assessment) + DirectionRemarks(satType, d.mean);
    if d.trend > 0.01 {
      out := out + [DriftMagnitudeIncreasing(d.trend)];
    } else if d.trend < -0.01 {
      out := out + [DriftMagnitudeDecreasing(d.trend)];
    }
    ghost var afterTrend := out;
    assert afterTrend == afterStatus + TrendRemarks(d.trend);
    if satType == DriftAnalysis.GSO && d.std.Some? {
      if d.std.value > toleranceGso {
        out := out + [UnstableDrift(d.std.value)];
      } else if d.std.value > toleranceGso * 0.5 {
        out := out + [ModerateDriftVariability(d.std.value)];
      }
    }
    assert out == afterTrend + VariabilityRemarks(satType, d.std, toleranceGso);
  }

  lemma AppendAssociative(a: seq<Remark>, b: seq<Remark>, c: seq<Remark>)
    ensures a + (b + c) == a + b + c
  {
  }

  function DriftRemarks(satType: DriftAnalysis.SatType, d: DriftSummary, toleranceGso: real): seq<Remark> {
    DriftStatusRemarks(satType, d.assessment) + DirectionRemarks(satType, d.mean)
      + TrendRemarks(d.trend) + VariabilityRemarks(satType, d.std, toleranceGso)
  }

  /**
   * The remark list in the order the assessment appends: inclination, drift (only with a
   * drift column), maintenance, uniformity, stability.
   */
  method BuildRemarks(
    deviation: Option<real>, inclinationTolerance: real, satType: DriftAnalysis.SatType,
    drift: Option<DriftSummary>, toleranceGso: real,
    rate: real, minRate: real, maxRate: real,
    cov: Option<real>, uniformityThreshold: real, stdInclination: Option<real>)
    returns (remarks: seq<Remark>)
    ensures remarks ==
      InclinationRemarks(deviation, inclinationTolerance)
      + (if drift.Some? then DriftRemarks(satType, drift.value, toleranceGso) else [])
      + [MaintenanceRemark(rate, minRate, maxRate)]
      + UniformityRemarks(cov, uniformityThreshold)
      + StabilityRemarks(stdInclination)
  {
    remarks := AppendInclinationRemark([], deviation, inclinationTolerance);
    assert [] + InclinationRemarks(deviation, inclinationTolerance) == InclinationRemarks(deviation, inclinationTolerance);
    if drift.Some? {
      var d := drift.value;
      ghost var before := remarks;
      remarks := AppendDriftRemarks(remarks, satType, d, toleranceGso);
      ghost var s, r, t, v := DriftStatusRemarks(satType, d.assessment), DirectionRemarks(satType, d.mean),
        TrendRemarks(d.trend), VariabilityRemarks(satType, d.std, toleranceGso);
      AppendAssociative(before, s + r + t, v);
      AppendAssociative(before, s + r, t);
      AppendAssociative(before, s, r);
    } else {
      assert remarks + [] == remarks;
    }
    var maintenance: Remark;
    if rate < minRate {
      maintenance := LowMaintenanceActivity(rate);
    } else if rate > maxRate {
      maintenance := HighCorrectionFrequency(rate);
    } else {
      maintenance := ActiveMaintenance(rate);
    }
    remarks := remarks + [maintenance];
    if cov.Some? {
      if cov.value <= uniformityThreshold {
        remarks := remarks + [RegularManeuverPattern];
      } else {
        remarks := remarks + [IrregularManeuverSpacing];
      }
    } else {
      assert remarks + [] == remarks;
    }
    if stdInclination.Some? && stdInclination.value < 0.1 {
      remarks := remarks + [StableOrbitalParameters];
    } else {
      assert remarks + [] == remarks;
    }
  }

  /** The maintenance remark says what the maintenance score says: active exactly when the score is 100, low exactly when it is below 70 for a rate under the minimum. */
  lemma MaintenanceRemarkMatchesScore(rate: real, minRate: real, maxRate: real)
    requires rate >= 0.0 && maxRate > 0.0
    ensures MaintenanceRemark(rate, minRate, maxRate).ActiveMaintenance? <==> MaintenanceScore(rate, minRate, maxRate) == 100.0
    ensures MaintenanceRemark(rate, minRate, maxRate).LowMaintenanceActivity? ==> MaintenanceScore(rate, minRate, maxRate) < 70.0
  {
    MaintenanceBands(rate, minRate, maxRate);
  }

  /** The uniformity remark is the regular pattern exactly when the uniformity score is 100. */
  lemma UniformityRemarkMatchesScore(count: nat, cov: Option<real>, threshold: real)
    requires threshold > 0.0
    requires count < 2 ==> cov.None?
    ensures RegularManeuverPattern in UniformityRemarks(cov, threshold) <==> UniformityScore(count, cov, threshold) == 100.0
  {
    UniformityBands(count, cov, threshold);
  }

  /** A GSO direction remark agrees with the drift direction label. */
  lemma DirectionRemarkMatchesDirection(mean: real)
    ensures DirectionRemarks(DriftAnalysis.GSO, mean) == [DriftingEastward(Abs(mean))] <==> DriftAnalysis.DriftDirection(mean) == DriftAnalysis.Eastward
    ensures DirectionRemarks(DriftAnalysis.GSO, mean) == [DriftingWestward(Abs(mean))] <==> DriftAnalysis.DriftDirection(mean) == DriftAnalysis.Westward
    ensures DirectionRemarks(DriftAnalysis.GSO, mean) == [] <==> DriftAnalysis.DriftDirection(mean) == DriftAnalysis.Stable
  {
  }

  /** A drift status remark names the label the drift table assigned. */
  lemma StatusRemarkMatchesTable(drift: real, satType: DriftAnalysis.SatType, toleranceGso: real)
    requires toleranceGso > 0.0
    ensures var a := DriftAnalysis.AssessDriftHealth(drift, satType, toleranceGso, IGSO_DRIFT_TOLERANCE);
      && (satType == DriftAnalysis.GSO ==>
            && (DriftStatusRemarks(satType, a) == [ExcellentStationKeeping(Abs(drift))] <==> Abs(drift) <= 0.3 * toleranceGso)
            && (DriftStatusRemarks(satType, a) == [CriticalDrift(Abs(drift))] <==> Abs(drift) > 5.0 * toleranceGso))
      && (satType == DriftAnalysis.IGSO ==>
            (DriftStatusRemarks(satType, a) == [NormalIgsoDrift(Abs(drift))] <==> Abs(drift) <= IGSO_DRIFT_TOLERANCE))
      && (satType == DriftAnalysis.Unclassified ==> DriftStatusRemarks(satType, a) == [])
  {
    if satType == DriftAnalysis.GSO {
      DriftAnalysis.GsoBands(drift, toleranceGso, IGSO_DRIFT_TOLERANCE);
    } else {
      DriftAnalysis.IgsoBands(drift, satType, toleranceGso, IGSO_DRIFT_TOLERANCE);
    }
    DriftAnalysis.ScoreMatchesStatus(drift, satType, toleranceGso, IGSO_DRIFT_TOLERANCE);
  }

  // ------------------------------------------------------------ the assessment

  /** One detected maneuver: its epoch (seconds) and its E-W and N-S flags. */
  datatype ManeuverEvent = ManeuverEvent(epoch: real, ew: bool, ns: bool)

  /**
   * The assessment record (display columns without their colours and rounding). The target,
   * the deviation and the CoV are shown only when they are truthy, so an exact 0.0 reads as N/A
   * there like a missing value; the drift columns are tested against None and keep a 0.0.
   */
  datatype Health = Health(
    name: string, satType: DriftAnalysis.SatType, status: HealthStatus, overall: real,
    target: Option<real>, meanInclination: real, deviation: Option<real>,
    meanDrift: Option<real>, currentDrift: Option<real>, driftStatus: Option<DriftAnalysis.DriftStatus>,
    rate: real, ewCount: nat, nsCount: nat, cov: Option<real>, remarks: seq<Remark>)

  /** Python's `x if x else "N/A"` on an optional float: a missing value and an exact 0.0 both read as N/A. */
  function Reported(x: Option<real>): (r: Option<real>)
    ensures r.Some? <==> x.Some? && x.value != 0.0
    ensures r.Some? ==> r == x
  {
    if x.Some? && x.value != 0.0 then x else None
  }

  /** Distance of the mean inclination from the satellite's target, None without a target. */
  function InclinationDeviation(name: string, meanInclination: real): (r: Option<real>)
    ensures r.Some? <==> TargetInclination(name).Some?
    ensures r.Some? ==> r.value >= 0.0
  {
    var target := TargetInclination(name);
    if target.Some? then Some(Abs(meanInclination - target.value)) else None
  }

  /** `sum()` of a boolean column. */
  function CountEw(events: seq<ManeuverEvent>): (n: nat)
    ensures n <= |events|
  {
    if events == [] then 0 else (if events[0].ew then 1 else 0) + CountEw(events[1..])
  }

  function CountNs(events: seq<ManeuverEvent>): (n: nat)
    ensures n <= |events|
  {
    if events == [] then 0 else (if events[0].ns then 1 else 0) + CountNs(events[1..])
  }

  function Epochs(events: seq<ManeuverEvent>): (t: seq<real>)
    ensures |t| == |events|
    ensures forall k :: 0 <= k < |events| ==> t[k] == events[k].epoch
  {
    seq(|events|, k requires 0 <= k < |events| => events[k].epoch)
  }

  /** Sample standard deviation, NaN (None) below two rows. */
  function SampleStd(s: seq<real>, sqrt: real -> real): (r: Option<real>)
    ensures r.Some? <==> |s| >= 2
  {
    var v := SampleVariance(s);
    if v.Some? then Some(sqrt(v.value)) else None
  }

  /** Assessment parameters: inclination tolerance, maneuver-rate bounds, uniformity threshold, GSO drift tolerance. */
  datatype Thresholds = Thresholds(
    inclinationTolerance: real, minRate: real, maxRate: real,
    uniformityThreshold: real, driftToleranceGso: real)

  predicate ValidThresholds(t: Thresholds) {
    t.inclinationTolerance > 0.0 && t.maxRate > 0.0 && t.uniformityThreshold > 0.0 && t.driftToleranceGso > 0.0
  }

  /**
   * The drift block of the assessment as a value: the table verdict on the mean drift, whose
   * score the stability penalty and then the trend adjustment move, never leaving [0, 100].
   */
  function DriftSummaryOf(ds: seq<real>, satType: DriftAnalysis.SatType, toleranceGso: real, sqrt: real -> real): (d: DriftSummary)
    requires |ds| > 0 && toleranceGso > 0.0
    ensures 0.0 <= d.score <= 100.0
    ensures d.score <= d.assessment.score as real + 5.0
  {
    var mean := Mean(ds);
    var std := SampleStd(ds, sqrt);
    var trend := DriftAnalysis.DriftTrend(ds, TREND_WINDOW);
    var a := DriftAnalysis.AssessDriftHealth(mean, satType, toleranceGso, IGSO_DRIFT_TOLERANCE);
    DriftAnalysis.ScoreMatchesStatus(mean, satType, toleranceGso, IGSO_DRIFT_TOLERANCE);
    StabilityPenaltyBounds(a.score as real, satType, std, toleranceGso);
    var penalised := StabilityPenalised(a.score as real, satType, std, toleranceGso);
    TrendAdjustmentBounds(penalised, trend);
    DriftSummary(mean, std, ds[|ds| - 1], trend, a, TrendAdjusted(penalised, trend))
  }

  /** The drift block of the assessment: mean, sample deviation, last value, trend, table verdict and adjusted score. */
  method SummarizeDrift(ds: seq<real>, satType: DriftAnalysis.SatType, toleranceGso: real, sqrt: real -> real)
    returns (d: DriftSummary)
    requires |ds| > 0 && toleranceGso > 0.0
    ensures d == DriftSummaryOf(ds, satType, toleranceGso, sqrt)
    ensures d.mean == Mean(ds) && d.std == SampleStd(ds, sqrt) && d.current == ds[|ds| - 1]
    ensures d.trend == DriftAnalysis.DriftTrend(ds, TREND_WINDOW)
    ensures d.assessment == DriftAnalysis.AssessDriftHealth(d.mean, satType, toleranceGso, IGSO_DRIFT_TOLERANCE)
    ensures d.score == TrendAdjusted(StabilityPenalised(d.assessment.score as real, satType, d.std, toleranceGso), d.trend)
    ensures 0.0 <= d.score <= 100.0
  {
    var meanDrift := Mean(ds);
    var stdDrift := SampleStd(ds, sqrt);
    var trend := DriftAnalysis.DriftTrend(ds, TREND_WINDOW);
    var a := DriftAnalysis.AssessDriftHealth(meanDrift, satType, toleranceGso, IGSO_DRIFT_TOLERANCE);
    DriftAnalysis.ScoreMatchesStatus(meanDrift, satType, toleranceGso, IGSO_DRIFT_TOLERANCE);
    var score := AdjustDriftScore(a.score as real, satType, stdDrift, trend, toleranceGso);
    d := DriftSummary(meanDrift, stdDrift, ds[|ds| - 1], trend, a, score);
  }

  /** The maintenance remark sits right after the inclination and drift remarks. */
  lemma MaintenanceRemarkPresent(a: seq<Remark>, b: seq<Remark>, m: Remark, c: seq<Remark>, e: seq<Remark>)
    requires IsMaintenanceRemark(m)
    ensures exists k :: 0 <= k < |a + b + [m] + c + e| && IsMaintenanceRemark((a + b + [m] + c + e)[k])
  {
    assert (a + b + [m] + c + e)[|a| + |b|] == m;
  }

  /** `assess_satellite_health_with_drift` for one satellite's history and detected maneuvers. */
  method AssessHealth(
    name: string, inclinations: seq<real>, epochs: seq<real>, drifts: Option<seq<real>>,
    events: seq<ManeuverEvent>, t: Thresholds, sqrt: real -> real)
    returns (h: Health)
    requires |inclinations| > 0 && |epochs| == |inclinations|
    requires drifts.Some? ==> |drifts.value| == |inclinations|
    requires ValidThresholds(t)
    ensures h.name == name && h.meanInclination == Mean(inclinations)
    ensures h.satType == Classify(Mean(inclinations))
    ensures h.target == Reported(TargetInclination(name))
    ensures h.deviation == Reported(InclinationDeviation(name, Mean(inclinations)))
    ensures h.rate == ManeuversPerMonth(|events|, ObservationDays(epochs))
    ensures h.cov == Reported(ManeuverDetection.Uniformity(Epochs(events), sqrt))
    ensures h.meanDrift == (if drifts.Some? then Some(Mean(drifts.value)) else None)
    ensures h.currentDrift == (if drifts.Some? then Some(drifts.value[|drifts.value| - 1]) else None)
    ensures h.driftStatus == if drifts.Some? then
      Some(DriftAnalysis.AssessDriftHealth(Mean(drifts.value), h.satType, t.driftToleranceGso, IGSO_DRIFT_TOLERANCE).status)
      else None
    ensures var dev := InclinationDeviation(name, Mean(inclinations));
      var drift := if drifts.Some? then Some(DriftSummaryOf(drifts.value, h.satType, t.driftToleranceGso, sqrt)) else None;
      h.overall == OverallScore(
        if dev.Some? then Some(InclinationScore(dev.value, SampleStd(inclinations, sqrt), t.inclinationTolerance)) else None,
        MaintenanceScore(h.rate, t.minRate, t.maxRate),
        UniformityScore(|events|, ManeuverDetection.Uniformity(Epochs(events), sqrt), t.uniformityThreshold),
        if drift.Some? then Some(drift.value.score) else None)
    ensures var dev := InclinationDeviation(name, Mean(inclinations));
      var drift := if drifts.Some? then Some(DriftSummaryOf(drifts.value, h.satType, t.driftToleranceGso, sqrt)) else None;
      h.remarks ==
        InclinationRemarks(dev, t.inclinationTolerance)
        + (if drift.Some? then DriftRemarks(h.satType, drift.value, t.driftToleranceGso) else [])
        + [MaintenanceRemark(h.rate, t.minRate, t.maxRate)]
        + UniformityRemarks(ManeuverDetection.Uniformity(Epochs(events), sqrt), t.uniformityThreshold)
        + StabilityRemarks(SampleStd(inclinations, sqrt))
    ensures h.status == StatusOf(h.overall)
    ensures IsSqrt(sqrt) ==> 0.0 <= h.overall <= 100.0
    ensures h.ewCount == CountEw(events) && h.nsCount == CountNs(events)
    ensures exists k :: 0 <= k < |h.remarks| && IsMaintenanceRemark(h.remarks[k])
  {
    var target := TargetInclination(name);
    var meanInc := Mean(inclinations);
    var stdInc := SampleStd(inclinations, sqrt);
    var satType := Classify(meanInc);
    var rate := ManeuversPerMonth(|events|, ObservationDays(epochs));

    var deviation: Option<real> := None;
    var incScore: Option<real> := None;
    if target.Some? {
      deviation := Some(Abs(meanInc - target.value));
      incScore := Some(InclinationScore(deviation.value, stdInc, t.inclinationTolerance));
    }
    assert deviation == InclinationDeviation(name, meanInc);

    var maintenance := MaintenanceScore(rate, t.minRate, t.maxRate);
    var cov := ManeuverDetection.Uniformity(Epochs(events), sqrt);
    var uniformity := UniformityScore(|events|, cov, t.uniformityThreshold);

    var summary: Option<DriftSummary> := None;
    var driftScore: Option<real> := None;
    if drifts.Some? {
      var d := SummarizeDrift(drifts.value, satType, t.driftToleranceGso, sqrt);
      summary := Some(d);
      driftScore := Some(d.score);
    }

    var overall := OverallScore(incScore, maintenance, uniformity, driftScore);
    if IsSqrt(sqrt) {
      if incScore.Some? {
        if stdInc.Some? {
          SampleVarianceSqrt(inclinations, sqrt);
        }
        InclinationScoreRange(deviation.value, stdInc, t.inclinationTolerance);
      }
      OverallWithinComponents(incScore, maintenance, uniformity, driftScore, 0.0, 100.0);
    }

    var remarks := BuildRemarks(deviation, t.inclinationTolerance, satType, summary, t.driftToleranceGso,
                                rate, t.minRate, t.maxRate, cov, t.uniformityThreshold, stdInc);
    MaintenanceRemarkPresent(InclinationRemarks(deviation, t.inclinationTolerance),
      if summary.Some? then DriftRemarks(satType, summary.value, t.driftToleranceGso) else [],
      MaintenanceRemark(rate, t.minRate, t.maxRate),
      UniformityRemarks(cov, t.uniformityThreshold), StabilityRemarks(stdInc));

    h := Health(name, satType, StatusOf(overall), overall, Reported(target), meanInc, Reported(deviation),
                if summary.Some? then Some(summary.value.mean) else None,
                if summary.Some? then Some(summary.value.current) else None,
                if summary.Some? then Some(summary.value.assessment.status) else None,
                rate, CountEw(events), CountNs(events), Reported(cov), remarks);
  }

  /** With a square root, the sample standard deviation is never negative. */
  lemma SampleVarianceSqrt(s: seq<real>, sqrt: real -> real)
    requires IsSqrt(sqrt) && |s| >= 2
    ensures SampleStd(s, sqrt).value >= 0.0
  {
  }
}
