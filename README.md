# NavIC constellation monitor — analytics core in Dafny

This project models the analytics core of a NavIC (Indian regional navigation satellite
system) constellation monitor and proves properties of it:

- **Drift analyzer** (`drift.dfy`, module `DriftAnalysis`): longitudinal drift from the
  element-set mean motion; banded drift health tables for geostationary (GSO) and inclined
  geosynchronous (IGSO) satellites; the drift-magnitude trend of a series; the drift direction.
- **Maneuver detector** (`maneuver.dfy`, module `ManeuverDetection`):
  - smoothing with a centred rolling median of 3, then first differences;
  - a robust MAD z-score with its mean/standard-deviation fallback;
  - candidate flags, then persistence confirmation from the medians of the smoothed series
    before and after each row;
  - east-west, north-south and combined maneuver flags;
  - the coefficient of variation of the day gaps between maneuvers.
  Pandas columns are sequences aligned by row index. NaN cells are `None`.
- **Health aggregator** (`health.dfy`, module `HealthAssessment`):
  - orbit classification and the maneuver rate;
  - inclination, maintenance, uniformity and drift sub-scores with their penalties and clamps;
  - the availability-dependent weighted overall score and the health status step function;
  - the ordered remark list;
  - the report record, where the target, the deviation and the CoV show as N/A when they are
    missing or exactly 0.0, as the source's truthiness test does.
- **DOP and geometry helpers** (`dop.dfy`, module `DopCalculations`):
  - element-set (three-line) text parsing into a name-keyed satellite dictionary;
  - design-matrix rows filtered by the elevation mask;
  - the DOP guards and the GDOP/PDOP/HDOP/VDOP/TDOP decomposition of the covariance matrix;
  - DOP for an observer, and the GDOP quality table;
  - integer ground-track sampling offsets and the latitude/longitude envelope;
  - the per-satellite bounding boxes.

Supporting modules:

- `Config`: the constants of config.py.
- `Stats`: sum, mean, variances, min/max, insertion sort, median.
- `PyText`: `str.strip`, `str.split('\n')`, clamped slicing and `int()` on numerals.
- `OrderedMap`: Python dictionaries as insertion-ordered association lists.
- `Wrappers`: `Option`.

Floating-point values are Dafny `real`s. Instants are real numbers of seconds. A Python
`timedelta.days` is the floor of seconds / 86400. The following are function-typed
parameters:

- square root, constrained by `Stats.IsSqrt` where a lemma needs it;
- sine and cosine;
- the 4×4 determinant and inverse;
- orbit propagation to a topocentric position or a sub-satellite point.

Where a property holds only for a genuine square root, its lemma requires `IsSqrt(sqrt)`.
State that the source changes step by step is modelled by methods proved against
specification functions. These are:

- the dictionary filled by the element-set loop;
- the design-matrix rows appended one at a time;
- the flag columns set in place;
- the drift score reassigned through its penalties;
- the remark list built by appends;
- the visible-satellite and position lists;
- the bounding-box dictionary.

## Model

| member | source | states |
|---|---|---|
| DriftAnalysis.LongitudinalDrift | drift_analysis.py:24 | drift is positive, negative or zero exactly when the mean motion is above, below or equal to the geosynchronous rate |
| DriftAnalysis.AssessDriftHealth | drift_analysis.py:46-90 | the returned absolute drift is the absolute value of the input drift |
| DriftAnalysis.ScoreMatchesStatus | drift_analysis.py:50-83 | the score is the one its status label carries; GSO labels come from GSO satellites only; within a table distinct labels have distinct scores |
| DriftAnalysis.GsoBands | drift_analysis.py:48-69 | GSO score is one of 100/80/60/40/0, each exactly on its band with inclusive upper edges 0.3·tol, tol, 2·tol, 5·tol |
| DriftAnalysis.IgsoBands | drift_analysis.py:70-83 | any non-GSO type scores 100 up to tol, 70 up to 2·tol, 40 beyond, each an if-and-only-if |
| DriftAnalysis.UnclassifiedUsesIgsoTable | drift_analysis.py:70-83 | an unclassified satellite gets exactly the IGSO assessment |
| DriftAnalysis.AssessmentIgnoresDirection | drift_analysis.py:46 | a drift and its negation get the same score, status and absolute drift |
| DriftAnalysis.AssessmentMonotone | drift_analysis.py:48-83 | with positive tolerances the score never increases as the drift magnitude grows |
| DriftAnalysis.DriftTrend | drift_analysis.py:108-118 | specification of `calculate_drift_trend`: 0 below two values, then |mean of the last w values| − |mean of the first w| (last and first value when fewer than w); its properties are the two trend lemmas below |
| DriftAnalysis.TrendOfConstantSeries | drift_analysis.py:108-118 | a constant drift series has trend 0, whatever its length |
| DriftAnalysis.SumReverse | drift_analysis.py:112-113 | reversing a series keeps its sum, so window means do not depend on order |
| DriftAnalysis.TrendOfReversedSeries | drift_analysis.py:108-118 | reading the series backwards negates the trend (the first and last windows swap) |
| DriftAnalysis.DriftDirection | drift_analysis.py:134-139 | Eastward iff drift > 0, Westward iff drift < 0, Stable iff drift = 0 |
| DriftAnalysis.DirectionOfMeanMotion | drift_analysis.py:24 | the direction of the drift of a mean motion is decided by comparing it with the geosynchronous rate |
| ManeuverDetection.RollingMedian3 | maneuver_detection.py:10-12 | the smoothed column has the length of its input |
| ManeuverDetection.RollingMedianWithinNeighbours | maneuver_detection.py:10-12 | each smoothed value lies between the least and the greatest of the up-to-three neighbouring values |
| ManeuverDetection.RollingMedianOfConstant | maneuver_detection.py:10-12 | a constant column is returned unchanged |
| ManeuverDetection.RollingMedianAtEnds | maneuver_detection.py:10-12 | the first and last smoothed values are averages of the two values at each end |
| ManeuverDetection.RollingMedianRemovesSpike | maneuver_detection.py:10-12 | a one-row spike between two equal neighbours is replaced by the neighbours' value |
| ManeuverDetection.Diff | maneuver_detection.py:46-47 | the difference column has the length of its input |
| ManeuverDetection.MadZScore | maneuver_detection.py:15-28 | the z-score column has the length of its input |
| ManeuverDetection.StandardizeKeepsOrder | maneuver_detection.py:26-28 | standardising with a positive scale keeps the order of values and the sign of the deviation from the centre |
| ManeuverDetection.ZScoreKeepsOrder | maneuver_detection.py:15-28 | z-scores keep the order of the input values in every branch |
| ManeuverDetection.ZScoreSignFollowsMedian | maneuver_detection.py:28 | when the MAD is at least 1e-9 the sign of each z-score is the sign of its deviation from the median |
| ManeuverDetection.ZScoreOfFlatSample | maneuver_detection.py:21-25 | when both MAD and standard deviation are below 1e-9 every z-score is 0 |
| ManeuverDetection.ZScoreOfConstant | maneuver_detection.py:15-28 | a constant column gets all-zero z-scores |
| ManeuverDetection.LiftedMedian | maneuver_detection.py:74 | the NaN-aware median of a window with no NaN is the plain median |
| ManeuverDetection.PreMedian | maneuver_detection.py:71-75 | specification of the before-median column: `np.median(arr[:-h])` of the trailing raw window, NaN when it holds h rows or fewer; PreMedianWindow states where it exists and what it is |
| ManeuverDetection.PreWindowContents | maneuver_detection.py:71-75 | from row h on, the part of the raw window that `arr[:-h]` keeps is exactly rows max(0, i-2h) .. i-h, and nothing when h is 0 |
| ManeuverDetection.PreMedianOfWindow | maneuver_detection.py:71-75 | from row h on, the before-median is the NaN-aware median of rows max(0, i-2h) .. i-h (NaN when h is 0) |
| ManeuverDetection.PreMedianUndefined | maneuver_detection.py:71-75 | rows before h have no median before them |
| ManeuverDetection.PreMedianWindow | maneuver_detection.py:71-75 | the before-median exists iff 1 <= h <= i, and is then the NaN-aware median of rows max(0, i-2h) .. i-h, which LiftedMedian turns into their plain median |
| ManeuverDetection.PostMedian | maneuver_detection.py:76-80 | specification of the after-median column: `np.median(arr[h:])` of the trailing window of the column shifted back by h; PostMedianWindow states where it exists and what it is |
| ManeuverDetection.PostMedianUndefined | maneuver_detection.py:76-80 | the after-median is NaN for i < h or i + h past the last row |
| ManeuverDetection.PostWindowLast | maneuver_detection.py:76-80 | when row i+h exists, the shifted window holds more than h rows and its last one is a number, so `post_median` does not return NaN |
| ManeuverDetection.PostWindowContents | maneuver_detection.py:76-80 | the kept tail of the shifted window is exactly rows max(2h, i) .. i+h |
| ManeuverDetection.ShiftBackSlice | maneuver_detection.py:76 | rows a .. b-1 of the column shifted back by h are rows a+h .. b+h-1 of the column |
| ManeuverDetection.PostMedianOfWindow | maneuver_detection.py:76-80 | inside the edges the after-median is the NaN-aware median of rows max(2h, i) .. i+h |
| ManeuverDetection.PostMedianWindow | maneuver_detection.py:76-80 | the after-median exists iff h <= i and i + h < n, and is then the NaN-aware median of rows max(2h, i) .. i+h, which LiftedMedian turns into their plain median |
| ManeuverDetection.StepSize | maneuver_detection.py:81 | a defined step size (absolute difference of the after- and before-medians) is never negative |
| ManeuverDetection.StepSizeDefined | maneuver_detection.py:81 | the before/after step size exists iff 1 <= h <= i and i + h < n |
| ManeuverDetection.EventAt | maneuver_detection.py:52-99 | specification of one row of a confirmed-event column: a candidate whose step size reaches the absolute threshold; the three lemmas below state its properties |
| ManeuverDetection.EventClearsThresholds | maneuver_detection.py:52-99 | a confirmed event has i >= 1, a smoothed difference of at least the absolute threshold, a z-score of at least the z threshold and a step size of at least the absolute threshold |
| ManeuverDetection.NoEventNearEdges | maneuver_detection.py:69-99 | no event at row 0, with h = 0, or within h rows of either end |
| ManeuverDetection.NoEventOnConstantSeries | maneuver_detection.py:52-99 | a constant column with a positive threshold has no event |
| ManeuverDetection.FlagCandidates | maneuver_detection.py:52-57 | the flag is True exactly at the rows whose difference and z-score both reach their thresholds |
| ManeuverDetection.FlagConfirmed | maneuver_detection.py:95-99 | the confirmed column is True exactly where the candidate flag holds and the step size reaches the threshold |
| ManeuverDetection.ConfirmEvents | maneuver_detection.py:42-99 | the smoothed, differenced, z-scored, candidate, step and confirmed columns equal their specifications row by row |
| ManeuverDetection.DetectManeuvers | maneuver_detection.py:31-109 | both smoothed, differenced and z-scored columns, both candidate and step columns equal their specifications row by row; east-west flags are the semimajor-axis events, north-south flags the inclination events, and the maneuver flag their disjunction |
| ManeuverDetection.NoManeuversOnConstantSeries | maneuver_detection.py:107 | constant semimajor-axis and inclination columns with positive thresholds give no maneuver at any row |
| ManeuverDetection.Uniformity | maneuver_detection.py:112-124 | a coefficient of variation exists only for two or more dates; UniformityDefined states exactly when it exists, and the lemmas below state its value |
| ManeuverDetection.DayGaps | maneuver_detection.py:118-119 | there is one whole-day gap per pair of consecutive dates |
| ManeuverDetection.DayGapsNonNegative | maneuver_detection.py:117-119 | gaps between sorted dates are never negative |
| ManeuverDetection.NonZeroGapIsWholeDay | maneuver_detection.py:118-119 | a whole-day gap between sorted dates that is not 0 is at least one day |
| ManeuverDetection.MeanDayGapPositive | maneuver_detection.py:121-122 | sorted dates have a non-zero mean gap iff some consecutive gap is at least one whole day |
| ManeuverDetection.UniformityDefined | maneuver_detection.py:112-124 | a coefficient of variation exists iff there are two or more dates and some consecutive pair of sorted dates is at least one whole day apart; otherwise None, including when every gap is under a day |
| ManeuverDetection.UniformityNonNegative | maneuver_detection.py:124 | a defined coefficient of variation is never negative |
| ManeuverDetection.UniformityIgnoresOrder | maneuver_detection.py:117 | the result does not depend on the order of the dates |
| ManeuverDetection.EqualGapsAreUniform | maneuver_detection.py:118-124 | sorted dates with equal positive day gaps have coefficient of variation 0 |
| ManeuverDetection.RegularScheduleIsUniform | maneuver_detection.py:112-124 | dates at a fixed spacing of at least a day give 0 |
| ManeuverDetection.UniformityOfTwoManeuvers | maneuver_detection.py:112-124 | two maneuvers at least a day apart give exactly 0 |
| ManeuverDetection.UniformityNeedsTwoManeuvers | maneuver_detection.py:114-115 | fewer than two dates give None |
| HealthAssessment.Classify | health_assessment.py:24-29 | GSO iff 0 < mean inclination < 10, IGSO iff >= 10, Unclassified otherwise |
| HealthAssessment.ObservationDays | health_assessment.py:31 | the observation span in whole days is never negative |
| HealthAssessment.ManeuversPerMonth | health_assessment.py:32-35 | the rate times the span in 30-day months is the maneuver count; it is 0 when the span is 0 days |
| HealthAssessment.InclinationStabilityPenalty | health_assessment.py:42 | the penalty is at most 20, 10·std below std 2, non-negative for non-negative std, and 20 when std is NaN |
| HealthAssessment.InclinationScore | health_assessment.py:44 | the inclination score is never negative |
| HealthAssessment.InclinationScoreRange | health_assessment.py:38-47 | the score is at most 100, equals 100 iff no deviation and zero spread, and is at most 80 when the spread is NaN |
| HealthAssessment.InclinationScoreMonotone | health_assessment.py:39-44 | more deviation or more spread never raises the score |
| HealthAssessment.MaintenanceScore | health_assessment.py:50-58 | the maintenance score lies in [0, 100] |
| HealthAssessment.MaintenanceBelowMinimum | health_assessment.py:50-51 | a rate below the minimum scores in [30, 70) |
| HealthAssessment.MaintenanceAboveMaximum | health_assessment.py:52-56 | a rate above the maximum scores in [60, 100) |
| HealthAssessment.MaintenanceBands | health_assessment.py:50-58 | both bands above, and the score is 100 iff min <= rate <= max |
| HealthAssessment.UniformityScore | health_assessment.py:61-77 | the uniformity score lies in [0, 100] |
| HealthAssessment.UniformityBands | health_assessment.py:61-77 | 0 with no maneuver, 50 with one, at least 50 with two or more, and 100 iff two or more with a CoV within the threshold |
| HealthAssessment.StabilityPenalised | health_assessment.py:94-104 | specification of the stability penalty: GSO loses min(30, 10·(std/tol − 2)) above twice the tolerance, IGSO min(20, 10·(std/2 − 1)) above 2 °/day, floored at 0; StabilityPenaltyBounds and StabilityPenaltyMonotone state its properties |
| HealthAssessment.StabilityPenaltyBounds | health_assessment.py:94-104 | the stability-penalised score lies in [0, base], drops by at most 30 for GSO and 20 for IGSO, and is unchanged for unclassified satellites or a NaN spread |
| HealthAssessment.StabilityPenaltyMonotone | health_assessment.py:94-104 | a larger drift spread never raises the score |
| HealthAssessment.TrendAdjusted | health_assessment.py:106-110 | specification of the trend adjustment: −10 floored at 0 above +0.01, +5 capped at 100 below −0.01; TrendAdjustmentBounds states its properties |
| HealthAssessment.TrendAdjustmentBounds | health_assessment.py:106-110 | the trend adjustment keeps [0, 100], lowers for a rising trend, raises for a falling one, and leaves the score alone within ±0.01 |
| HealthAssessment.AdjustDriftScore | health_assessment.py:89-110 | the reassigned drift score is the penalised then trend-adjusted table score, and stays in [0, 100] |
| HealthAssessment.WeightsFor | health_assessment.py:122-130 | in each availability case the weights sum to 1, are non-negative, and weight inclination or drift iff that score exists |
| HealthAssessment.OverallScore | health_assessment.py:122-130 | specification of the overall score: the WeightsFor-weighted sum of the sub-scores that exist; OverallWithinComponents bounds it |
| HealthAssessment.OverallWithinComponents | health_assessment.py:122-130 | the overall score lies between any bounds all present sub-scores respect |
| HealthAssessment.StatusOf | health_assessment.py:132-143 | specification of the status step function; StatusBands states its bands |
| HealthAssessment.StatusBands | health_assessment.py:132-143 | Excellent iff >= 85, Good iff in [70, 85), Fair iff in [50, 70), Needs Attention iff < 50, and status never worsens as the score grows |
| HealthAssessment.InclinationRemarks | health_assessment.py:147-154 | one inclination remark exactly when a deviation exists |
| HealthAssessment.MaintenanceRemark | health_assessment.py:196-202 | the remark is always one of the three maintenance remarks |
| HealthAssessment.AppendInclinationRemark | health_assessment.py:147-154 | the list grows by the inclination remarks |
| HealthAssessment.AppendDriftRemarks | health_assessment.py:156-194 | the list grows by status, direction, trend and variability remarks in that order |
| HealthAssessment.BuildRemarks | health_assessment.py:145-212 | remarks are inclination, drift (when a drift column exists), exactly one maintenance remark, uniformity, stability, in that order |
| HealthAssessment.MaintenanceRemarkMatchesScore | health_assessment.py:197-202 | "active maintenance" iff the maintenance score is 100; a low-activity remark means a score below 70 |
| HealthAssessment.UniformityRemarkMatchesScore | health_assessment.py:205-209 | the regular-pattern remark appears iff the uniformity score is 100 |
| HealthAssessment.DirectionRemarkMatchesDirection | health_assessment.py:170-174 | a GSO direction remark is eastward, westward or absent exactly as the drift direction is |
| HealthAssessment.StatusRemarkMatchesTable | health_assessment.py:157-181 | the drift status remark follows the band table: excellent and critical bands for GSO, normal band for IGSO, none for unclassified |
| HealthAssessment.CountEw | health_assessment.py:226 | the east-west count is at most the number of events |
| HealthAssessment.CountNs | health_assessment.py:227 | the north-south count is at most the number of events |
| HealthAssessment.SampleStd | health_assessment.py:21 | the sample standard deviation exists iff there are two or more rows |
| HealthAssessment.SampleVarianceSqrt | health_assessment.py:21 | a defined sample standard deviation is never negative |
| HealthAssessment.DriftSummaryOf | health_assessment.py:79-110 | the drift block as a value: its score, the table score after the stability penalty and the trend adjustment, lies in [0, 100] and is at most 5 points above the table score |
| HealthAssessment.SummarizeDrift | health_assessment.py:79-110 | the computed block is DriftSummaryOf: mean, sample deviation, last value and trend of the drift column, the table verdict on the mean, and the adjusted score |
| HealthAssessment.Reported | health_assessment.py:219-228 | `x if x else "N/A"`: a value is shown iff it exists and is not 0.0, and is then shown unchanged |
| HealthAssessment.InclinationDeviation | health_assessment.py:38-47 | a deviation exists iff the satellite has a target inclination, and is never negative |
| HealthAssessment.AssessHealth | health_assessment.py:13-230 | type, mean inclination, rate and counts are their specifications; target, deviation and CoV are shown through Reported; mean drift, current drift and drift status are those of the drift column when it exists; the overall score is OverallScore of the inclination, maintenance, uniformity and drift (DriftSummaryOf) scores, and the status is its step; the remarks are the inclination, drift, maintenance, uniformity and stability remarks in order; with a genuine square root the overall score is in [0, 100] |
| Config.TargetInclination | config.py:32-40 | a target exists exactly for the seven NavIC satellites |
| Config.TargetLongitude | config.py:32-40 | a target longitude exists exactly where a target inclination does |
| DopCalculations.CatalogId | dop_calculations.py:30 | specification of `int(line1[2:7])` on the clamped slice; ParseDecimal states the numeral round trip it relies on |
| DopCalculations.FirstNameWithId | dop_calculations.py:31-35 | a found name is paired with the id in the directory; None iff no entry has the id |
| DopCalculations.FindName | dop_calculations.py:31-35 | the scan stops at the first name with the id |
| DopCalculations.EntryOf | dop_calculations.py:29-41 | an element set is kept iff columns 2..7 of line 1 parse and name a non-empty directory entry, under that name and with its lines |
| DopCalculations.Triplets | dop_calculations.py:21-27 | the first n lines give n/3 consecutive triplets |
| DopCalculations.CompleteLines | dop_calculations.py:21-23 | a trailing group of fewer than three lines is dropped |
| DopCalculations.ParseTle | dop_calculations.py:14-43 | the dictionary is the in-order assignment of every kept triplet of the stripped, split text |
| DopCalculations.Collect | dop_calculations.py:21-43 | specification of the dictionary the loop fills: the in-order assignment of every kept entry; the Collect lemmas below state its properties |
| DopCalculations.AddTriplet | dop_calculations.py:29-41 | one loop step: the dictionary gains or overwrites the triplet's entry when it is kept and is unchanged otherwise |
| DopCalculations.CollectEntries | dop_calculations.py:39 | assigned names are distinct and each entry comes from a kept triplet |
| DopCalculations.TripletsValid | dop_calculations.py:29-37 | every kept triplet is keyed by the first directory name with its catalog id |
| DopCalculations.ParsedKeys | dop_calculations.py:21-43 | the parsed dictionary has distinct keys, all directory names, each holding a satellite whose id maps to that name |
| DopCalculations.CollectAssigns | dop_calculations.py:39 | a kept triplet's satellite is stored under its name |
| DopCalculations.CollectKeeps | dop_calculations.py:37-41 | a skipped triplet or another name leaves a name's entry unchanged |
| DopCalculations.CollectLastWins | dop_calculations.py:21-43 | a later triplet with the same name overwrites an earlier one |
| DopCalculations.RowOf | dop_calculations.py:72-79 | each row's fourth (clock) component is 1 |
| DopCalculations.AboveMask | dop_calculations.py:67-71 | only known positions strictly above the mask are kept, in no more rows than positions |
| DopCalculations.AboveMaskComplete | dop_calculations.py:67-71 | every known position strictly above the mask is kept |
| DopCalculations.DesignRows | dop_calculations.py:63-81 | one row per kept position, in input order |
| DopCalculations.DesignMatrix | dop_calculations.py:63-81 | the appended rows are the design rows, each with clock component 1 |
| DopCalculations.ColumnDotSymmetric | dop_calculations.py:90 | column dot products are symmetric |
| DopCalculations.ClockColumnCount | dop_calculations.py:90 | the clock column's self-product is the row count |
| DopCalculations.GramProperties | dop_calculations.py:90 | HᵀH is symmetric and its (3,3) entry is the number of rows |
| DopCalculations.DopValues | dop_calculations.py:84-107 | DOP exists iff at least 4 rows, nonzero determinant and an inverse exists; it is then read off the inverse |
| DopCalculations.DopQuadrature | dop_calculations.py:97-103 | GDOP² = PDOP² + TDOP², PDOP² = HDOP² + VDOP², and HDOP <= PDOP <= GDOP |
| DopCalculations.Located | dop_calculations.py:120-123 | the position list has at most one entry per satellite |
| DopCalculations.VisibleNames | dop_calculations.py:120-125 | the visible-name list has at most one entry per satellite |
| DopCalculations.VisibleMatchesRows | dop_calculations.py:120-128 | the visible-name list is as long as the design matrix |
| DopCalculations.DopForLocation | dop_calculations.py:110-130 | positions, visible names and DOP are their specifications, and there are as many visible names as design rows |
| DopCalculations.DopQuality | dop_calculations.py:186-193 | specification of `get_dop_quality`: the first label whose bound exceeds the GDOP, Poor otherwise; QualityClosedForm and QualityBands state its value |
| DopCalculations.QualityClosedForm | dop_calculations.py:186-193 | the table scan is the chain of strict comparisons with 2, 4, 6 and 8 |
| DopCalculations.QualityBands | dop_calculations.py:186-193 | Excellent iff < 2, Good iff in [2, 4), Moderate iff in [4, 6), Fair iff in [6, 8), Poor iff >= 8 |
| DopCalculations.QualityAtBound | dop_calculations.py:191 | GDOP exactly 2 is Good |
| DopCalculations.QualityMonotone | dop_calculations.py:186-193 | the quality rank never improves as GDOP grows |
| DopCalculations.TruncDiv | dop_calculations.py:141 | truncating division agrees with floor division on non-negative operands |
| DopCalculations.SampleOffsets | dop_calculations.py:139-144 | None (the source's division by zero) exactly when the time step is 0 minutes; an empty offset list is a separate case, covered by OffsetsInsideWindow |
| DopCalculations.Offsets | dop_calculations.py:143 | offsets are k·step for k = 1 .. n_steps - 2 |
| DopCalculations.OffsetsInsideWindow | dop_calculations.py:140-144 | there are ⌊D/step⌋ - 1 offsets, evenly spaced by the step, all strictly inside (0, D) |
| DopCalculations.DefaultSampling | dop_calculations.py:139-144 | 1.5 days at 15 minutes give 129600 s and 143 offsets from 900 s to 128700 s |
| DopCalculations.Track | dop_calculations.py:145-154 | one sub-satellite point per offset, each the propagation at epoch + offset |
| DopCalculations.GeoBoxOf | dop_calculations.py:133-166 | None exactly when the source raises: a zero step, no sample offsets (`min` of an empty list) or a failed propagation; otherwise the offsets are SampleOffsets, and the k-th latitude and longitude are the propagated sub-satellite point at epoch + offset k |
| DopCalculations.GeoBoxEnvelope | dop_calculations.py:160-165 | on each axis min <= mean <= max and every sample lies between min and max |
| DopCalculations.BoundingBoxes | dop_calculations.py:169-183 | the filled dictionary is the in-order assignment of every satellite whose box succeeded |
| DopCalculations.BoxesPresentExactlyOnSuccess | dop_calculations.py:175-181 | a satellite's entry is its box, and it is absent exactly when the box computation fails |
| DopCalculations.BoxesDistinct | dop_calculations.py:173-183 | box names are distinct and all are satellite names |
| Stats.MedianPermutationInvariant | maneuver_detection.py:18-19 | the median does not depend on the order of the sample |
| Stats.MedianBounds | maneuver_detection.py:18-19 | the median lies within any bounds of the sample |
| Stats.MinMeanMax | dop_calculations.py:160-165 | the mean lies between the minimum and the maximum |
| Stats.SampleVariance | health_assessment.py:21 | the sample variance exists iff there are two or more values, and is then non-negative |
| PyText.JoinSplit | dop_calculations.py:19 | splitting on line feeds loses nothing: joining the pieces gives the text back |
| PyText.SplitJoin | dop_calculations.py:19 | conversely, splitting pieces joined by line feeds gives the pieces back when none holds a line feed |
| PyText.StripIsTrimmedRun | dop_calculations.py:19 | stripping keeps a run of the text and removes only whitespace around it |
| PyText.ParseInt | dop_calculations.py:30 | `int()` on a string succeeds only when something is left after stripping |
| PyText.ParseDecimal | dop_calculations.py:30 | `int()` reads back the decimal numeral of any natural number, even after a space |
| OrderedMap.PutGet | dop_calculations.py:39 | dictionary assignment keeps keys distinct, reads back its value and leaves other keys alone |

## Left out

- Orbit propagation, topocentric positions, sub-satellite points, the skyfield timescale,
  `wgs84` observers and time-zone handling are function parameters returning `Option`. This
  covers `calculate_satellite_position` (dop_calculations.py:46-60): None stands for the
  exception it swallows.
- `np.radians`, `sin`, `cos`, `det`, `inv` and `sqrt` are function parameters. Floating-point
  rounding is not modelled: all arithmetic is exact over `real`.
- NaN cells in the input columns are not modelled. The series are taken as fully numeric.
  NaN produced by the computation itself is `None`: the undefined difference at row 0, the
  window medians, the spread of a single row and an undefined CoV.
- The `pd.to_numeric(..., errors='coerce')` conversion, the missing-column branches of
  `detect_navik_maneuvers` (maneuver_detection.py:37-47) and the missing `EW_MANEUVER` /
  `NS_MANEUVER` columns in the health counts are left out. Both columns are always present
  in the model.
- The drift column is optional, matching health_assessment.py:80. The inclination and epoch
  columns are required to be non-empty: the source reads them unguarded.
- Display colours, emoji, `round(...)`, the f-string wording of remarks and the `" | "`
  join are left out. Remarks are `Remark` values, and only their order and presence are
  modelled.
- `st.warning` (dop_calculations.py:180) is an I/O side effect and is not modelled.
- The `EarthSatellite` object is the `Satellite` value: its name and its two element lines.
  Its construction cannot fail in the model.
- `timedelta` microsecond rounding is not modelled. The propagation window is
  ⌊days·86400⌋ whole seconds, and `n_steps` uses truncating integer division where the
  source divides floats and truncates. These agree for non-negative durations and a
  positive step.
- Element-set text is stripped of ASCII whitespace only. `int()` accepts an optional sign
  and ASCII digits; underscores and non-ASCII digits are not modelled. The title line of
  each triplet is read by the source but never used, so it is not parsed.
- The "Poor": infinity entry of the quality table is the fallback of the scan.
- Python's float `/` on negative or zero operands is not modelled beyond the guards the
  source has. The inclination, drift and uniformity tolerances are required to be positive,
  as are the maximum maneuver rate and the GSO drift tolerance. The source divides by these
  and its input widgets keep them positive.
- ManeuverDetection.UniformityOfTwoManeuvers: requires the two dates to be at least a day
  apart. Closer dates have a mean whole-day gap of 0, for which the source returns None;
  UniformityDefined states that case.
- HealthAssessment.AssessHealth: the overall score is bounded in [0, 100] only for a
  genuine square root, because the spread of the drift column enters the penalties through
  it.
- DopCalculations.DopValues: the decomposition (trace, diagonal sums) is stated through
  `DopOf` on the inverse the parameter returns. A negative diagonal of that inverse (NaN in
  numpy) is not singled out.
