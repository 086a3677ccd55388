/**
 * Drift analyzer (drift_analysis.py): longitudinal drift from mean motion, the banded drift
 * health tables for geostationary (GSO) and inclined geosynchronous (IGSO) satellites, the
 * drift-magnitude trend of a series and the drift direction label.
 */
module DriftAnalysis {
  import opened Config
  import opened Stats

  /** Orbit class of a satellite, decided from its mean inclination. */
  datatype SatType = GSO | IGSO | Unclassified

  /** Labels of the two band tables: Excellent..Critical for GSO, Normal..High for IGSO. */
  datatype DriftStatus = Excellent | Good | Fair | Poor | Critical | Normal | Elevated | High

  datatype Direction = Eastward | Westward | Stable

  /** What `assess_drift_health` returns, without its display colour. */
  datatype DriftAssessment = DriftAssessment(score: int, status: DriftStatus, absDrift: real)

  /** Drift in degrees per day; positive is eastward. */
  function LongitudinalDrift(meanMotion: real): (drift: real)
    ensures drift > 0.0 <==> meanMotion > GEOSYNC_MEAN_MOTION
    ensures drift < 0.0 <==> meanMotion < GEOSYNC_MEAN_MOTION
    ensures drift == 0.0 <==> meanMotion == GEOSYNC_MEAN_MOTION
  {
    (meanMotion - GEOSYNC_MEAN_MOTION) * 360.0
  }

  /** One hundredth of a revolution per day above the geostationary rate drifts 3.6 degrees a day east. */
  lemma DriftExample()
    ensures LongitudinalDrift(1.012737909) == 3.6
    ensures DriftDirection(LongitudinalDrift(1.012737909)) == Eastward
  {
  }

  /** Scores `drift` against the GSO table when `satType` is GSO and against the IGSO table otherwise. */
  function AssessDriftHealth(drift: real, satType: SatType, toleranceGso: real, toleranceIgso: real): (a: DriftAssessment)
    ensures a.absDrift == Abs(drift)
  {
    var absDrift := Abs(drift);
    if satType == GSO then
      var tolerance := toleranceGso;
      if absDrift <= tolerance * 0.3 then DriftAssessment(100, Excellent, absDrift)
      else if absDrift <= tolerance then DriftAssessment(80, Good, absDrift)
      else if absDrift <= tolerance * 2.0 then DriftAssessment(60, Fair, absDrift)
      else if absDrift <= tolerance * 5.0 then DriftAssessment(40, Poor, absDrift)
      else DriftAssessment(0, Critical, absDrift)
    else
      var tolerance := toleranceIgso;
      if absDrift <= tolerance then DriftAssessment(100, Normal, absDrift)
      else if absDrift <= tolerance * 2.0 then DriftAssessment(70, Elevated, absDrift)
      else DriftAssessment(40, High, absDrift)
  }

  /** The score each label stands for. */
  function ScoreOfStatus(status: DriftStatus): int {
    match status
    case Excellent => 100
    case Good => 80
    case Fair => 60
    case Poor => 40
    case Critical => 0
    case Normal => 100
    case Elevated => 70
    case High => 40
  }

  predicate IsGsoStatus(status: DriftStatus) {
    status in {Excellent, Good, Fair, Poor, Critical}
  }

  /**
   * Score and label determine each other within a table: the label is one of that table's
   * labels and the score is the one the label stands for; different labels of one table
   * stand for different scores.
   */
  lemma ScoreMatchesStatus(drift: real, satType: SatType, toleranceGso: real, toleranceIgso: real)
    ensures var a := AssessDriftHealth(drift, satType, toleranceGso, toleranceIgso);
      && a.score == ScoreOfStatus(a.status)
      && (satType == GSO <==> IsGsoStatus(a.status))
    ensures forall s1, s2 :: IsGsoStatus(s1) == IsGsoStatus(s2) && s1 != s2 ==> ScoreOfStatus(s1) != ScoreOfStatus(s2)
  {
  }

  /** The GSO table: five scores, with inclusive upper band edges at 0.3, 1, 2 and 5 tolerances. */
  lemma GsoBands(drift: real, toleranceGso: real, toleranceIgso: real)
    requires toleranceGso > 0.0
    ensures var a := AssessDriftHealth(drift, GSO, toleranceGso, toleranceIgso);
      && a.score in {100, 80, 60, 40, 0}
      && (a.score == 100 <==> Abs(drift) <= 0.3 * toleranceGso)
      && (a.score == 80 <==> 0.3 * toleranceGso < Abs(drift) <= toleranceGso)
      && (a.score == 60 <==> toleranceGso < Abs(drift) <= 2.0 * toleranceGso)
      && (a.score == 40 <==> 2.0 * toleranceGso < Abs(drift) <= 5.0 * toleranceGso)
      && (a.score == 0 <==> 5.0 * toleranceGso < Abs(drift))
  {
  }

  /** The IGSO table: three scores, with inclusive upper band edges at 1 and 2 tolerances. */
  lemma IgsoBands(drift: real, satType: SatType, toleranceGso: real, toleranceIgso: real)
    requires satType != GSO
    requires toleranceIgso > 0.0
    ensures var a := AssessDriftHealth(drift, satType, toleranceGso, toleranceIgso);
      && a.score in {100, 70, 40}
      && (a.score == 100 <==> Abs(drift) <= toleranceIgso)
      && (a.score == 70 <==> toleranceIgso < Abs(drift) <= 2.0 * toleranceIgso)
      && (a.score == 40 <==> 2.0 * toleranceIgso < Abs(drift))
  {
  }

  /** Every type other than GSO, Unclassified included, is scored with the IGSO table. */
  lemma UnclassifiedUsesIgsoTable(drift: real, toleranceGso: real, toleranceIgso: real)
    ensures AssessDriftHealth(drift, Unclassified, toleranceGso, toleranceIgso)
         == AssessDriftHealth(drift, IGSO, toleranceGso, toleranceIgso)
  {
  }

  /** The assessment sees only the magnitude of the drift. */
  lemma AssessmentIgnoresDirection(drift: real, satType: SatType, toleranceGso: real, toleranceIgso: real)
    ensures AssessDriftHealth(drift, satType, toleranceGso, toleranceIgso)
         == AssessDriftHealth(-drift, satType, toleranceGso, toleranceIgso)
  {
  }

  /** A larger drift never scores better. */
  lemma AssessmentMonotone(d1: real, d2: real, satType: SatType, toleranceGso: real, toleranceIgso: real)
    requires toleranceGso > 0.0 && toleranceIgso > 0.0
    requires Abs(d1) <= Abs(d2)
    ensures AssessDriftHealth(d2, satType, toleranceGso, toleranceIgso).score
         <= AssessDriftHealth(d1, satType, toleranceGso, toleranceIgso).score
  {
  }

  /**
   * Change of drift magnitude over a series (oldest sample first): the magnitude of the mean of
   * the last `window` samples minus that of the first `window`, or last minus first sample when
   * the series is shorter than the window, and 0 below two samples.
   */
  function DriftTrend(drifts: seq<real>, window: nat): real
    requires window >= 1
  {
    if |drifts| < 2 then 0.0
    else if |drifts| >= window then
      Abs(Mean(drifts[|drifts| - window..])) - Abs(Mean(drifts[..window]))
    else
      Abs(drifts[|drifts| - 1]) - Abs(drifts[0])
  }

  /** A series whose drift never changes has no trend. */
  lemma TrendOfConstantSeries(drifts: seq<real>, window: nat, c: real)
    requires window >= 1
    requires forall i :: 0 <= i < |drifts| ==> drifts[i] == c
    ensures DriftTrend(drifts, window) == 0.0
  {
    if |drifts| >= 2 && |drifts| >= window {
      ConstantSample(drifts[|drifts| - window..], c);
      ConstantSample(drifts[..window], c);
    }
  }

  /** The series read backwards. */
  function Reverse(s: seq<real>): (r: seq<real>)
    ensures |r| == |s|
  {
    seq(|s|, i requires 0 <= i < |s| => s[|s| - 1 - i])
  }

  lemma {:induction false} SumReverse(s: seq<real>)
    ensures Sum(Reverse(s)) == Sum(s)
  {
    if s != [] {
      var r, t := Reverse(s), Reverse(s[1..]);
      assert r == t + [s[0]] by {
        forall k | 0 <= k < |t| ensures r[k] == t[k] {
          assert t[k] == s[1..][|s| - 2 - k];
        }
      }
      SumReverse(s[1..]);
      SumAppend(t, [s[0]]);
    }
  }

  lemma MeanReverse(s: seq<real>)
    requires |s| > 0
    ensures Mean(Reverse(s)) == Mean(s)
  {
    SumReverse(s);
  }

  /** The last w samples of a reversed series are its first w samples reversed. */
  lemma ReverseTail(s: seq<real>, w: nat)
    requires w <= |s|
    ensures Reverse(s)[|s| - w..] == Reverse(s[..w])
  {
    var r := Reverse(s);
    var a, b := r[|s| - w..], Reverse(s[..w]);
    forall k | 0 <= k < w ensures a[k] == b[k] {
      assert a[k] == r[|s| - w + k];
    }
  }

  /** The first w samples of a reversed series are its last w samples reversed. */
  lemma ReverseHead(s: seq<real>, w: nat)
    requires w <= |s|
    ensures Reverse(s)[..w] == Reverse(s[|s| - w..])
  {
    var r := Reverse(s);
    var a, b := r[..w], Reverse(s[|s| - w..]);
    forall k | 0 <= k < w ensures a[k] == b[k] {
      assert b[k] == s[|s| - w..][w - 1 - k];
    }
  }

  /** Reading a series backwards negates its trend: the trend compares the late end with the early end. */
  lemma TrendOfReversedSeries(drifts: seq<real>, window: nat)
    requires window >= 1
    ensures DriftTrend(Reverse(drifts), window) == -DriftTrend(drifts, window)
  {
    var n := |drifts|;
    if n >= 2 && n >= window {
      ReverseTail(drifts, window);
      ReverseHead(drifts, window);
      MeanReverse(drifts[..window]);
      MeanReverse(drifts[n - window..]);
    }
  }

  /** Direction label of a drift value. */
  function DriftDirection(drift: real): (d: Direction)
    ensures d == Eastward <==> drift > 0.0
    ensures d == Westward <==> drift < 0.0
    ensures d == Stable <==> drift == 0.0
  {
    if drift > 0.0 then Eastward
    else if drift < 0.0 then Westward
    else Stable
  }

  /** Faster than geostationary drifts east, slower drifts west. */
  lemma DirectionOfMeanMotion(meanMotion: real)
    ensures DriftDirection(LongitudinalDrift(meanMotion)) == Eastward <==> meanMotion > GEOSYNC_MEAN_MOTION
    ensures DriftDirection(LongitudinalDrift(meanMotion)) == Westward <==> meanMotion < GEOSYNC_MEAN_MOTION
    ensures DriftDirection(LongitudinalDrift(meanMotion)) == Stable <==> meanMotion == GEOSYNC_MEAN_MOTION
  {
  }
}
