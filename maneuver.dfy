/**
 * Maneuver detector (maneuver_detection.py): centred rolling median smoothing, first
 * differences, a robust (median absolute deviation) z-score, candidate flags, persistence
 * confirmation from the medians of the smoothed series before and after each row, and the
 * coefficient of variation of the spacing between maneuvers.
 *
 * A pandas column is a sequence aligned by row index; a column that may hold NaN is a
 * sequence of Option, None standing for NaN.
 */
module ManeuverDetection {
  import opened Wrappers
  import opened Stats

  /** Below this the MAD, and then the standard deviation, count as zero (`threshold=1e-9`). */
  const MAD_EPSILON: real := 0.000000001
  /** Scales a MAD to a normal standard deviation. */
  const MAD_SCALE: real := 0.6745
  const SECONDS_PER_DAY: int := 86400

  // ------------------------------------------------------------ smoothing

  /** Rows a centred window of 3 covers at row `i`, cut at both ends of the column. */
  function Neighbourhood(s: seq<real>, i: nat): (w: seq<real>)
    requires i < |s|
    ensures 1 <= |w| <= 3
  {
    s[(if i == 0 then 0 else i - 1) .. (if i + 2 <= |s| then i + 2 else |s|)]
  }

  /** `rolling(window=3, min_periods=1, center=True).median()`. */
  function RollingMedian3(s: seq<real>): (r: seq<real>)
    ensures |r| == |s|
  {
    seq(|s|, i requires 0 <= i < |s| => MedianOf(Neighbourhood(s, i)))
  }

  /** Smoothing never leaves the range of the neighbours it looks at. */
  lemma RollingMedianWithinNeighbours(s: seq<real>, i: nat)
    requires i < |s|
    ensures Min(Neighbourhood(s, i)) <= RollingMedian3(s)[i] <= Max(Neighbourhood(s, i))
  {
    var w := Neighbourhood(s, i);
    MinMaxBound(w);
    MedianBounds(w, Min(w), Max(w));
  }

  /** Smoothing leaves a constant column unchanged. */
  lemma RollingMedianOfConstant(s: seq<real>, c: real)
    requires forall i :: 0 <= i < |s| ==> s[i] == c
    ensures RollingMedian3(s) == s
  {
    forall i | 0 <= i < |s| ensures RollingMedian3(s)[i] == s[i] {
      MedianOfConstant(Neighbourhood(s, i), c);
    }
  }

  /** At either end the window holds two rows, and their median is their average. */
  lemma RollingMedianAtEnds(s: seq<real>)
    requires |s| >= 2
    ensures RollingMedian3(s)[0] == (s[0] + s[1]) / 2.0
    ensures RollingMedian3(s)[|s| - 1] == (s[|s| - 2] + s[|s| - 1]) / 2.0
  {
    var n := |s|;
    assert Neighbourhood(s, 0) == [s[0], s[1]];
    assert Neighbourhood(s, n - 1) == [s[n - 2], s[n - 1]];
    MedianOfTwo(s[0], s[1]);
    MedianOfTwo(s[n - 2], s[n - 1]);
  }

  /** An isolated one-row outlier between two equal neighbours is removed. */
  lemma RollingMedianRemovesSpike(s: seq<real>, i: nat)
    requires 1 <= i && i + 1 < |s|
    requires s[i - 1] == s[i + 1]
    ensures RollingMedian3(s)[i] == s[i - 1]
  {
    MedianOfThreeIgnoresSpike(Neighbourhood(s, i));
  }

  // ------------------------------------------------------------ differences and z-scores

  /** `Series.diff()`: NaN in row 0, then the change from the previous row. */
  function Diff(s: seq<real>): (d: seq<Option<real>>)
    ensures |d| == |s|
  {
    seq(|s|, i requires 0 <= i < |s| => if i == 0 then None else Some(s[i] - s[i - 1]))
  }

  /** Row i of the difference is NaN in row 0 and the change from the row before otherwise. */
  lemma DiffAt(s: seq<real>, i: nat)
    requires i < |s|
    ensures Diff(s)[i].Some? <==> i >= 1
    ensures i >= 1 ==> Diff(s)[i].value == s[i] - s[i - 1]
  {
  }

  /** `fillna(0)`. */
  function FillNaZero(d: seq<Option<real>>): (x: seq<real>)
    ensures |x| == |d|
  {
    seq(|d|, i requires 0 <= i < |d| => d[i].GetOr(0.0))
  }

  function AbsDeviations(x: seq<real>, m: real): (r: seq<real>)
    ensures |r| == |x|
  {
    seq(|x|, i requires 0 <= i < |x| => Abs(x[i] - m))
  }

  /** Median absolute deviation of a non-empty sample. */
  function Mad(x: seq<real>): real
    requires |x| > 0
  {
    MedianOf(AbsDeviations(x, MedianOf(x)))
  }

  /**
   * `mad_zscore`: 0.6745 (x - median) / MAD; when the MAD is below 1e-9, the classical
   * (x - mean) / std with the population standard deviation; all zeros when that is below
   * 1e-9 as well.
   */
  function MadZScore(x: seq<real>, sqrt: real -> real): (z: seq<real>)
    ensures |z| == |x|
  {
    if |x| == 0 then []
    else
      var mad := Mad(x);
      if mad < MAD_EPSILON then
        var std := sqrt(PopulationVariance(x));
        if std < MAD_EPSILON then seq(|x|, i => 0.0)
        else Standardize(x, Mean(x), 1.0, std)
      else Standardize(x, MedianOf(x), MAD_SCALE, mad)
  }

  /** k (v - center) / spread for every value v. */
  function Standardize(x: seq<real>, center: real, k: real, spread: real): (z: seq<real>)
    requires spread != 0.0
    ensures |z| == |x|
  {
    seq(|x|, i requires 0 <= i < |x| => k * (x[i] - center) / spread)
  }

  /** With positive factors, standardising keeps order and the sign of the offset from the centre. */
  lemma StandardizeKeepsOrder(x: seq<real>, center: real, k: real, spread: real, i: nat, j: nat)
    requires k > 0.0 && spread > 0.0
    requires i < |x| && j < |x|
    ensures x[i] <= x[j] ==> Standardize(x, center, k, spread)[i] <= Standardize(x, center, k, spread)[j]
    ensures Standardize(x, center, k, spread)[i] > 0.0 <==> x[i] > center
    ensures Standardize(x, center, k, spread)[i] < 0.0 <==> x[i] < center
    ensures Standardize(x, center, k, spread)[i] == 0.0 <==> x[i] == center
  {
  }

  /** The z-score keeps the order of the values it scores. */
  lemma ZScoreKeepsOrder(x: seq<real>, sqrt: real -> real, i: nat, j: nat)
    requires i < |x| && j < |x|
    requires x[i] <= x[j]
    ensures MadZScore(x, sqrt)[i] <= MadZScore(x, sqrt)[j]
  {
    var mad := Mad(x);
    var std := sqrt(PopulationVariance(x));
    if mad >= MAD_EPSILON {
      StandardizeKeepsOrder(x, MedianOf(x), MAD_SCALE, mad, i, j);
    } else if std >= MAD_EPSILON {
      StandardizeKeepsOrder(x, Mean(x), 1.0, std, i, j);
    }
  }

  /** With a MAD of at least 1e-9, a z-score has the sign of the value's offset from the median. */
  lemma ZScoreSignFollowsMedian(x: seq<real>, sqrt: real -> real, i: nat)
    requires i < |x|
    requires Mad(x) >= MAD_EPSILON
    ensures MadZScore(x, sqrt)[i] > 0.0 <==> x[i] > MedianOf(x)
    ensures MadZScore(x, sqrt)[i] < 0.0 <==> x[i] < MedianOf(x)
    ensures MadZScore(x, sqrt)[i] == 0.0 <==> x[i] == MedianOf(x)
  {
    StandardizeKeepsOrder(x, MedianOf(x), MAD_SCALE, Mad(x), i, i);
  }

  /** When both the MAD and the standard deviation are negligible, every z-score is zero. */
  lemma ZScoreOfFlatSample(x: seq<real>, sqrt: real -> real)
    requires |x| > 0
    requires Mad(x) < MAD_EPSILON && sqrt(PopulationVariance(x)) < MAD_EPSILON
    ensures forall i :: 0 <= i < |x| ==> MadZScore(x, sqrt)[i] == 0.0
  {
  }

  /** A constant sample scores zero everywhere. */
  lemma ZScoreOfConstant(x: seq<real>, sqrt: real -> real, c: real)
    requires IsSqrt(sqrt)
    requires forall i :: 0 <= i < |x| ==> x[i] == c
    ensures forall i :: 0 <= i < |x| ==> MadZScore(x, sqrt)[i] == 0.0
  {
    if |x| > 0 {
      MedianOfConstant(x, c);
      var devs := AbsDeviations(x, MedianOf(x));
      MedianOfConstant(devs, 0.0);
      ConstantSample(x, c);
    }
  }

  // ------------------------------------------------------------ persistence windows

  /** A numeric column as a column that could hold NaN. */
  function Lift(s: seq<real>): (t: seq<Option<real>>)
    ensures |t| == |s|
  {
    seq(|s|, i requires 0 <= i < |s| => Some(s[i]))
  }

  /** `Series.shift(-h)`: row j takes row j + h, NaN past the end. */
  function ShiftBack(s: seq<real>, h: nat): (t: seq<Option<real>>)
    ensures |t| == |s|
  {
    seq(|s|, j requires 0 <= j < |s| => if j + h < |s| then Some(s[j + h]) else None)
  }

  /** The raw window `rolling(window=w, center=False)` hands to `apply` at row i. */
  function Trailing(t: seq<Option<real>>, w: nat, i: nat): (arr: seq<Option<real>>)
    requires i < |t|
  {
    t[(if i + 1 >= w then i + 1 - w else 0) .. i + 1]
  }

  /** A window of at least one row ends with row i. */
  lemma TrailingLast(t: seq<Option<real>>, w: nat, i: nat)
    requires i < |t| && w >= 1
    ensures |Trailing(t, w, i)| >= 1 && Trailing(t, w, i)[|Trailing(t, w, i)| - 1] == t[i]
  {
  }

  /** Row j of the shifted column is row j + h of the column, when that exists. */
  lemma ShiftBackAt(s: seq<real>, h: nat, j: nat)
    requires j + h < |s|
    ensures ShiftBack(s, h)[j] == Some(s[j + h])
  {
  }

  predicate AnyPresent(arr: seq<Option<real>>) {
    exists k :: 0 <= k < |arr| && arr[k].Some?
  }

  /** Python's `arr[:-h]`: the last h entries dropped, and nothing left when h is 0. */
  function DropLast(arr: seq<Option<real>>, h: nat): seq<Option<real>>
    requires h <= |arr|
  {
    if h == 0 then [] else arr[..|arr| - h]
  }

  /**
   * Median before row i: a rolling window of 2h+1 over the smoothed column, applying
   * `np.median(arr[:-h]) if len(arr) > h else nan`; min_periods=1 needs one non-NaN entry.
   */
  function PreMedian(s: seq<real>, h: nat, i: nat): Option<real>
    requires i < |s|
  {
    var arr := Trailing(Lift(s), 2 * h + 1, i);
    if !AnyPresent(arr) then None
    else if |arr| > h then NpMedian(DropLast(arr, h))
    else None
  }

  /**
   * Median after row i: the same rolling window over the column shifted back by h rows,
   * applying `np.median(arr[h:]) if len(arr) > h else nan`.
   */
  function PostMedian(s: seq<real>, h: nat, i: nat): Option<real>
    requires i < |s|
  {
    var arr := Trailing(ShiftBack(s, h), 2 * h + 1, i);
    if !AnyPresent(arr) then None
    else if |arr| > h then NpMedian(arr[h..])
    else None
  }

  /** The absolute change between the two medians (`sma_med_delta`, `inc_med_delta`). */
  function StepSize(s: seq<real>, h: nat, i: nat): (r: Option<real>)
    requires i < |s|
    ensures r.Some? ==> r.value >= 0.0
  {
    var pre, post := PreMedian(s, h, i), PostMedian(s, h, i);
    if pre.Some? && post.Some? then Some(Abs(post.value - pre.value)) else None
  }

  /** First row of the window before row i: max(0, i - 2h). */
  function PreStart(h: nat, i: nat): nat {
    if i >= 2 * h then i - 2 * h else 0
  }

  /** First row of the window after row i: max(2h, i). */
  function PostStart(h: nat, i: nat): nat {
    if i >= 2 * h then i else 2 * h
  }

  /** Rows lo ..< hi of a lifted column hold no NaN, and their numbers are the rows of the column. */
  lemma LiftedValues(s: seq<real>, lo: nat, hi: nat)
    requires lo <= hi <= |s|
    ensures forall k :: 0 <= k < hi - lo ==> Lift(s)[lo..hi][k].Some?
    ensures Values(Lift(s)[lo..hi]) == s[lo..hi]
  {
    var arr := Lift(s)[lo..hi];
    forall k | 0 <= k < hi - lo ensures arr[k] == Some(s[lo..hi][k]) {
      assert arr[k] == Lift(s)[lo + k];
    }
  }

  /** A window of rows that hold no NaN has the plain median of those rows. */
  lemma LiftedMedian(s: seq<real>, lo: nat, hi: nat)
    requires lo < hi <= |s|
    ensures NpMedian(Lift(s)[lo..hi]) == Some(MedianOf(s[lo..hi]))
  {
    LiftedValues(s, lo, hi);
  }

  /** The part of the raw window before row i that `pre_median` keeps, from row h on. */
  lemma PreWindowContents(s: seq<real>, h: nat, i: nat)
    requires h <= i < |s|
    ensures var arr := Trailing(Lift(s), 2 * h + 1, i);
      && |arr| > h && arr[|arr| - 1].Some?
      && DropLast(arr, h) == if h == 0 then [] else Lift(s)[PreStart(h, i) .. i - h + 1]
  {
    var lo := if i + 1 >= 2 * h + 1 then i + 1 - (2 * h + 1) else 0;
    var arr := Trailing(Lift(s), 2 * h + 1, i);
    assert lo == PreStart(h, i);
    assert arr == Lift(s)[lo .. i + 1];
  }

  lemma PreMedianOfWindow(s: seq<real>, h: nat, i: nat)
    requires h <= i < |s|
    ensures PreMedian(s, h, i) == if h == 0 then None else NpMedian(Lift(s)[PreStart(h, i) .. i - h + 1])
  {
    var arr := Trailing(Lift(s), 2 * h + 1, i);
    PreWindowContents(s, h, i);
    assert AnyPresent(arr) by {
      assert arr[|arr| - 1].Some?;
    }
  }

  /** Rows before h have no median before them: the trailing window holds h rows or fewer. */
  lemma PreMedianUndefined(s: seq<real>, h: nat, i: nat)
    requires i < h && i < |s|
    ensures PreMedian(s, h, i) == None
  {
    assert |Trailing(Lift(s), 2 * h + 1, i)| <= h;
  }

  /**
   * The window before row i is rows max(0, i-2h) ..= i-h: it exists from row h on, and it
   * never exists when h is 0.
   */
  lemma PreMedianWindow(s: seq<real>, h: nat, i: nat)
    requires i < |s|
    ensures PreMedian(s, h, i).Some? <==> 1 <= h <= i
    ensures 1 <= h <= i ==> PreMedian(s, h, i) == NpMedian(Lift(s)[PreStart(h, i) .. i - h + 1])
  {
    if h <= i {
      PreMedianOfWindow(s, h, i);
    } else {
      PreMedianUndefined(s, h, i);
    }
  }

  /** Rows before h, and rows whose h-th successor is past the end, have no median after them. */
  lemma PostMedianUndefined(s: seq<real>, h: nat, i: nat)
    requires i < |s|
    requires i < h || i + h >= |s|
    ensures PostMedian(s, h, i) == None
  {
    var lo := if i + 1 >= 2 * h + 1 then i + 1 - (2 * h + 1) else 0;
    var arr := Trailing(ShiftBack(s, h), 2 * h + 1, i);
    assert |arr| == i + 1 - lo;
    if h <= i {
      assert arr[h..][|arr| - h - 1] == arr[|arr| - 1] == None;
    }
  }

  /** Rows a ..< b of the column shifted back by h are rows a+h ..< b+h of the column, when those exist. */
  lemma ShiftBackSlice(s: seq<real>, h: nat, a: nat, b: nat)
    requires a <= b && b + h <= |s|
    ensures ShiftBack(s, h)[a..b] == Lift(s)[a + h .. b + h]
  {
    var t := ShiftBack(s, h);
    forall k | 0 <= k < b - a ensures t[a..b][k] == Lift(s)[a + h .. b + h][k] {
      assert t[a..b][k] == t[a + k] == Some(s[a + k + h]);
    }
  }

  /** The raw window after row i is longer than h and ends with a number, when row i+h exists. */
  lemma PostWindowLast(s: seq<real>, h: nat, i: nat)
    requires h <= i && i + h < |s|
    ensures var arr := Trailing(ShiftBack(s, h), 2 * h + 1, i);
      |arr| > h && arr[|arr| - 1].Some?
  {
    TrailingLast(ShiftBack(s, h), 2 * h + 1, i);
    ShiftBackAt(s, h, i);
  }

  /** The part of the raw window after row i that `post_median` keeps, when row i+h exists. */
  lemma PostWindowContents(s: seq<real>, h: nat, i: nat)
    requires h <= i && i + h < |s|
    ensures var arr := Trailing(ShiftBack(s, h), 2 * h + 1, i);
      |arr| > h && arr[h..] == Lift(s)[PostStart(h, i) .. i + h + 1]
  {
    var lo := if i + 1 >= 2 * h + 1 then i + 1 - (2 * h + 1) else 0;
    var t := ShiftBack(s, h);
    var arr := Trailing(t, 2 * h + 1, i);
    assert PostStart(h, i) == lo + 2 * h;
    assert arr[h..] == t[lo + h .. i + 1];
    ShiftBackSlice(s, h, lo + h, i + 1);
  }

  lemma PostMedianOfWindow(s: seq<real>, h: nat, i: nat)
    requires h <= i && i + h < |s|
    ensures PostMedian(s, h, i) == NpMedian(Lift(s)[PostStart(h, i) .. i + h + 1])
  {
    var arr := Trailing(ShiftBack(s, h), 2 * h + 1, i);
    PostWindowLast(s, h, i);
    PostWindowContents(s, h, i);
    assert AnyPresent(arr) by {
      assert arr[|arr| - 1].Some?;
    }
  }

  /**
   * The window after row i is rows max(2h, i) ..= i+h: it exists from row h on, as long as
   * row i+h exists. For rows h .. 2h-1 it starts after row i, not at it.
   */
  lemma PostMedianWindow(s: seq<real>, h: nat, i: nat)
    requires i < |s|
    ensures PostMedian(s, h, i).Some? <==> h <= i && i + h < |s|
    ensures h <= i && i + h < |s| ==>
      PostMedian(s, h, i) == NpMedian(Lift(s)[PostStart(h, i) .. i + h + 1])
  {
    if h <= i && i + h < |s| {
      PostMedianOfWindow(s, h, i);
    } else {
      PostMedianUndefined(s, h, i);
    }
  }

  /** The step size exists exactly for the rows h .. n-1-h, and only when h is at least 1. */
  lemma StepSizeDefined(s: seq<real>, h: nat, i: nat)
    requires i < |s|
    ensures StepSize(s, h, i).Some? <==> 1 <= h <= i && i + h < |s|
  {
    PreMedianWindow(s, h, i);
    PostMedianWindow(s, h, i);
  }

  // ------------------------------------------------------------ candidates and events

  /** Detection thresholds (`z_thresh`, `sma_abs_thresh_km`, `inc_abs_thresh_deg`, `persist_window`). */
  datatype Params = Params(zThresh: real, smaThresh: real, incThresh: real, persistWindow: nat)

  /** Row i of a difference column and of its z-scores both clear their thresholds. */
  predicate Candidate(d: seq<Option<real>>, z: seq<real>, absThresh: real, zThresh: real, i: nat)
    requires i < |d| && i < |z|
  {
    d[i].Some? && Abs(d[i].value) >= absThresh && Abs(z[i]) >= zThresh
  }

  /** A candidate whose step size also reaches the absolute threshold. */
  predicate Confirmed(candidate: bool, step: Option<real>, absThresh: real) {
    candidate && step.Some? && step.value >= absThresh
  }

  /** A confirmed candidate has a change and a z-score reaching their thresholds, and a step reaching the absolute one. */
  lemma ConfirmedClears(d: seq<Option<real>>, z: seq<real>, absThresh: real, zThresh: real, step: Option<real>, i: nat)
    requires i < |d| && i < |z|
    requires Confirmed(Candidate(d, z, absThresh, zThresh, i), step, absThresh)
    ensures d[i].Some? && Abs(d[i].value) >= absThresh && Abs(z[i]) >= zThresh
    ensures step.Some? && step.value >= absThresh
  {
  }

  /** Whether row i of a raw column is a confirmed event, stage by stage as the detector computes it. */
  predicate EventAt(series: seq<real>, absThresh: real, zThresh: real, h: nat, sqrt: real -> real, i: nat)
    requires i < |series|
  {
    var s := RollingMedian3(series);
    var d := Diff(s);
    var z := MadZScore(FillNaZero(d), sqrt);
    Confirmed(Candidate(d, z, absThresh, zThresh, i), StepSize(s, h, i), absThresh)
  }

  /**
   * A confirmed event clears all three thresholds (non-strictly): the change of the smoothed
   * value, its z-score, and the step between the medians before and after.
   */
  lemma EventClearsThresholds(series: seq<real>, absThresh: real, zThresh: real, h: nat, sqrt: real -> real, i: nat)
    requires i < |series|
    requires EventAt(series, absThresh, zThresh, h, sqrt, i)
    ensures var s := RollingMedian3(series);
      && i >= 1
      && Abs(s[i] - s[i - 1]) >= absThresh
      && Abs(MadZScore(FillNaZero(Diff(s)), sqrt)[i]) >= zThresh
      && StepSize(s, h, i).Some? && StepSize(s, h, i).value >= absThresh
  {
    var s := RollingMedian3(series);
    var d := Diff(s);
    var z := MadZScore(FillNaZero(d), sqrt);
    ConfirmedClears(d, z, absThresh, zThresh, StepSize(s, h, i), i);
    DiffAt(s, i);
  }

  /** No event is confirmed in row 0, in the first h rows, in the last h rows, or at all when h is 0. */
  lemma NoEventNearEdges(series: seq<real>, absThresh: real, zThresh: real, h: nat, sqrt: real -> real, i: nat)
    requires i < |series|
    requires i == 0 || i < h || i + h >= |series| || h == 0
    ensures !EventAt(series, absThresh, zThresh, h, sqrt, i)
  {
    StepSizeDefined(RollingMedian3(series), h, i);
  }

  /** A column that never changes yields no event when the absolute threshold is positive. */
  lemma NoEventOnConstantSeries(series: seq<real>, c: real, absThresh: real, zThresh: real, h: nat, sqrt: real -> real, i: nat)
    requires i < |series|
    requires forall k :: 0 <= k < |series| ==> series[k] == c
    requires absThresh > 0.0
    ensures !EventAt(series, absThresh, zThresh, h, sqrt, i)
  {
    RollingMedianOfConstant(series, c);
  }

  /** The detector's output table: the columns `detect_navik_maneuvers` adds, row-aligned. */
  datatype ManeuverTable = ManeuverTable(
    smaSmooth: seq<real>, incSmooth: seq<real>,
    dSma: seq<Option<real>>, dInc: seq<Option<real>>,
    zSma: seq<real>, zInc: seq<real>,
    smaCandidate: seq<bool>, incCandidate: seq<bool>,
    smaStep: seq<Option<real>>, incStep: seq<Option<real>>,
    ew: seq<bool>, ns: seq<bool>, maneuver: seq<bool>)

  /** The candidate column: all False, then True wherever both thresholds are cleared. */
  method FlagCandidates(d: seq<Option<real>>, z: seq<real>, absThresh: real, zThresh: real)
    returns (candidate: seq<bool>)
    requires |d| == |z|
    ensures |candidate| == |d|
    ensures forall i :: 0 <= i < |d| ==> candidate[i] == Candidate(d, z, absThresh, zThresh, i)
  {
    var flags := new bool[|d|](_ => false);
    for i := 0 to |d|
      invariant forall k :: 0 <= k < i ==> flags[k] == Candidate(d, z, absThresh, zThresh, k)
      invariant forall k :: i <= k < |d| ==> !flags[k]
    {
      if Candidate(d, z, absThresh, zThresh, i) {
        flags[i] := true;
      }
    }
    candidate := flags[..];
  }

  /** The event column: all False, then True at candidates whose step size reaches the threshold. */
  method FlagConfirmed(candidate: seq<bool>, step: seq<Option<real>>, absThresh: real)
    returns (confirmed: seq<bool>)
    requires |candidate| == |step|
    ensures |confirmed| == |candidate|
    ensures forall i :: 0 <= i < |candidate| ==> confirmed[i] == Confirmed(candidate[i], step[i], absThresh)
  {
    var flags := new bool[|candidate|](_ => false);
    for i := 0 to |candidate|
      invariant forall k :: 0 <= k < i ==> flags[k] == Confirmed(candidate[k], step[k], absThresh)
      invariant forall k :: i <= k < |candidate| ==> !flags[k]
    {
      if candidate[i] && step[i].Some? && step[i].value >= absThresh {
        flags[i] := true;
      }
    }
    confirmed := flags[..];
  }

  /** Candidate, step-size and confirmed-event columns for one tracked quantity. */
  method ConfirmEvents(series: seq<real>, absThresh: real, zThresh: real, h: nat, sqrt: real -> real)
    returns (smooth: seq<real>, d: seq<Option<real>>, z: seq<real>,
             candidate: seq<bool>, step: seq<Option<real>>, confirmed: seq<bool>)
    ensures smooth == RollingMedian3(series)
    ensures d == Diff(smooth) && z == MadZScore(FillNaZero(d), sqrt)
    ensures |candidate| == |step| == |confirmed| == |series|
    ensures forall i :: 0 <= i < |series| ==> candidate[i] == Candidate(d, z, absThresh, zThresh, i)
    ensures forall i :: 0 <= i < |series| ==> step[i] == StepSize(smooth, h, i)
    ensures forall i :: 0 <= i < |series| ==> (confirmed[i] <==> EventAt(series, absThresh, zThresh, h, sqrt, i))
  {
    smooth := RollingMedian3(series);
    d := Diff(smooth);
    z := MadZScore(FillNaZero(d), sqrt);
    candidate := FlagCandidates(d, z, absThresh, zThresh);
    step := seq(|series|, i requires 0 <= i < |series| => StepSize(smooth, h, i));
    confirmed := FlagConfirmed(candidate, step, absThresh);
  }

  /**
   * `detect_navik_maneuvers` on a series of semimajor axes and inclinations: EW events come from
   * the semimajor axis, NS events from the inclination, and a row is a maneuver when it is either.
   */
  method DetectManeuvers(sma: seq<real>, inc: seq<real>, p: Params, sqrt: real -> real) returns (t: ManeuverTable)
    requires |sma| == |inc|
    ensures |t.ew| == |t.ns| == |t.maneuver| == |sma|
    ensures t.smaSmooth == RollingMedian3(sma) && t.incSmooth == RollingMedian3(inc)
    ensures t.dSma == Diff(t.smaSmooth) && t.zSma == MadZScore(FillNaZero(t.dSma), sqrt)
    ensures t.dInc == Diff(t.incSmooth) && t.zInc == MadZScore(FillNaZero(t.dInc), sqrt)
    ensures |t.smaCandidate| == |t.incCandidate| == |t.smaStep| == |t.incStep| == |sma|
    ensures forall i :: 0 <= i < |sma| ==>
      && t.smaCandidate[i] == Candidate(t.dSma, t.zSma, p.smaThresh, p.zThresh, i)
      && t.incCandidate[i] == Candidate(t.dInc, t.zInc, p.incThresh, p.zThresh, i)
    ensures forall i :: 0 <= i < |sma| ==>
      t.smaStep[i] == StepSize(t.smaSmooth, p.persistWindow, i) && t.incStep[i] == StepSize(t.incSmooth, p.persistWindow, i)
    ensures forall i :: 0 <= i < |sma| ==> (t.ew[i] <==> EventAt(sma, p.smaThresh, p.zThresh, p.persistWindow, sqrt, i))
    ensures forall i :: 0 <= i < |sma| ==> (t.ns[i] <==> EventAt(inc, p.incThresh, p.zThresh, p.persistWindow, sqrt, i))
    ensures forall i :: 0 <= i < |sma| ==> (t.maneuver[i] <==> t.ew[i] || t.ns[i])
  {
    var smaSmooth, dSma, zSma, smaCandidate, smaStep, ew :=
      ConfirmEvents(sma, p.smaThresh, p.zThresh, p.persistWindow, sqrt);
    var incSmooth, dInc, zInc, incCandidate, incStep, ns :=
      ConfirmEvents(inc, p.incThresh, p.zThresh, p.persistWindow, sqrt);
    var maneuver := seq(|sma|, i requires 0 <= i < |sma| => ew[i] || ns[i]);
    t := ManeuverTable(smaSmooth, incSmooth, dSma, dInc, zSma, zInc,
                       smaCandidate, incCandidate, smaStep, incStep, ew, ns, maneuver);
  }

  /** Constant semimajor axis and inclination with positive thresholds: no maneuver anywhere. */
  lemma NoManeuversOnConstantSeries(sma: seq<real>, inc: seq<real>, a: real, b: real, p: Params, sqrt: real -> real)
    requires |sma| == |inc|
    requires forall k :: 0 <= k < |sma| ==> sma[k] == a && inc[k] == b
    requires p.smaThresh > 0.0 && p.incThresh > 0.0
    ensures forall i :: 0 <= i < |sma| ==>
      !EventAt(sma, p.smaThresh, p.zThresh, p.persistWindow, sqrt, i) &&
      !EventAt(inc, p.incThresh, p.zThresh, p.persistWindow, sqrt, i)
  {
    forall i | 0 <= i < |sma|
      ensures !EventAt(sma, p.smaThresh, p.zThresh, p.persistWindow, sqrt, i)
      ensures !EventAt(inc, p.incThresh, p.zThresh, p.persistWindow, sqrt, i)
    {
      NoEventOnConstantSeries(sma, a, p.smaThresh, p.zThresh, p.persistWindow, sqrt, i);
      NoEventOnConstantSeries(inc, b, p.incThresh, p.zThresh, p.persistWindow, sqrt, i);
    }
  }

  // ------------------------------------------------------------ uniformity

  /** Whole days between consecutive instants (seconds) of an ascending sequence: `timedelta.days`. */
  function DayGaps(t: seq<real>): (g: seq<real>)
    requires |t| >= 1
    ensures |g| == |t| - 1
  {
    seq(|t| - 1, i requires 0 <= i < |t| - 1 => (((t[i + 1] - t[i]).Floor / SECONDS_PER_DAY) as real))
  }

  /**
   * `calculate_maneuver_uniformity`: the coefficient of variation (population standard
   * deviation over mean) of the whole-day gaps between the sorted maneuver instants (seconds);
   * None with fewer than two maneuvers or a zero mean gap.
   */
  function Uniformity(instants: seq<real>, sqrt: real -> real): (r: Option<real>)
    ensures r.Some? ==> |instants| >= 2
  {
    if |instants| < 2 then None
    else
      var gaps := DayGaps(Sort(instants));
      var mean := Mean(gaps);
      if mean == 0.0 then None else Some(sqrt(PopulationVariance(gaps)) / mean)
  }

  lemma DayGapsNonNegative(t: seq<real>)
    requires |t| >= 1 && Sorted(t)
    ensures forall i :: 0 <= i < |t| - 1 ==> DayGaps(t)[i] >= 0.0
  {
    forall i | 0 <= i < |t| - 1 ensures DayGaps(t)[i] >= 0.0 {
      assert t[i] <= t[i + 1];
    }
  }

  /** A whole-day gap of ascending instants that is not 0 is at least one day. */
  lemma NonZeroGapIsWholeDay(t: seq<real>, i: int)
    requires |t| >= 2 && Sorted(t) && 0 <= i < |t| - 1
    requires DayGaps(t)[i] != 0.0
    ensures DayGaps(t)[i] >= 1.0
  {
    var n := (t[i + 1] - t[i]).Floor / SECONDS_PER_DAY;
    assert DayGaps(t)[i] == n as real;
    DayGapsNonNegative(t);
  }

  /** Ascending instants have a non-zero mean day gap exactly when some gap is a whole day or more. */
  lemma MeanDayGapPositive(t: seq<real>)
    requires |t| >= 2 && Sorted(t)
    ensures Mean(DayGaps(t)) != 0.0 <==> exists i :: 0 <= i < |t| - 1 && DayGaps(t)[i] >= 1.0
  {
    var gaps := DayGaps(t);
    DayGapsNonNegative(t);
    SumZero(gaps);
    MeanZero(gaps);
    if Sum(gaps) != 0.0 {
      var i :| 0 <= i < |gaps| && gaps[i] != 0.0;
      NonZeroGapIsWholeDay(t, i);
    }
  }

  /**
   * A coefficient of variation exists exactly when there are two or more maneuvers and
   * some consecutive pair of sorted instants lies at least a whole day apart: a mean of
   * non-negative whole-day gaps is 0 only when every gap is.
   */
  lemma UniformityDefined(instants: seq<real>, sqrt: real -> real)
    ensures Uniformity(instants, sqrt).Some? <==>
      |instants| >= 2 && exists i :: 0 <= i < |instants| - 1 && DayGaps(Sort(instants))[i] >= 1.0
  {
    if |instants| >= 2 {
      var t := Sort(instants);
      assert Uniformity(instants, sqrt).Some? <==> Mean(DayGaps(t)) != 0.0;
      MeanDayGapPositive(t);
    }
  }

  /** The coefficient of variation is never negative. */
  lemma UniformityNonNegative(instants: seq<real>, sqrt: real -> real)
    requires IsSqrt(sqrt)
    requires Uniformity(instants, sqrt).Some?
    ensures Uniformity(instants, sqrt).value >= 0.0
  {
    var gaps := DayGaps(Sort(instants));
    DayGapsNonNegative(Sort(instants));
    MinMaxBound(gaps);
    MeanBounds(gaps, 0.0, Max(gaps));
  }

  /** The order in which maneuvers are listed does not matter. */
  lemma UniformityIgnoresOrder(a: seq<real>, b: seq<real>, sqrt: real -> real)
    requires multiset(a) == multiset(b)
    ensures Uniformity(a, sqrt) == Uniformity(b, sqrt)
  {
    assert |multiset(a)| == |multiset(b)|;
    SortPermutationInvariant(a, b);
  }

  /** Sorted instants whose day gaps all equal the same positive number are perfectly regular. */
  lemma EqualGapsAreUniform(t: seq<real>, g: real, sqrt: real -> real)
    requires IsSqrt(sqrt)
    requires |t| >= 2 && Sorted(t) && g > 0.0
    requires forall i :: 0 <= i < |t| - 1 ==> DayGaps(t)[i] == g
    ensures Uniformity(t, sqrt) == Some(0.0)
  {
    SortedUnique(Sort(t), t);
    ConstantSample(DayGaps(t), g);
  }

  /** Maneuvers evenly spaced by at least one day are perfectly regular. */
  lemma RegularScheduleIsUniform(instants: seq<real>, start: real, gap: real, sqrt: real -> real)
    requires IsSqrt(sqrt)
    requires |instants| >= 2 && gap >= SECONDS_PER_DAY as real
    requires forall i :: 0 <= i < |instants| ==> instants[i] == start + (i as real) * gap
    ensures Uniformity(instants, sqrt) == Some(0.0)
  {
    var t := instants;
    assert Sorted(t) by {
      forall i, j | 0 <= i < j < |t| ensures t[i] <= t[j] {
        assert (j as real) * gap - (i as real) * gap == ((j - i) as real) * gap;
      }
    }
    forall i | 0 <= i < |t| - 1 ensures DayGaps(t)[i] == ((gap.Floor / SECONDS_PER_DAY) as real) {
      assert ((i + 1) as real) * gap == (i as real) * gap + gap;
      assert t[i + 1] - t[i] == gap;
    }
    EqualGapsAreUniform(t, (gap.Floor / SECONDS_PER_DAY) as real, sqrt);
  }

  /** Two ascending maneuvers at least a day apart: one gap, so nothing varies. */
  lemma UniformityOfOrderedPair(t0: real, t1: real, sqrt: real -> real)
    requires IsSqrt(sqrt)
    requires t1 - t0 >= SECONDS_PER_DAY as real
    ensures Uniformity([t0, t1], sqrt) == Some(0.0)
  {
    var u := [t0, t1];
    assert Sorted(u);
    var g := DayGaps(u)[0];
    assert (t1 - t0).Floor >= SECONDS_PER_DAY;
    assert g > 0.0;
    EqualGapsAreUniform(u, g, sqrt);
  }

  /** Two maneuvers at least a day apart have a coefficient of variation of 0. */
  lemma UniformityOfTwoManeuvers(t0: real, t1: real, sqrt: real -> real)
    requires IsSqrt(sqrt)
    requires Abs(t1 - t0) >= SECONDS_PER_DAY as real
    ensures Uniformity([t0, t1], sqrt) == Some(0.0)
  {
    if t0 <= t1 {
      UniformityOfOrderedPair(t0, t1, sqrt);
    } else {
      assert multiset([t1, t0]) == multiset([t0, t1]);
      UniformityIgnoresOrder([t0, t1], [t1, t0], sqrt);
      UniformityOfOrderedPair(t1, t0, sqrt);
    }
  }

  /** Fewer than two maneuvers have no defined spacing. */
  lemma UniformityNeedsTwoManeuvers(instants: seq<real>, sqrt: real -> real)
    requires |instants| < 2
    ensures Uniformity(instants, sqrt) == None
  {
  }
}
