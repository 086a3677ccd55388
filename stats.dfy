/**
 * The NumPy / pandas / `statistics` reductions the analytics core relies on, over exact reals:
 * sums, means, variances, minimum and maximum, sorting and the median (`np.median`, which
 * averages the two middle values of an even-length sample).
 *
 * Square roots are not computed: callers pass a square-root function, and lemmas that need
 * its meaning assume `IsSqrt` of it.
 */
module Stats {
  import opened Wrappers

  /** `sqrt` is a square root on the non-negative reals. */
  ghost predicate IsSqrt(sqrt: real -> real) {
    && sqrt(0.0) == 0.0
    && forall x: real :: 0.0 <= x ==> 0.0 <= sqrt(x) && sqrt(x) * sqrt(x) == x
  }

  lemma SquarePositive(x: real)
    requires x != 0.0
    ensures x * x > 0.0
  {
    if x < 0.0 {
      assert x * x == (-x) * (-x);
    }
  }

  lemma SquareNonNegative(x: real)
    ensures x * x >= 0.0
  {
    if x != 0.0 {
      SquarePositive(x);
    }
  }

  function Abs(x: real): (r: real)
    ensures 0.0 <= r && (r == x || r == -x)
  {
    if x < 0.0 then -x else x
  }

  function Sum(s: seq<real>): real {
    if s == [] then 0.0 else s[0] + Sum(s[1..])
  }

  lemma {:induction false} SumAppend(a: seq<real>, b: seq<real>)
    ensures Sum(a + b) == Sum(a) + Sum(b)
  {
    if a == [] {
      assert a + b == b;
    } else {
      assert (a + b)[1..] == a[1..] + b;
      SumAppend(a[1..], b);
    }
  }

  /** A sum of non-negative values is non-negative, and 0 exactly when every value is 0. */
  lemma {:induction false} SumZero(s: seq<real>)
    requires forall i :: 0 <= i < |s| ==> s[i] >= 0.0
    ensures Sum(s) >= 0.0
    ensures Sum(s) == 0.0 <==> forall i :: 0 <= i < |s| ==> s[i] == 0.0
  {
    if s != [] {
      SumZero(s[1..]);
      if Sum(s) == 0.0 {
        forall i | 1 <= i < |s| ensures s[i] == 0.0 {
          assert s[i] == s[1..][i - 1];
        }
      } else {
        assert s[0] != 0.0 || exists i :: 0 <= i < |s[1..]| && s[1..][i] != 0.0;
      }
    }
  }

  /** Arithmetic mean (`Series.mean`, `np.mean`, `statistics.mean`) of a non-empty sample. */
  function Mean(s: seq<real>): real
    requires |s| > 0
  {
    Sum(s) / (|s| as real)
  }

  /** The mean is 0 exactly when the sum is. */
  lemma MeanZero(s: seq<real>)
    requires |s| > 0
    ensures Mean(s) == 0.0 <==> Sum(s) == 0.0
  {
  }

  /** Sum of squared deviations from `m`. */
  function SquaredDeviations(s: seq<real>, m: real): (r: real)
    ensures 0.0 <= r
  {
    if s == [] then 0.0
    else
      SquareNonNegative(s[0] - m);
      (s[0] - m) * (s[0] - m) + SquaredDeviations(s[1..], m)
  }

  /** Population variance (`np.std` and `np.nanstd` use ddof = 0). */
  function PopulationVariance(s: seq<real>): (r: real)
    requires |s| > 0
    ensures 0.0 <= r
  {
    SquaredDeviations(s, Mean(s)) / (|s| as real)
  }

  /** Sample variance (`Series.std` uses ddof = 1); NaN, here None, below two samples. */
  function SampleVariance(s: seq<real>): (r: Option<real>)
    ensures r.Some? <==> |s| >= 2
    ensures r.Some? ==> 0.0 <= r.value
  {
    if |s| < 2 then None else Some(SquaredDeviations(s, Mean(s)) / ((|s| - 1) as real))
  }

  function Min(s: seq<real>): real
    requires |s| > 0
  {
    if |s| == 1 then s[0] else var m := Min(s[1..]); if s[0] <= m then s[0] else m
  }

  function Max(s: seq<real>): real
    requires |s| > 0
  {
    if |s| == 1 then s[0] else var m := Max(s[1..]); if s[0] >= m then s[0] else m
  }

  /** Min and Max are attained and bound every element. */
  lemma {:induction false} MinMaxBound(s: seq<real>)
    requires |s| > 0
    ensures Min(s) in s && Max(s) in s
    ensures forall i :: 0 <= i < |s| ==> Min(s) <= s[i] <= Max(s)
  {
    if |s| > 1 {
      MinMaxBound(s[1..]);
      forall i | 1 <= i < |s| ensures Min(s) <= s[i] <= Max(s) {
        assert s[i] == s[1..][i - 1];
      }
    }
  }

  lemma {:induction false} SumBounds(s: seq<real>, lo: real, hi: real)
    requires forall i :: 0 <= i < |s| ==> lo <= s[i] <= hi
    ensures (|s| as real) * lo <= Sum(s) <= (|s| as real) * hi
  {
    if s != [] {
      SumBounds(s[1..], lo, hi);
    }
  }

  /** A mean lies within any bounds of its sample. */
  lemma MeanBounds(s: seq<real>, lo: real, hi: real)
    requires |s| > 0
    requires forall i :: 0 <= i < |s| ==> lo <= s[i] <= hi
    ensures lo <= Mean(s) <= hi
  {
    SumBounds(s, lo, hi);
    var n := |s| as real;
    assert n * lo <= Sum(s) <= n * hi;
    assert Sum(s) / n >= lo by {
      assert Sum(s) / n * n == Sum(s);
    }
    assert Sum(s) / n <= hi by {
      assert Sum(s) / n * n == Sum(s);
    }
  }

  /** In particular the minimum never exceeds the mean, nor the mean the maximum. */
  lemma MinMeanMax(s: seq<real>)
    requires |s| > 0
    ensures Min(s) <= Mean(s) <= Max(s)
  {
    MinMaxBound(s);
    MeanBounds(s, Min(s), Max(s));
  }

  lemma {:induction false} SumOfConstant(s: seq<real>, c: real)
    requires forall i :: 0 <= i < |s| ==> s[i] == c
    ensures Sum(s) == (|s| as real) * c
  {
    if s != [] {
      SumOfConstant(s[1..], c);
    }
  }

  lemma {:induction false} SquaredDeviationsOfConstant(s: seq<real>, c: real)
    requires forall i :: 0 <= i < |s| ==> s[i] == c
    ensures SquaredDeviations(s, c) == 0.0
  {
    if s != [] {
      SquaredDeviationsOfConstant(s[1..], c);
    }
  }

  /** A constant sample has that constant as mean and no spread. */
  lemma ConstantSample(s: seq<real>, c: real)
    requires |s| > 0
    requires forall i :: 0 <= i < |s| ==> s[i] == c
    ensures Mean(s) == c
    ensures PopulationVariance(s) == 0.0
  {
    SumOfConstant(s, c);
    SquaredDeviationsOfConstant(s, c);
  }

  // ---------------------------------------------------------------- sorting

  predicate Sorted(s: seq<real>) {
    forall i, j :: 0 <= i < j < |s| ==> s[i] <= s[j]
  }

  /** Inserts `x` before the first element it does not exceed. */
  function Insert(x: real, s: seq<real>): (r: seq<real>)
    ensures |r| == |s| + 1
    ensures r[0] == if s == [] || x <= s[0] then x else s[0]
  {
    if s == [] then [x]
    else if x <= s[0] then [x] + s
    else [s[0]] + Insert(x, s[1..])
  }

  /** Insertion into a sorted sequence keeps it sorted. */
  lemma {:induction false} InsertSorted(x: real, s: seq<real>)
    requires Sorted(s)
    ensures Sorted(Insert(x, s))
  {
    if s != [] && x > s[0] {
      var rest := Insert(x, s[1..]);
      InsertSorted(x, s[1..]);
      var r := Insert(x, s);
      assert r == [s[0]] + rest;
      forall i, j | 0 <= i < j < |r| ensures r[i] <= r[j] {
        if i == 0 {
          assert s[0] <= rest[0] <= rest[j - 1];
        } else {
          assert r[i] == rest[i - 1] && r[j] == rest[j - 1];
        }
      }
    }
  }

  /** Insertion adds exactly one occurrence of `x`. */
  lemma {:induction false} InsertPermutes(x: real, s: seq<real>)
    ensures multiset(Insert(x, s)) == multiset(s) + multiset{x}
  {
    if s != [] && x > s[0] {
      InsertPermutes(x, s[1..]);
      assert s == [s[0]] + s[1..];
    }
  }

  /** `sorted(s)`: the ascending rearrangement of `s`. */
  function Sort(s: seq<real>): (r: seq<real>)
    ensures Sorted(r)
    ensures multiset(r) == multiset(s)
    ensures |r| == |s|
  {
    if s == [] then []
    else
      var t := Sort(s[1..]);
      InsertSorted(s[0], t);
      InsertPermutes(s[0], t);
      assert s == [s[0]] + s[1..];
      Insert(s[0], t)
  }

  lemma SortedHeadIsLeast(a: seq<real>, x: real)
    requires Sorted(a) && |a| > 0 && x in multiset(a)
    ensures a[0] <= x
  {
    assert x in a;
  }

  /** A sorted arrangement of a multiset is unique. */
  lemma {:induction false} SortedUnique(a: seq<real>, b: seq<real>)
    requires Sorted(a) && Sorted(b)
    requires multiset(a) == multiset(b)
    ensures a == b
  {
    if a != [] {
      assert |b| == |a| by {
        assert |multiset(a)| == |multiset(b)|;
      }
      assert a[0] in multiset(b) && b[0] in multiset(a) by {
        assert a[0] in a;
        assert b[0] in b;
      }
      SortedHeadIsLeast(b, a[0]);
      SortedHeadIsLeast(a, b[0]);
      assert a[0] == b[0];
      assert a == [a[0]] + a[1..];
      assert b == [b[0]] + b[1..];
      assert multiset(a) == multiset{a[0]} + multiset(a[1..]);
      assert multiset(b) == multiset{b[0]} + multiset(b[1..]);
      assert multiset(a[1..]) == multiset(a) - multiset{a[0]};
      assert multiset(b[1..]) == multiset(b) - multiset{b[0]};
      SortedUnique(a[1..], b[1..]);
    }
  }

  /** Sorting forgets the original order. */
  lemma SortPermutationInvariant(a: seq<real>, b: seq<real>)
    requires multiset(a) == multiset(b)
    ensures Sort(a) == Sort(b)
  {
    SortedUnique(Sort(a), Sort(b));
  }

  // ---------------------------------------------------------------- median

  /** Middle element of a sorted sample, or the average of the two middle elements. */
  function Middle(t: seq<real>): real
    requires |t| > 0
  {
    var n := |t|;
    if n % 2 == 1 then t[n / 2] else (t[n / 2 - 1] + t[n / 2]) / 2.0
  }

  /** `np.median` of a non-empty sample. */
  function MedianOf(s: seq<real>): real
    requires |s| > 0
  {
    Middle(Sort(s))
  }

  /** Any sorted rearrangement of a sample gives its median. */
  lemma MedianBySorting(s: seq<real>, t: seq<real>)
    requires |s| > 0 && Sorted(t) && multiset(t) == multiset(s)
    ensures |t| == |s| && MedianOf(s) == Middle(t)
  {
    SortedUnique(Sort(s), t);
  }

  /** A median lies within any bounds of its sample. */
  lemma MedianBounds(s: seq<real>, lo: real, hi: real)
    requires |s| > 0
    requires forall i :: 0 <= i < |s| ==> lo <= s[i] <= hi
    ensures lo <= MedianOf(s) <= hi
  {
    var t := Sort(s);
    forall k | 0 <= k < |t| ensures lo <= t[k] <= hi {
      assert t[k] in multiset(t);
      assert t[k] in s;
    }
  }

  /** The median of a constant sample is that constant. */
  lemma MedianOfConstant(s: seq<real>, c: real)
    requires |s| > 0
    requires forall i :: 0 <= i < |s| ==> s[i] == c
    ensures MedianOf(s) == c
  {
    MedianBounds(s, c, c);
  }

  /** The median does not depend on the order of the sample. */
  lemma MedianPermutationInvariant(a: seq<real>, b: seq<real>)
    requires |a| > 0
    requires multiset(a) == multiset(b)
    ensures |b| > 0 && MedianOf(a) == MedianOf(b)
  {
    assert |multiset(a)| == |multiset(b)|;
    MedianBySorting(b, Sort(a));
  }

  lemma SortedTriple(a: real, b: real, c: real)
    requires a <= b <= c
    ensures Sorted([a, b, c])
  {
  }

  /** The median of two values is their average. */
  lemma MedianOfTwo(a: real, b: real)
    ensures MedianOf([a, b]) == (a + b) / 2.0
  {
    MedianOfPair([a, b]);
  }

  lemma MedianOfPair(s: seq<real>)
    requires |s| == 2
    ensures MedianOf(s) == (s[0] + s[1]) / 2.0
  {
    if s[0] <= s[1] {
      MedianBySorting(s, s);
    } else {
      var t := [s[1], s[0]];
      assert s == [s[0], s[1]];
      assert multiset(t) == multiset(s);
      MedianBySorting(s, t);
    }
  }

  /** The median of three values whose outer two are equal is that value, whatever the middle one. */
  lemma MedianOfThreeIgnoresSpike(s: seq<real>)
    requires |s| == 3 && s[0] == s[2]
    ensures MedianOf(s) == s[0]
  {
    var c, x := s[0], s[1];
    assert s == [c, x, c];
    if x <= c {
      SortedTriple(x, c, c);
      assert multiset([x, c, c]) == multiset(s);
      MedianBySorting(s, [x, c, c]);
    } else {
      SortedTriple(c, c, x);
      assert multiset([c, c, x]) == multiset(s);
      MedianBySorting(s, [c, c, x]);
    }
  }

  /** The numbers of a column that holds no NaN. */
  function Values(arr: seq<Option<real>>): (v: seq<real>)
    requires forall k :: 0 <= k < |arr| ==> arr[k].Some?
    ensures |v| == |arr|
    ensures forall k :: 0 <= k < |arr| ==> v[k] == arr[k].value
  {
    if arr == [] then [] else [arr[0].value] + Values(arr[1..])
  }

  /** Median of a sample whose entries may be NaN (None): NaN if any entry is, or if it is empty. */
  function NpMedian(arr: seq<Option<real>>): (r: Option<real>)
    ensures r.Some? <==> |arr| > 0 && forall k :: 0 <= k < |arr| ==> arr[k].Some?
  {
    if |arr| > 0 && forall k :: 0 <= k < |arr| ==> arr[k].Some? then
      Some(MedianOf(Values(arr)))
    else None
  }
}
