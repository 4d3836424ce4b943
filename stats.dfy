/** The statistics helpers of the feature extractor (analysis.go,
    calculateMean … calculateEnergy). Each Go helper is an accumulator
    loop, modelled as a method proved equal to a specification function;
    the lemmas state what those functions mean. `math.Sqrt` is a
    parameter: nothing here depends on its values. */
module Stats {
  import opened Common
  import opened Sorting

  /** Sum of `f` over the samples, accumulated left to right. */
  function SumMap(s: seq<real>, f: real -> real): real
  {
    if |s| == 0 then 0.0 else SumMap(s[..|s| - 1], f) + f(s[|s| - 1])
  }

  lemma SumMapExtend(s: seq<real>, f: real -> real, i: nat)
    requires i < |s|
    ensures SumMap(s[..i + 1], f) == SumMap(s[..i], f) + f(s[i])
  {
    assert s[..i + 1][..i] == s[..i];
  }

  function Square(x: real): real
  {
    x * x
  }

  /** The squared distance to `m`, as in `math.Pow(v-mean, 2)`. */
  function Deviation(m: real): real -> real
  {
    x => (x - m) * (x - m)
  }

  // ---------------------------------------------------------------- mean

  function MeanOf(s: seq<real>): real
  {
    if |s| == 0 then 0.0 else Sum(s) / (|s| as real)
  }

  /** calculateMean. */
  method Mean(data: seq<real>) returns (r: real)
    ensures r == MeanOf(data)
  {
    if |data| == 0 {
      return 0.0;
    }
    var sum := 0.0;
    for i := 0 to |data|
      invariant sum == Sum(data[..i])
    {
      SumExtend(data, i);
      sum := sum + data[i];
    }
    SumAll(data);
    r := sum / (|data| as real);
  }

  // ------------------------------------------------------- minimum, maximum

  function MinOf(s: seq<real>): (r: real)
    ensures |s| == 0 ==> r == 0.0
    ensures |s| > 0 ==> r in s && forall i :: 0 <= i < |s| ==> r <= s[i]
  {
    if |s| == 0 then 0.0
    else if |s| == 1 then s[0]
    else
      var m := MinOf(s[..|s| - 1]);
      assert m in s[..|s| - 1];
      if s[|s| - 1] < m then s[|s| - 1] else m
  }

  function MaxOf(s: seq<real>): (r: real)
    ensures |s| == 0 ==> r == 0.0
    ensures |s| > 0 ==> r in s && forall i :: 0 <= i < |s| ==> s[i] <= r
  {
    if |s| == 0 then 0.0
    else if |s| == 1 then s[0]
    else
      var m := MaxOf(s[..|s| - 1]);
      assert m in s[..|s| - 1];
      if s[|s| - 1] > m then s[|s| - 1] else m
  }

  lemma MinOfExtend(s: seq<real>, i: nat)
    requires 0 < i < |s|
    ensures MinOf(s[..i + 1]) == (if s[i] < MinOf(s[..i]) then s[i] else MinOf(s[..i]))
  {
    assert s[..i + 1][..i] == s[..i];
  }

  lemma MaxOfExtend(s: seq<real>, i: nat)
    requires 0 < i < |s|
    ensures MaxOf(s[..i + 1]) == (if s[i] > MaxOf(s[..i]) then s[i] else MaxOf(s[..i]))
  {
    assert s[..i + 1][..i] == s[..i];
  }

  /** calculateMin. */
  method Minimum(data: seq<real>) returns (r: real)
    ensures r == MinOf(data)
  {
    if |data| == 0 {
      return 0.0;
    }
    r := data[0];
    for i := 0 to |data|
      invariant r == MinOf(data[..if i == 0 then 1 else i])
    {
      if i > 0 {
        MinOfExtend(data, i);
      }
      if data[i] < r {
        r := data[i];
      }
    }
    assert data[..|data|] == data;
  }

  /** calculateMax, and findMaxValue, which has the same body. */
  method Maximum(data: seq<real>) returns (r: real)
    ensures r == MaxOf(data)
  {
    if |data| == 0 {
      return 0.0;
    }
    r := data[0];
    for i := 0 to |data|
      invariant r == MaxOf(data[..if i == 0 then 1 else i])
    {
      if i > 0 {
        MaxOfExtend(data, i);
      }
      if data[i] > r {
        r := data[i];
      }
    }
    assert data[..|data|] == data;
  }

  lemma {:induction false} SumWithin(s: seq<real>, lo: real, hi: real)
    requires forall i :: 0 <= i < |s| ==> lo <= s[i] <= hi
    ensures (|s| as real) * lo <= Sum(s) <= (|s| as real) * hi
  {
    if |s| > 0 {
      SumWithin(s[..|s| - 1], lo, hi);
    }
  }

  /** `lo * n <= x <= hi * n` gives `lo <= x / n <= hi`. */
  lemma DivideWithin(x: real, n: real, lo: real, hi: real)
    requires n > 0.0
    requires n * lo <= x <= n * hi
    ensures lo <= x / n <= hi
  {
  }

  lemma MeanWithin(s: seq<real>, lo: real, hi: real)
    requires |s| > 0
    requires forall i :: 0 <= i < |s| ==> lo <= s[i] <= hi
    ensures lo <= MeanOf(s) <= hi
  {
    var sum, n := Sum(s), |s| as real;
    SumWithin(s, lo, hi);
    DivideWithin(sum, n, lo, hi);
  }

  /** The mean lies between the smallest and the largest sample. */
  lemma MeanWithinRange(s: seq<real>)
    requires |s| > 0
    ensures MinOf(s) <= MeanOf(s) <= MaxOf(s)
  {
    MeanWithin(s, MinOf(s), MaxOf(s));
  }

  // ---------------------------------------------------- standard deviation

  function VarianceOf(s: seq<real>): real
  {
    if |s| == 0 then 0.0 else SumMap(s, Deviation(MeanOf(s))) / (|s| as real)
  }

  /** Population standard deviation; `sqrt` stands for `math.Sqrt`. */
  function StdDevOf(s: seq<real>, sqrt: real -> real): real
  {
    if |s| == 0 then 0.0 else sqrt(VarianceOf(s))
  }

  /** calculateStandardDeviation. */
  method StandardDeviation(data: seq<real>, sqrt: real -> real) returns (r: real)
    ensures r == StdDevOf(data, sqrt)
  {
    if |data| == 0 {
      return 0.0;
    }
    var mean := Mean(data);
    var sumSquares := 0.0;
    for i := 0 to |data|
      invariant sumSquares == SumMap(data[..i], Deviation(mean))
    {
      SumMapExtend(data, Deviation(mean), i);
      sumSquares := sumSquares + (data[i] - mean) * (data[i] - mean);
    }
    assert data[..|data|] == data;
    r := sqrt(sumSquares / (|data| as real));
  }

  lemma {:induction false} SumMapNonNegative(s: seq<real>, f: real -> real)
    requires forall i :: 0 <= i < |s| ==> f(s[i]) >= 0.0
    ensures SumMap(s, f) >= 0.0
  {
    if |s| > 0 {
      SumMapNonNegative(s[..|s| - 1], f);
    }
  }

  /** The quantity under the square root is never negative. */
  lemma VarianceNonNegative(s: seq<real>)
    ensures VarianceOf(s) >= 0.0
  {
    if |s| > 0 {
      var m := MeanOf(s);
      forall i | 0 <= i < |s| ensures Deviation(m)(s[i]) >= 0.0 {
        var d := s[i] - m;
        assert Deviation(m)(s[i]) == d * d;
      }
      SumMapNonNegative(s, Deviation(m));
    }
  }

  // ------------------------------------------------- median and percentile

  function MedianOfSorted(s: seq<real>): real
  {
    if |s| == 0 then 0.0
    else if |s| % 2 == 0 then (s[|s| / 2 - 1] + s[|s| / 2]) / 2.0
    else s[|s| / 2]
  }

  function MedianOf(s: seq<real>): real
  {
    MedianOfSorted(SortedOf(s))
  }

  /** A copy of the samples, in a fresh array (`make` + `copy`). */
  method CopyToArray(data: seq<real>) returns (a: array<real>)
    ensures fresh(a) && a[..] == data
  {
    a := new real[|data|](i requires 0 <= i < |data| => data[i]);
  }

  /** calculateMedian: bubble sort on a copy, then the middle element or
      the mean of the two middle elements. */
  method Median(data: seq<real>) returns (r: real)
    ensures r == MedianOf(data)
  {
    if |data| == 0 {
      return 0.0;
    }
    var sorted := CopyToArray(data);
    BubbleSort(sorted);
    var n := sorted.Length;
    if n % 2 == 0 {
      r := (sorted[n / 2 - 1] + sorted[n / 2]) / 2.0;
    } else {
      r := sorted[n / 2];
    }
  }

  /** The median lies between the smallest and the largest sample. */
  lemma MedianWithinRange(s: seq<real>)
    requires |s| > 0
    ensures MinOf(s) <= MedianOf(s) <= MaxOf(s)
  {
    var n := |s|;
    SortedOfElement(s, n / 2);
    if n % 2 == 0 {
      SortedOfElement(s, n / 2 - 1);
    }
  }

  /** `int(math.Ceil(x))` for the values the percentile uses. */
  function Ceil(x: real): int
  {
    if x.Floor as real == x then x.Floor else x.Floor + 1
  }

  lemma CeilBounds(x: real)
    ensures Ceil(x) as real - 1.0 < x <= Ceil(x) as real
  {
  }

  lemma CeilMonotone(x: real, y: real)
    requires x <= y
    ensures Ceil(x) <= Ceil(y)
  {
    CeilBounds(x);
    CeilBounds(y);
  }

  /** Nearest-rank index `ceil(n*p/100) - 1`, clamped to the data. */
  function PercentileIndex(n: nat, p: real): (k: int)
    ensures n > 0 ==> 0 <= k < n
  {
    ClampIndex(Ceil(Rank(n, p)) - 1, n)
  }

  /** `float64(n) * p / 100`, the nearest rank before rounding. */
  function Rank(n: nat, p: real): real
  {
    (n as real) * p / 100.0
  }

  /** The index clamped into `[0, n)`, as the two guards do. */
  function ClampIndex(k: int, n: nat): int
  {
    if k < 0 then 0 else if k >= n then n - 1 else k
  }

  function PercentileOf(s: seq<real>, p: real): real
  {
    if |s| == 0 then 0.0 else SortedOf(s)[PercentileIndex(|s|, p)]
  }

  /** calculatePercentile. */
  method Percentile(data: seq<real>, percentile: real) returns (r: real)
    ensures r == PercentileOf(data, percentile)
  {
    if |data| == 0 {
      return 0.0;
    }
    var sorted := CopyToArray(data);
    BubbleSort(sorted);
    var rank := Rank(sorted.Length, percentile);
    var index := Ceil(rank) - 1;
    if index < 0 {
      index := 0;
    }
    if index >= sorted.Length {
      index := sorted.Length - 1;
    }
    r := sorted[index];
  }

  /** A percentile is always one of the samples. */
  lemma PercentileIsSample(s: seq<real>, p: real)
    requires |s| > 0
    ensures PercentileOf(s, p) in s
  {
    SortedOfElement(s, PercentileIndex(|s|, p));
  }

  lemma SortedIndexMonotone(s: seq<real>, i: nat, j: nat)
    requires Sorted(s) && i <= j < |s|
    ensures s[i] <= s[j]
  {
  }

  lemma RankMonotone(n: real, p: real, q: real)
    requires n >= 0.0 && p <= q
    ensures n * p / 100.0 <= n * q / 100.0
  {
    assert n * q - n * p == n * (q - p);
  }

  /** A higher percentage never selects a smaller sample. */
  lemma PercentileMonotone(s: seq<real>, p: real, q: real)
    requires p <= q
    ensures PercentileOf(s, p) <= PercentileOf(s, q)
  {
    if |s| > 0 {
      var n := |s| as real;
      RankMonotone(n, p, q);
      CeilMonotone(Rank(|s|, p), Rank(|s|, q));
      assert PercentileIndex(|s|, p) <= PercentileIndex(|s|, q);
      SortedIndexMonotone(SortedOf(s), PercentileIndex(|s|, p), PercentileIndex(|s|, q));
    }
  }

  // ------------------------------------------------------------- differences

  function Differences(s: seq<real>): (d: seq<real>)
    ensures |d| == if |s| < 2 then 0 else |s| - 1
  {
    if |s| < 2 then [] else seq(|s| - 1, i requires 0 <= i < |s| - 1 => s[i + 1] - s[i])
  }

  /** calculateDifferences: fills a fresh slice of length `len-1`. */
  method CalculateDifferences(data: seq<real>) returns (d: seq<real>)
    ensures d == Differences(data)
  {
    if |data| < 2 {
      return [];
    }
    var differences := new real[|data| - 1];
    for i := 1 to |data|
      invariant forall k :: 0 <= k < i - 1 ==> differences[k] == data[k + 1] - data[k]
    {
      differences[i - 1] := data[i] - data[i - 1];
    }
    d := differences[..];
  }

  /** The first differences telescope to the net change of the series. */
  lemma {:induction false} DifferencesTelescope(s: seq<real>)
    requires |s| > 0
    ensures Sum(Differences(s)) == s[|s| - 1] - s[0]
  {
    if |s| >= 2 {
      var p := s[..|s| - 1];
      var d := Differences(s);
      if |p| >= 2 {
        assert d[..|d| - 1] == Differences(p);
      }
      DifferencesTelescope(p);
    }
  }

  // --------------------------------------------- absolute sums and extrema

  function SumAbsOf(s: seq<real>): real
  {
    SumMap(s, Abs)
  }

  /** calculateSumAbs. */
  method SumAbs(data: seq<real>) returns (r: real)
    ensures r == SumAbsOf(data)
  {
    r := 0.0;
    for i := 0 to |data|
      invariant r == SumMap(data[..i], Abs)
    {
      SumMapExtend(data, Abs, i);
      r := r + Abs(data[i]);
    }
    assert data[..|data|] == data;
  }

  /** The sum's magnitude never exceeds the sum of magnitudes. */
  lemma {:induction false} SumWithinSumAbs(s: seq<real>)
    ensures Abs(Sum(s)) <= SumAbsOf(s)
  {
    if |s| > 0 {
      SumWithinSumAbs(s[..|s| - 1]);
    }
  }

  /** Total variation (feature 8) bounds the net change of the series. */
  lemma NetChangeWithinTotalVariation(s: seq<real>)
    requires |s| > 0
    ensures Abs(s[|s| - 1] - s[0]) <= SumAbsOf(Differences(s))
  {
    DifferencesTelescope(s);
    SumWithinSumAbs(Differences(s));
  }

  function MaxAbsOf(s: seq<real>): (r: real)
    ensures |s| == 0 ==> r == 0.0
    ensures |s| > 0 ==> (exists i :: 0 <= i < |s| && r == Abs(s[i]))
    ensures forall i :: 0 <= i < |s| ==> Abs(s[i]) <= r
  {
    if |s| == 0 then 0.0
    else if |s| == 1 then Abs(s[0])
    else
      var m := MaxAbsOf(s[..|s| - 1]);
      assert forall i :: 0 <= i < |s| - 1 ==> s[..|s| - 1][i] == s[i];
      if Abs(s[|s| - 1]) > m then Abs(s[|s| - 1]) else m
  }

  lemma MaxAbsOfExtend(s: seq<real>, i: nat)
    requires 0 < i < |s|
    ensures MaxAbsOf(s[..i + 1]) == (if Abs(s[i]) > MaxAbsOf(s[..i]) then Abs(s[i]) else MaxAbsOf(s[..i]))
  {
    assert s[..i + 1][..i] == s[..i];
  }

  /** calculateMaxAbs. */
  method MaxAbs(data: seq<real>) returns (r: real)
    ensures r == MaxAbsOf(data)
  {
    if |data| == 0 {
      return 0.0;
    }
    r := Abs(data[0]);
    for i := 0 to |data|
      invariant r == MaxAbsOf(data[..if i == 0 then 1 else i])
    {
      if i > 0 {
        MaxAbsOfExtend(data, i);
      }
      var abs := Abs(data[i]);
      if abs > r {
        r := abs;
      }
    }
    assert data[..|data|] == data;
  }

  /** calculateMeanAbs, a plain expression over calculateSumAbs. */
  function MeanAbsOf(s: seq<real>): real
  {
    if |s| == 0 then 0.0 else SumAbsOf(s) / (|s| as real)
  }

  lemma {:induction false} SumAbsWithin(s: seq<real>, bound: real)
    requires forall i :: 0 <= i < |s| ==> Abs(s[i]) <= bound
    ensures 0.0 <= SumAbsOf(s) <= (|s| as real) * bound
  {
    if |s| > 0 {
      SumAbsWithin(s[..|s| - 1], bound);
    }
  }

  /** The mean magnitude lies between zero and the largest magnitude. */
  lemma MeanAbsWithinMaxAbs(s: seq<real>)
    ensures 0.0 <= MeanAbsOf(s) <= MaxAbsOf(s)
  {
    if |s| > 0 {
      SumAbsWithin(s, MaxAbsOf(s));
      DivideWithin(SumAbsOf(s), |s| as real, 0.0, MaxAbsOf(s));
    }
  }

  // ------------------------------------------------------------------ peaks

  /** A strict local maximum or minimum of the sequence at `i`. */
  predicate IsExtremum(d: seq<real>, i: nat)
    requires 0 < i < |d| - 1
  {
    (d[i] > d[i - 1] && d[i] > d[i + 1]) || (d[i] < d[i - 1] && d[i] < d[i + 1])
  }

  /** Number of extrema at the indices `1 .. hi - 1`. */
  function PeaksBelow(d: seq<real>, hi: nat): nat
    requires 1 <= hi <= |d| - 1
  {
    if hi == 1 then 0 else PeaksBelow(d, hi - 1) + (if IsExtremum(d, hi - 1) then 1 else 0)
  }

  function PeaksOf(d: seq<real>): nat
  {
    if |d| < 3 then 0 else PeaksBelow(d, |d| - 1)
  }

  /** countPeaks. */
  method CountPeaks(data: seq<real>) returns (peaks: nat)
    ensures peaks == PeaksOf(data)
  {
    if |data| < 3 {
      return 0;
    }
    peaks := 0;
    for i := 1 to |data| - 1
      invariant peaks == PeaksBelow(data, i)
    {
      if (data[i] > data[i - 1] && data[i] > data[i + 1]) ||
         (data[i] < data[i - 1] && data[i] < data[i + 1]) {
        peaks := peaks + 1;
      }
    }
  }

  lemma {:induction false} PeaksBelowBound(d: seq<real>, hi: nat)
    requires 1 <= hi <= |d| - 1
    ensures PeaksBelow(d, hi) <= hi - 1
  {
    if hi > 1 {
      PeaksBelowBound(d, hi - 1);
    }
  }

  /** Only interior positions can be peaks. */
  lemma PeaksBounded(d: seq<real>)
    ensures |d| >= 3 ==> PeaksOf(d) <= |d| - 2
    ensures |d| < 3 ==> PeaksOf(d) == 0
  {
    if |d| >= 3 {
      PeaksBelowBound(d, |d| - 1);
    }
  }

  lemma {:induction false} MonotoneBelow(d: seq<real>, hi: nat)
    requires 1 <= hi <= |d| - 1
    requires forall i :: 0 < i < |d| ==> d[i - 1] <= d[i]
    ensures PeaksBelow(d, hi) == 0
  {
    if hi > 1 {
      MonotoneBelow(d, hi - 1);
      assert !IsExtremum(d, hi - 1) by {
        assert d[hi - 2] <= d[hi - 1] <= d[hi];
      }
    }
  }

  /** A nondecreasing sequence has no peaks. */
  lemma MonotoneHasNoPeaks(d: seq<real>)
    requires forall i :: 0 < i < |d| ==> d[i - 1] <= d[i]
    ensures PeaksOf(d) == 0
  {
    if |d| >= 3 {
      MonotoneBelow(d, |d| - 1);
    }
  }

  // ----------------------------------------------------------------- energy

  function EnergyOf(s: seq<real>): real
  {
    if |s| == 0 then 0.0 else SumMap(s, Square) / (|s| as real)
  }

  /** calculateEnergy: mean of squares. */
  method Energy(data: seq<real>) returns (r: real)
    ensures r == EnergyOf(data)
  {
    if |data| == 0 {
      return 0.0;
    }
    var energy := 0.0;
    for i := 0 to |data|
      invariant energy == SumMap(data[..i], Square)
    {
      SumMapExtend(data, Square, i);
      energy := energy + data[i] * data[i];
    }
    assert data[..|data|] == data;
    r := energy / (|data| as real);
  }

  /** The energy is never negative. */
  lemma EnergyNonNegative(s: seq<real>)
    ensures EnergyOf(s) >= 0.0
  {
    if |s| > 0 {
      forall i | 0 <= i < |s| ensures Square(s[i]) >= 0.0 {
        var x := s[i];
        assert Square(x) == x * x;
      }
      SumMapNonNegative(s, Square);
    }
  }
}
