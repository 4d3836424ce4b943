/** Detection of the relevant window of the step response (analysis.go,
    findSignificantChangeStart and findStabilizationPoint): where the output
    first departs from its resting level, and where it has settled near the
    input voltage. */
module Window {
  import opened Common

  // ------------------------------------------------------- start of change

  /** Mean of the first ten samples. */
  function Baseline(o: seq<real>): real
    requires |o| >= 10
  {
    Sum(o[..10]) / 10.0
  }

  /** `max(|V| * 0.05, 0.1)`. */
  function ChangeThreshold(v: real): real
  {
    Max(Abs(v) * 0.05, 0.1)
  }

  /** The five-sample moving average starting at `i`. */
  function WindowAverage(o: seq<real>, i: nat): real
    requires i + 5 <= |o|
  {
    Sum(o[i..i + 5]) / 5.0
  }

  /** The moving average at `i` is farther than the threshold from the
      baseline. */
  predicate Departs(o: seq<real>, v: real, i: nat)
    requires 10 <= |o| && i + 5 <= |o|
  {
    Abs(WindowAverage(o, i) - Baseline(o)) > ChangeThreshold(v)
  }

  /** The first departure at or after `from` among the scanned indices
      `i < |o| - 5`, or a value at least `|o| - 5` when there is none. */
  function FirstDeparture(o: seq<real>, v: real, from: nat): (k: nat)
    requires |o| >= 10 && from >= 10
    ensures from <= k
    ensures k < |o| - 5 ==> Departs(o, v, k)
    ensures forall j :: from <= j < k && j < |o| - 5 ==> !Departs(o, v, j)
    decreases |o| - from
  {
    if from >= |o| - 5 then from
    else if Departs(o, v, from) then from
    else FirstDeparture(o, v, from + 1)
  }

  /** The start index: ten samples before the first departure, or 0. */
  function ChangeStart(o: seq<real>, v: real): (r: nat)
    ensures |o| > 0 ==> r < |o|
    ensures r > 0 ==> r + 15 < |o|
  {
    if |o| < 10 then 0
    else
      var k := FirstDeparture(o, v, 10);
      if k < |o| - 5 then k - 10 else 0
  }

  method FindSignificantChangeStart(outputData: seq<real>, inputVoltage: real) returns (r: int)
    ensures r == ChangeStart(outputData, inputVoltage)
  {
    if |outputData| < 10 {
      return 0;
    }
    var initialSum := 0.0;
    for i := 0 to 10
      invariant initialSum == Sum(outputData[..i])
    {
      SumExtend(outputData, i);
      initialSum := initialSum + outputData[i];
    }
    var initialAvg := initialSum / 10.0;
    var threshold := Max(Abs(inputVoltage) * 0.05, 0.1);
    var i := 10;
    while i < |outputData| - 5
      invariant 10 <= i
      invariant FirstDeparture(outputData, inputVoltage, 10) == FirstDeparture(outputData, inputVoltage, i)
    {
      var windowSum := 0.0;
      var j := i;
      while j < i + 5 && j < |outputData|
        invariant i <= j <= i + 5
        invariant windowSum == Sum(outputData[i..j])
      {
        SumSliceExtend(outputData, i, j);
        windowSum := windowSum + outputData[j];
        j := j + 1;
      }
      var windowAvg := windowSum / 5.0;
      if Abs(windowAvg - initialAvg) > threshold {
        var startIdx := i - 10;
        if startIdx < 0 {
          startIdx := 0;
        }
        return startIdx;
      }
      i := i + 1;
    }
    return 0;
  }

  /** The start index found is the first departure's, and no earlier
      window departs. */
  lemma ChangeStartIsFirst(o: seq<real>, v: real)
    requires |o| >= 10
    ensures ChangeStart(o, v) > 0 ==> Departs(o, v, ChangeStart(o, v) + 10)
    ensures (exists j :: 10 <= j < |o| - 5 && Departs(o, v, j)) ==>
      ChangeStart(o, v) + 15 <= |o| && Departs(o, v, ChangeStart(o, v) + 10)
    ensures forall j :: 10 <= j < ChangeStart(o, v) + 10 ==> !Departs(o, v, j)
    ensures (forall j :: 10 <= j < |o| - 5 ==> !Departs(o, v, j)) ==> ChangeStart(o, v) == 0
  {
    var k := FirstDeparture(o, v, 10);
    if k < |o| - 5 {
      assert Departs(o, v, k);
    }
  }

  // ------------------------------------------------------- stabilization

  const RequiredStable: nat := 20

  /** Sample `i` is within 2 % of `|V|` of the input voltage. */
  predicate Stable(o: seq<real>, v: real, i: nat)
    requires i < |o|
  {
    Abs(o[i] - v) <= Abs(v) * 0.02
  }

  /** Twenty consecutive stable samples start at `i`. */
  predicate StableRun(o: seq<real>, v: real, i: nat)
  {
    i + RequiredStable <= |o| && forall k :: i <= k < i + RequiredStable ==> Stable(o, v, k)
  }

  /** The largest `i` in `(lo, top]` starting a stable run. */
  function LastStableRun(o: seq<real>, v: real, lo: nat, top: int): (r: Option<nat>)
    ensures r.Some? ==> lo < r.value <= top && StableRun(o, v, r.value)
    ensures r.Some? ==> forall j :: r.value < j <= top ==> !StableRun(o, v, j)
    ensures r.None? ==> forall j :: lo < j <= top ==> !StableRun(o, v, j)
    decreases top - lo
  {
    if top <= lo then None
    else if StableRun(o, v, top) then Some(top)
    else LastStableRun(o, v, lo, top - 1)
  }

  /** The end of the fallback window, 80 % of the way from the start. */
  function Fallback(n: nat, start: nat): int
  {
    var f := start + (n - start) * 4 / 5;
    if f >= n then n - 1 else f
  }

  /** The end index: thirty samples past the last stable run found by the
      backward scan, clamped to the data, or the 80 % fallback. */
  function StabilizationPoint(o: seq<real>, v: real, start: nat): (r: int)
    ensures start < |o| ==> start <= r <= |o| - 1
    ensures |o| <= start + 50 ==> r == |o| - 1
  {
    if |o| <= start + 50 then |o| - 1
    else
      match LastStableRun(o, v, start + 50, |o| - RequiredStable)
      case Some(i) => MinInt(i + 30, |o| - 1)
      case None => Fallback(|o|, start)
  }

  method FindStabilizationPoint(outputData: seq<real>, inputVoltage: real, startIndex: nat) returns (r: int)
    ensures r == StabilizationPoint(outputData, inputVoltage, startIndex)
  {
    var n := |outputData|;
    if n <= startIndex + 50 {
      return n - 1;
    }
    var stabilizationThreshold := Abs(inputVoltage) * 0.02;
    var targetValue := inputVoltage;
    var stableCount := 0;
    var i := n - 1;
    while i > startIndex + 50
      invariant startIndex + 50 <= i <= n - 1
      invariant 0 <= stableCount < RequiredStable
      invariant i + 1 + stableCount <= n
      invariant forall k :: i < k <= i + stableCount ==> Stable(outputData, inputVoltage, k)
      invariant i + 1 + stableCount < n ==> !Stable(outputData, inputVoltage, i + 1 + stableCount)
      invariant forall j :: i < j <= n - RequiredStable ==> !StableRun(outputData, inputVoltage, j)
    {
      if Abs(outputData[i] - targetValue) <= stabilizationThreshold {
        stableCount := stableCount + 1;
        if stableCount >= RequiredStable {
          LastRunFound(outputData, inputVoltage, startIndex + 50, n - RequiredStable, i);
          var endIdx := i + 30;
          if endIdx >= n {
            endIdx := n - 1;
          }
          return endIdx;
        }
        assert !StableRun(outputData, inputVoltage, i) by {
          if i + RequiredStable <= n {
            assert !Stable(outputData, inputVoltage, i + stableCount);
          }
        }
      } else {
        stableCount := 0;
      }
      i := i - 1;
    }
    NoRunFound(outputData, inputVoltage, startIndex + 50, n - RequiredStable);
    var fallbackIdx := startIndex + (n - startIndex) * 4 / 5;
    if fallbackIdx >= n {
      fallbackIdx := n - 1;
    }
    return fallbackIdx;
  }

  /** A run at `i` with none above it is the one the scan reports. */
  lemma {:induction false} LastRunFound(o: seq<real>, v: real, lo: nat, top: int, i: nat)
    requires lo < i <= top
    requires StableRun(o, v, i)
    requires forall j :: i < j <= top ==> !StableRun(o, v, j)
    ensures LastStableRun(o, v, lo, top) == Some(i)
    decreases top - i
  {
    if top > i {
      LastRunFound(o, v, lo, top - 1, i);
    }
  }

  /** With no run in `(lo, top]` the scan reports none. */
  lemma {:induction false} NoRunFound(o: seq<real>, v: real, lo: nat, top: int)
    requires forall j :: lo < j <= top ==> !StableRun(o, v, j)
    ensures LastStableRun(o, v, lo, top) == None
    decreases top - lo
  {
    if top > lo {
      NoRunFound(o, v, lo, top - 1);
    }
  }

  /** Past the 50 samples after the start, the last stable run of twenty
      samples fixes the end thirty samples further on, clamped to the data. */
  lemma StabilizedAt(o: seq<real>, v: real, start: nat, i: nat)
    requires |o| > start + 50 && start + 50 < i && StableRun(o, v, i)
    requires forall j :: i < j ==> !StableRun(o, v, j)
    ensures StabilizationPoint(o, v, start) == MinInt(i + 30, |o| - 1)
  {
    LastRunFound(o, v, start + 50, |o| - RequiredStable, i);
  }

  /** With no stable run past the 50 samples after the start, the end is
      the 80 % fallback. */
  lemma NeverStabilized(o: seq<real>, v: real, start: nat)
    requires |o| > start + 50
    requires forall j :: start + 50 < j ==> !StableRun(o, v, j)
    ensures StabilizationPoint(o, v, start) == Fallback(|o|, start)
  {
    NoRunFound(o, v, start + 50, |o| - RequiredStable);
  }
}
