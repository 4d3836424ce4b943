/** Performance metrics of the optimized step response (analysis.go,
    calculateMaxOvershoot, calculateSettlingTime, calculateRiseTime,
    calculateSteadyStateError and extractPerformanceMetrics). */
module Metrics {
  import opened Common
  import opened Stats

  // -------------------------------------------------------------- overshoot

  /** calculateMaxOvershoot: how far the largest sample exceeds the input
      voltage, as a percentage of `|V|`, or 0. */
  function MaxOvershoot(o: seq<real>, v: real): (r: real)
    ensures r >= 0.0
    ensures v == 0.0 ==> r == 0.0
  {
    if v != 0.0 then Max(0.0, (MaxOf(o) - v) / Abs(v) * 100.0) else 0.0
  }

  lemma PercentPositive(x: real, d: real)
    requires d > 0.0
    ensures x / d * 100.0 > 0.0 <==> x > 0.0
  {
    if x > 0.0 {
      assert x / d > 0.0;
    } else {
      assert x / d <= 0.0;
    }
  }

  /** On non-empty data the overshoot is positive exactly when the input
      voltage is non-zero and some sample exceeds it. */
  lemma OvershootPositiveIff(o: seq<real>, v: real)
    requires |o| > 0
    ensures MaxOvershoot(o, v) > 0.0 <==> v != 0.0 && exists i :: 0 <= i < |o| && o[i] > v
  {
    if v != 0.0 {
      PercentPositive(MaxOf(o) - v, Abs(v));
    }
  }

  // ---------------------------------------------------------- settling time

  /** Sample `i` lies outside the band `0.95 V ± 0.05 |V|`. */
  predicate OutOfBand(o: seq<real>, v: real, i: nat)
    requires i < |o|
  {
    Abs(o[i] - v * 0.95) > Abs(v) * 0.05
  }

  /** The backward scan over `o[..hi]`: the last out-of-band sample that
      has a following time stamp (`i + 1 < tn`). */
  function LastUnsettled(o: seq<real>, v: real, tn: nat, hi: nat): (r: Option<nat>)
    requires hi <= |o|
    ensures r.Some? ==> r.value < hi && r.value + 1 < tn && OutOfBand(o, v, r.value)
    ensures r.Some? ==> forall j :: r.value < j < hi && j + 1 < tn ==> !OutOfBand(o, v, j)
    ensures r.None? ==> forall j :: 0 <= j < hi && j + 1 < tn ==> !OutOfBand(o, v, j)
    decreases hi
  {
    if hi == 0 then None
    else if OutOfBand(o, v, hi - 1) && hi < tn then Some(hi - 1)
    else LastUnsettled(o, v, tn, hi - 1)
  }

  /** Index of the settling time: just after the last out-of-band sample,
      or the last time stamp. */
  function SettlingIndex(t: seq<real>, o: seq<real>, v: real): (k: nat)
    requires |t| > 0
    ensures k < |t|
    ensures forall j :: k <= j < |o| && j + 1 < |t| ==> !OutOfBand(o, v, j)
    ensures 0 < k < |t| - 1 ==> k - 1 < |o| && OutOfBand(o, v, k - 1)
  {
    match LastUnsettled(o, v, |t|, |o|)
    case Some(i) => i + 1
    case None => |t| - 1
  }

  function SettlingTimeOf(t: seq<real>, o: seq<real>, v: real): (r: real)
    requires |t| > 0
    ensures r in t
  {
    t[SettlingIndex(t, o, v)]
  }

  /** calculateSettlingTime. */
  method SettlingTime(timeData: seq<real>, outputData: seq<real>, inputVoltage: real) returns (r: real)
    requires |timeData| > 0
    ensures r == SettlingTimeOf(timeData, outputData, inputVoltage)
  {
    var target := inputVoltage * 0.95;
    var tolerance := Abs(inputVoltage) * 0.05;
    var i := |outputData| - 1;
    while i >= 0
      invariant -1 <= i < |outputData|
      invariant LastUnsettled(outputData, inputVoltage, |timeData|, |outputData|) ==
        LastUnsettled(outputData, inputVoltage, |timeData|, i + 1)
    {
      if Abs(outputData[i] - target) > tolerance {
        if i + 1 < |timeData| {
          return timeData[i + 1];
        }
      }
      i := i - 1;
    }
    return timeData[|timeData| - 1];
  }

  // -------------------------------------------------------------- rise time

  /** The sentinel meaning "level not reached yet". */
  const Unset: real := -1.0

  /** The rise scan's variables: time at 10 %, time at 90 %, and whether
      the loop has stopped at the 90 % crossing. */
  datatype RiseState = RiseState(time10: real, time90: real, stopped: bool)

  /** One iteration of the rise scan over sample `i`. */
  function RiseStep(st: RiseState, ti: real, val: real, v: real): RiseState
  {
    if st.stopped then st
    else
      var t10 := if st.time10 == Unset && val >= v * 0.1 then ti else st.time10;
      if st.time90 == Unset && val >= v * 0.9 then RiseState(t10, ti, true)
      else RiseState(t10, st.time90, false)
  }

  /** The rise scan after the first `n` samples. */
  function RiseScan(t: seq<real>, o: seq<real>, v: real, n: nat): (st: RiseState)
    requires n <= |o| <= |t|
    ensures !st.stopped ==> st.time90 == Unset
  {
    if n == 0 then RiseState(Unset, Unset, false)
    else RiseStep(RiseScan(t, o, v, n - 1), t[n - 1], o[n - 1], v)
  }

  function RiseTimeOf(t: seq<real>, o: seq<real>, v: real): real
    requires |o| <= |t|
  {
    var st := RiseScan(t, o, v, |o|);
    if st.time10 != Unset && st.time90 != Unset then st.time90 - st.time10 else 0.0
  }

  /** calculateRiseTime. */
  method RiseTime(timeData: seq<real>, outputData: seq<real>, inputVoltage: real) returns (r: real)
    requires |outputData| <= |timeData|
    ensures r == RiseTimeOf(timeData, outputData, inputVoltage)
  {
    var target10 := inputVoltage * 0.1;
    var target90 := inputVoltage * 0.9;
    var time10, time90 := Unset, Unset;
    var i := 0;
    while i < |outputData|
      invariant 0 <= i <= |outputData|
      invariant RiseScan(timeData, outputData, inputVoltage, i) == RiseState(time10, time90, false)
    {
      var val := outputData[i];
      if time10 == Unset && val >= target10 {
        time10 := timeData[i];
      }
      if time90 == Unset && val >= target90 {
        time90 := timeData[i];
        RiseStopped(timeData, outputData, inputVoltage, i + 1, |outputData|);
        break;
      }
      i := i + 1;
    }
    if time10 != Unset && time90 != Unset {
      return time90 - time10;
    }
    return 0.0;
  }

  /** Once stopped, the scan state no longer changes. */
  lemma {:induction false} RiseStopped(t: seq<real>, o: seq<real>, v: real, n: nat, m: nat)
    requires n <= m <= |o| <= |t|
    requires RiseScan(t, o, v, n).stopped
    ensures RiseScan(t, o, v, m) == RiseScan(t, o, v, n)
    decreases m - n
  {
    if m > n {
      RiseStopped(t, o, v, n, m - 1);
    }
  }

  /** A level reached implies some sample reached it. */
  lemma {:induction false} RiseUnsetUnlessReached(t: seq<real>, o: seq<real>, v: real, n: nat)
    requires n <= |o| <= |t|
    ensures (forall i :: 0 <= i < n ==> o[i] < v * 0.1) ==> RiseScan(t, o, v, n).time10 == Unset
    ensures (forall i :: 0 <= i < n ==> o[i] < v * 0.9) ==> RiseScan(t, o, v, n).time90 == Unset
  {
    if n > 0 {
      RiseUnsetUnlessReached(t, o, v, n - 1);
    }
  }

  /** The rise time is 0 unless both the 10 % and the 90 % level are
      reached by some sample. */
  lemma RiseTimeZeroUnlessReached(t: seq<real>, o: seq<real>, v: real)
    requires |o| <= |t|
    requires (forall i :: 0 <= i < |o| ==> o[i] < v * 0.1) || (forall i :: 0 <= i < |o| ==> o[i] < v * 0.9)
    ensures RiseTimeOf(t, o, v) == 0.0
  {
    RiseUnsetUnlessReached(t, o, v, |o|);
  }

  predicate Nondecreasing(t: seq<real>)
  {
    forall i, j :: 0 <= i < j < |t| ==> t[i] <= t[j]
  }

  /** While scanning, a recorded 10 % time is no later than any time still
      ahead, and once stopped it is no later than the 90 % time. */
  lemma {:induction false} RiseOrdered(t: seq<real>, o: seq<real>, v: real, n: nat)
    requires n <= |o| <= |t| && Nondecreasing(t)
    ensures var st := RiseScan(t, o, v, n);
      (!st.stopped && st.time10 != Unset ==> forall k :: n <= k < |t| ==> st.time10 <= t[k]) &&
      (st.stopped && st.time10 != Unset ==> st.time10 <= st.time90)
  {
    if n > 0 {
      RiseOrdered(t, o, v, n - 1);
    }
  }

  /** With non-decreasing time stamps the rise time is never negative,
      whatever the sign of the input voltage. */
  lemma RiseTimeNonNegative(t: seq<real>, o: seq<real>, v: real)
    requires |o| <= |t| && Nondecreasing(t)
    ensures RiseTimeOf(t, o, v) >= 0.0
  {
    RiseOrdered(t, o, v, |o|);
  }

  /** The first index at or after `from` whose sample reaches `level`. */
  function FirstReaching(o: seq<real>, level: real, from: nat): (k: nat)
    requires from <= |o|
    ensures from <= k <= |o|
    ensures k < |o| ==> o[k] >= level
    ensures forall j :: from <= j < k ==> o[j] < level
    decreases |o| - from
  {
    if from == |o| then from
    else if o[from] >= level then from
    else FirstReaching(o, level, from + 1)
  }

  /** Before the 90 % crossing, with no time stamp equal to the sentinel,
      the scan records exactly the first 10 % crossing seen so far. */
  lemma {:induction false} RiseBeforeStop(t: seq<real>, o: seq<real>, v: real, n: nat)
    requires |o| <= |t| && v > 0.0
    requires forall k :: 0 <= k < |t| ==> t[k] != Unset
    requires n <= FirstReaching(o, v * 0.9, 0) && n <= |o|
    ensures var k10 := FirstReaching(o, v * 0.1, 0);
      RiseScan(t, o, v, n) == RiseState(if k10 < n then t[k10] else Unset, Unset, false)
  {
    if n > 0 {
      RiseBeforeStop(t, o, v, n - 1);
      var k10 := FirstReaching(o, v * 0.1, 0);
      if k10 >= n - 1 {
        if o[n - 1] >= v * 0.1 {
          assert k10 == n - 1;
        }
      }
    }
  }

  /** With a positive input voltage, no time stamp equal to the sentinel
      and the 90 % level reached, the rise time is the time of the first
      90 % crossing minus the time of the first 10 % crossing. */
  lemma RiseTimeBetweenCrossings(t: seq<real>, o: seq<real>, v: real)
    requires |o| <= |t| && v > 0.0
    requires forall k :: 0 <= k < |t| ==> t[k] != Unset
    requires exists i :: 0 <= i < |o| && o[i] >= v * 0.9
    ensures FirstReaching(o, v * 0.1, 0) <= FirstReaching(o, v * 0.9, 0) < |o|
    ensures RiseTimeOf(t, o, v) ==
      t[FirstReaching(o, v * 0.9, 0)] - t[FirstReaching(o, v * 0.1, 0)]
  {
    var k90 := FirstReaching(o, v * 0.9, 0);
    var k10 := FirstReaching(o, v * 0.1, 0);
    assert k90 < |o|;
    assert o[k90] >= v * 0.1;
    assert k10 <= k90;
    RiseBeforeStop(t, o, v, k90);
    assert RiseScan(t, o, v, k90 + 1) == RiseState(t[k10], t[k90], true);
    RiseStopped(t, o, v, k90 + 1, |o|);
  }

  // --------------------------------------------------- steady-state error

  /** First index of the last 10 % of the samples, `int(n * 0.9)`. */
  function TailStart(n: nat): (k: nat)
    ensures n > 0 ==> k < n
    ensures 10 * (n - k) >= n
  {
    n * 9 / 10
  }

  /** calculateSteadyStateError: the distance of the tail mean from the
      input voltage, as a percentage of `|V|`; `None` stands for the
      floating-point NaN or infinity of a zero input voltage. */
  function SteadyStateErrorOf(o: seq<real>, v: real): (r: Option<real>)
    ensures r.None? <==> |o| > 0 && v == 0.0
    ensures r.Some? ==> r.value >= 0.0
  {
    if |o| == 0 then Some(0.0)
    else if v == 0.0 then None
    else Some(Abs(v - MeanOf(o[TailStart(|o|)..])) / Abs(v) * 100.0)
  }

  method SteadyStateError(outputData: seq<real>, inputVoltage: real) returns (r: Option<real>)
    ensures r == SteadyStateErrorOf(outputData, inputVoltage)
  {
    var n := |outputData|;
    if n == 0 {
      return Some(0.0);
    }
    var startIdx := n * 9 / 10;
    if startIdx >= n {
      startIdx := n - 1;
    }
    var steadyStateSum := 0.0;
    var count := 0;
    for i := startIdx to n
      invariant count == i - startIdx
      invariant steadyStateSum == Sum(outputData[startIdx..i])
    {
      SumSliceExtend(outputData, startIdx, i);
      steadyStateSum := steadyStateSum + outputData[i];
      count := count + 1;
    }
    assert outputData[startIdx..n] == outputData[startIdx..];
    var steadyStateValue := steadyStateSum / (count as real);
    if inputVoltage == 0.0 {
      return None;
    }
    r := Some(Abs(inputVoltage - steadyStateValue) / Abs(inputVoltage) * 100.0);
  }

  /** The error is zero exactly when the tail mean equals the input voltage. */
  lemma SteadyStateErrorZeroIff(o: seq<real>, v: real)
    requires |o| > 0 && v != 0.0
    ensures SteadyStateErrorOf(o, v) == Some(0.0) <==> MeanOf(o[TailStart(|o|)..]) == v
  {
    PercentPositive(Abs(v - MeanOf(o[TailStart(|o|)..])), Abs(v));
  }

  // ------------------------------------------------------------ all metrics

  datatype PerformanceMetrics = PerformanceMetrics(
    maxOvershoot: real, settlingTime: real, riseTime: real, steadyStateError: Option<real>)

  function MetricsOf(t: seq<real>, o: seq<real>, v: real): (m: PerformanceMetrics)
    requires 0 < |t| && |o| <= |t|
    ensures m.maxOvershoot >= 0.0 && m.settlingTime in t
  {
    PerformanceMetrics(MaxOvershoot(o, v), SettlingTimeOf(t, o, v), RiseTimeOf(t, o, v), SteadyStateErrorOf(o, v))
  }

  /** extractPerformanceMetrics. */
  method ExtractPerformanceMetrics(timeData: seq<real>, outputData: seq<real>, inputVoltage: real)
    returns (m: PerformanceMetrics)
    requires 0 < |timeData| && |outputData| <= |timeData|
    ensures m == MetricsOf(timeData, outputData, inputVoltage)
  {
    var maxOvershoot := MaxOvershoot(outputData, inputVoltage);
    var settlingTime := SettlingTime(timeData, outputData, inputVoltage);
    var riseTime := RiseTime(timeData, outputData, inputVoltage);
    var steadyStateError := SteadyStateError(outputData, inputVoltage);
    m := PerformanceMetrics(maxOvershoot, settlingTime, riseTime, steadyStateError);
  }
}
