/** Re-gridding and decimation of the relevant window (analysis.go,
    optimizeDataPoints and reduceDataDensity). The window is cut out with
    the two scans of `Window`, its time axis rebuilt as `i * period`, and
    the result thinned to at most 300 points by keeping regularly spaced
    points, points where the slope changes sharply, and both ends. */
module Density {
  import opened Common
  import opened Window

  /** The largest number of points the pipeline keeps. */
  const MaxPoints: nat := 300

  /** `s` at the positions `idx`, in that order. */
  function Pick(s: seq<real>, idx: seq<nat>): (r: seq<real>)
    requires forall k :: 0 <= k < |idx| ==> idx[k] < |s|
    ensures |r| == |idx|
  {
    seq(|idx|, k requires 0 <= k < |idx| => s[idx[k]])
  }

  predicate StrictlyIncreasing(idx: seq<nat>)
  {
    forall k, l :: 0 <= k < l < |idx| ==> idx[k] < idx[l]
  }

  /** The regular-interval condition `float64(i) >= float64(kept) * step`
      with `step = n / (m - 2)`: for `m == 2` the step is +Inf and never
      due; for `m < 2` it is negative and always due. */
  predicate StrideDue(i: nat, kept: nat, n: nat, m: nat)
  {
    if m > 2 then (i as real) >= (kept as real) * ((n as real) / ((m - 2) as real))
    else m < 2
  }

  /** The slope changes by more than 0.1 across sample `i`. */
  predicate SlopeChange(o: seq<real>, i: nat)
    requires 0 < i < |o| - 1
  {
    var prevSlope := o[i] - o[i - 1];
    var nextSlope := o[i + 1] - o[i];
    Abs(nextSlope - prevSlope) > 0.1
  }

  /** The indices kept so far and whether the early `break` was taken. */
  datatype Decimation = Decimation(indices: seq<nat>, done: bool)

  /** The decimation state before interior index `i` is considered. */
  function KeptPrefix(o: seq<real>, m: nat, i: nat): (d: Decimation)
    requires 1 <= i && (i == 1 || i < |o|)
    ensures |d.indices| >= 1 && d.indices[0] == 0
    ensures forall k :: 0 <= k < |d.indices| ==> d.indices[k] < i
  {
    if i == 1 then Decimation([0], false)
    else
      var p := KeptPrefix(o, m, i - 1);
      var j := i - 1;
      if p.done then p
      else
        var keep := StrideDue(j, |p.indices|, |o|, m) || SlopeChange(o, j);
        var idx := if keep then p.indices + [j] else p.indices;
        Decimation(idx, |idx| >= m - 1)
  }

  /** One iteration of the loop, when the `break` has not been taken. */
  lemma KeptStep(o: seq<real>, m: nat, i: nat, keep: bool)
    requires 1 <= i < |o| - 1
    requires !KeptPrefix(o, m, i).done
    requires keep == (StrideDue(i, |KeptPrefix(o, m, i).indices|, |o|, m) || SlopeChange(o, i))
    ensures var p := KeptPrefix(o, m, i).indices;
      KeptPrefix(o, m, i + 1).indices == (if keep then p + [i] else p)
  {
  }

  lemma PickAppend(s: seq<real>, idx: seq<nat>, j: nat)
    requires forall k :: 0 <= k < |idx| ==> idx[k] < |s|
    requires j < |s|
    ensures Pick(s, idx + [j]) == Pick(s, idx) + [s[j]]
  {
  }

  /** The kept indices increase, and the early `break` caps their number
      at `m - 1` (at 2 when `m <= 2`, where it is taken at once). */
  lemma {:induction false} KeptInvariant(o: seq<real>, m: nat, i: nat)
    requires 1 <= i && (i == 1 || i < |o|)
    ensures StrictlyIncreasing(KeptPrefix(o, m, i).indices)
    ensures |KeptPrefix(o, m, i).indices| <= if m >= 3 then m - 1 else 2
    ensures !KeptPrefix(o, m, i).done && i > 1 ==> |KeptPrefix(o, m, i).indices| < m - 1
    ensures m <= 2 && i > 1 ==> KeptPrefix(o, m, i).done
  {
    if i > 1 {
      KeptInvariant(o, m, i - 1);
    }
  }

  /** Once the early `break` is taken nothing more is kept. */
  lemma {:induction false} DoneStays(o: seq<real>, m: nat, i: nat, j: nat)
    requires 1 <= i <= j && (j == 1 || j < |o|)
    requires KeptPrefix(o, m, i).done
    ensures KeptPrefix(o, m, j) == KeptPrefix(o, m, i)
    decreases j - i
  {
    if j > i {
      DoneStays(o, m, i, j - 1);
    }
  }

  /** The last position the loop reaches. */
  function LoopEnd(n: nat): nat
  {
    if n >= 2 then n - 1 else 1
  }

  /** The indices kept when decimating `n = |o| > m` points. */
  function DecimationIndices(o: seq<real>, m: nat): (idx: seq<nat>)
    requires |o| > 0
    ensures forall k :: 0 <= k < |idx| ==> idx[k] < |o|
  {
    KeptPrefix(o, m, LoopEnd(|o|)).indices + [|o| - 1]
  }

  /** reduceDataDensity as a value: its inputs when they fit, the picked
      points otherwise. */
  function Reduced(t: seq<real>, o: seq<real>, m: nat): (r: (seq<real>, seq<real>))
    requires |t| == |o|
    ensures |r.0| == |r.1|
    ensures |t| <= m ==> r == (t, o)
  {
    if |t| <= m then (t, o)
    else
      var idx := DecimationIndices(o, m);
      (Pick(t, idx), Pick(o, idx))
  }

  method ReduceDataDensity(timeData: seq<real>, outputData: seq<real>, maxPoints: nat)
    returns (reducedTime: seq<real>, reducedOutput: seq<real>)
    requires |timeData| == |outputData|
    ensures (reducedTime, reducedOutput) == Reduced(timeData, outputData, maxPoints)
  {
    var n := |timeData|;
    if n <= maxPoints {
      return timeData, outputData;
    }
    reducedTime := [timeData[0]];
    reducedOutput := [outputData[0]];
    ghost var d := Decimation([0], false);
    var i := 1;
    while i < n - 1
      invariant 1 <= i && (i == 1 || i < n)
      invariant d == KeptPrefix(outputData, maxPoints, i) && !d.done
      invariant reducedTime == Pick(timeData, d.indices)
      invariant reducedOutput == Pick(outputData, d.indices)
    {
      var includePoint := false;
      if StrideDue(i, |reducedTime|, n, maxPoints) {
        includePoint := true;
      }
      if i > 0 && i < |outputData| - 1 {
        var prevSlope := outputData[i] - outputData[i - 1];
        var nextSlope := outputData[i + 1] - outputData[i];
        if Abs(nextSlope - prevSlope) > 0.1 {
          includePoint := true;
        }
      }
      KeptStep(outputData, maxPoints, i, includePoint);
      if includePoint {
        PickAppend(timeData, d.indices, i);
        PickAppend(outputData, d.indices, i);
        reducedTime := reducedTime + [timeData[i]];
        reducedOutput := reducedOutput + [outputData[i]];
      }
      d := KeptPrefix(outputData, maxPoints, i + 1);
      if |reducedTime| >= maxPoints - 1 {
        DoneStays(outputData, maxPoints, i + 1, LoopEnd(n));
        break;
      }
      i := i + 1;
    }
    assert d == KeptPrefix(outputData, maxPoints, LoopEnd(n));
    PickAppend(timeData, d.indices, n - 1);
    PickAppend(outputData, d.indices, n - 1);
    reducedTime := reducedTime + [timeData[n - 1]];
    reducedOutput := reducedOutput + [outputData[n - 1]];
  }

  /** Decimation keeps the first and the last point, keeps at most
      `max(m, 3)` points, and keeps them in order with time and output
      paired. */
  lemma ReducedShape(t: seq<real>, o: seq<real>, m: nat)
    requires |t| == |o| > m
    ensures var (rt, ro) := Reduced(t, o, m);
      |rt| <= (if m >= 3 then m else 3) &&
      rt[0] == t[0] && ro[0] == o[0] &&
      rt[|rt| - 1] == t[|t| - 1] && ro[|ro| - 1] == o[|o| - 1]
  {
    var d := KeptPrefix(o, m, LoopEnd(|o|));
    KeptInvariant(o, m, LoopEnd(|o|));
    assert d.indices[0] == 0;
  }

  /** `(rt, ro)` is an order-preserving choice of paired points of `(t, o)`. */
  ghost predicate PairedSubsequence(rt: seq<real>, ro: seq<real>, t: seq<real>, o: seq<real>)
    requires |t| == |o|
  {
    exists idx: seq<nat> :: StrictlyIncreasing(idx) &&
      (forall k :: 0 <= k < |idx| ==> idx[k] < |t|) &&
      rt == Pick(t, idx) && ro == Pick(o, idx)
  }

  /** The positions decimation picks, increasing and paired. */
  lemma ReducedPositions(t: seq<real>, o: seq<real>, m: nat) returns (idx: seq<nat>)
    requires |t| == |o| >= 2
    ensures StrictlyIncreasing(idx)
    ensures forall k :: 0 <= k < |idx| ==> idx[k] < |t|
    ensures Reduced(t, o, m).0 == Pick(t, idx) && Reduced(t, o, m).1 == Pick(o, idx)
  {
    if |t| <= m {
      idx := seq(|t|, k requires 0 <= k < |t| => k);
      assert t == Pick(t, idx) && o == Pick(o, idx);
    } else {
      idx := DecimationIndices(o, m);
      var pre := KeptPrefix(o, m, LoopEnd(|o|)).indices;
      KeptInvariant(o, m, LoopEnd(|o|));
      assert forall k :: 0 <= k < |pre| ==> pre[k] < |o| - 1;
    }
  }

  /** With at least two points the decimated series is such a choice. */
  lemma ReducedIsSubsequence(t: seq<real>, o: seq<real>, m: nat)
    requires |t| == |o| >= 2
    ensures PairedSubsequence(Reduced(t, o, m).0, Reduced(t, o, m).1, t, o)
  {
    var idx := ReducedPositions(t, o, m);
  }

  // ------------------------------------------------------------ re-gridding

  /** The corrected time axis `0, period, 2 * period, ...`. */
  function Grid(n: nat, period: real): (g: seq<real>)
    ensures |g| == n
  {
    seq(n, i requires 0 <= i < n => Tick(i, period))
  }

  /** The `i`-th grid time, `float64(i) * samplingPeriod`. */
  function Tick(i: nat, period: real): real
  {
    (i as real) * period
  }

  /** optimizeDataPoints as a value: the window between the two scans,
      re-gridded and decimated to `MaxPoints`. */
  function Optimized(t: seq<real>, o: seq<real>, v: real, period: real): (r: (seq<real>, seq<real>))
    requires |t| == |o|
    ensures |r.0| == |r.1|
  {
    if |t| == 0 then (t, o)
    else
      var start := ChangeStart(o, v);
      var end := StabilizationPoint(o, v, start);
      var relevant := o[start..end + 1];
      Reduced(Grid(|relevant|, period), relevant, MaxPoints)
  }

  method OptimizeDataPoints(timeData: seq<real>, outputData: seq<real>, inputVoltage: real, samplingPeriod: real)
    returns (optimizedTime: seq<real>, optimizedOutput: seq<real>)
    requires |timeData| == |outputData|
    ensures (optimizedTime, optimizedOutput) == Optimized(timeData, outputData, inputVoltage, samplingPeriod)
  {
    if |timeData| == 0 || |outputData| == 0 {
      return timeData, outputData;
    }
    var startIndex := FindSignificantChangeStart(outputData, inputVoltage);
    var endIndex := FindStabilizationPoint(outputData, inputVoltage, startIndex);
    var relevantTime := timeData[startIndex..endIndex + 1];
    var relevantOutput := outputData[startIndex..endIndex + 1];
    var correctedTime := new real[|relevantTime|];
    for i := 0 to |relevantTime|
      invariant forall k :: 0 <= k < i ==> correctedTime[k] == Tick(k, samplingPeriod)
    {
      correctedTime[i] := (i as real) * samplingPeriod;
    }
    assert |relevantTime| == |relevantOutput|;
    assert correctedTime[..] == Grid(|relevantOutput|, samplingPeriod);
    optimizedTime, optimizedOutput := ReduceDataDensity(correctedTime[..], relevantOutput, MaxPoints);
  }

  /** On non-empty data the optimized series has between 1 and 300 points,
      starts at time 0 with the window's first sample and ends with the
      window's last sample. */
  lemma OptimizedShape(t: seq<real>, o: seq<real>, v: real, period: real)
    requires |t| == |o| > 0
    ensures var (ot, oo) := Optimized(t, o, v, period);
      var start := ChangeStart(o, v);
      var end := StabilizationPoint(o, v, start);
      1 <= |ot| <= MaxPoints && ot[0] == 0.0 &&
      oo[0] == o[start] && oo[|oo| - 1] == o[end]
  {
    var start := ChangeStart(o, v);
    var end := StabilizationPoint(o, v, start);
    var relevant := o[start..end + 1];
    var grid := Grid(|relevant|, period);
    if |relevant| > MaxPoints {
      ReducedShape(grid, relevant, MaxPoints);
    }
  }

  /** With a positive period the optimized time stamps strictly increase
      and each is a whole multiple of the period. */
  lemma OptimizedTimesIncrease(t: seq<real>, o: seq<real>, v: real, period: real)
    requires |t| == |o| > 0 && period > 0.0
    ensures var ot := Optimized(t, o, v, period).0;
      (forall k, l :: 0 <= k < l < |ot| ==> ot[k] < ot[l]) &&
      (forall k :: 0 <= k < |ot| ==> OnGrid(ot[k], period))
  {
    var start := ChangeStart(o, v);
    var end := StabilizationPoint(o, v, start);
    var relevant := o[start..end + 1];
    var grid := Grid(|relevant|, period);
    var ot := Optimized(t, o, v, period).0;
    assert ot == Reduced(grid, relevant, MaxPoints).0;
    if |relevant| >= 2 {
      var idx := ReducedPositions(grid, relevant, MaxPoints);
      PickedTicksIncrease(|relevant|, period, idx);
    } else {
      assert ot == grid && ot[0] == Tick(0, period);
      OnGridTick(0, period);
    }
  }

  /** Grid points picked at increasing positions increase. */
  lemma PickedTicksIncrease(n: nat, period: real, idx: seq<nat>)
    requires period > 0.0 && StrictlyIncreasing(idx)
    requires forall k :: 0 <= k < |idx| ==> idx[k] < n
    ensures var ot := Pick(Grid(n, period), idx);
      (forall k, l :: 0 <= k < l < |ot| ==> ot[k] < ot[l]) &&
      (forall k :: 0 <= k < |ot| ==> OnGrid(ot[k], period))
  {
    var ot := Pick(Grid(n, period), idx);
    forall k, l | 0 <= k < l < |ot| ensures ot[k] < ot[l] {
      TicksIncrease(idx[k], idx[l], period);
    }
    forall k | 0 <= k < |ot| ensures OnGrid(ot[k], period) {
      var j := idx[k];
      assert ot[k] == Tick(j, period);
      OnGridTick(j, period);
    }
  }

  /** `x` is a whole multiple of the period. */
  ghost predicate OnGrid(x: real, period: real)
  {
    exists j: nat :: x == Tick(j, period)
  }

  lemma OnGridTick(j: nat, period: real)
    ensures OnGrid(Tick(j, period), period)
  {
  }

  lemma TicksIncrease(i: nat, j: nat, period: real)
    requires i < j && period > 0.0
    ensures Tick(i, period) < Tick(j, period)
  {
    assert Tick(j, period) - Tick(i, period) == ((j - i) as real) * period;
  }
}
