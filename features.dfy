/** The 30-value feature vector sent to the classifier (analysis.go,
    extractFeatures and detectUsefulRegion): fifteen statistics of the
    output over the useful region followed by the same fifteen of the time
    stamps. `sqrt` stands for `math.Sqrt`. */
module Features {
  import opened Common
  import opened Sorting
  import opened Stats

  /** Samples needed before any feature is computed. */
  const MinSamples: nat := 10

  /** Statistics per block, and blocks per vector. */
  const BlockSize: nat := 15
  const FeatureCount: nat := 30

  /** Longest useful region, in samples. */
  const MaxRegion: nat := 1500

  /** `max(|V| * 0.01, 0.01)`. */
  function RegionThreshold(v: real): real
  {
    Max(Abs(v) * 0.01, 0.01)
  }

  /** The first `i >= from` whose sample is farther than `thr` from the
      first sample, or `|o|` when there is none. */
  function FirstJump(o: seq<real>, thr: real, from: nat): (k: nat)
    requires 0 < from <= |o|
    ensures from <= k <= |o|
    ensures k < |o| ==> Abs(o[k] - o[0]) > thr
    ensures forall j :: from <= j < k ==> Abs(o[j] - o[0]) <= thr
    decreases |o| - from
  {
    if from == |o| then from
    else if Abs(o[from] - o[0]) > thr then from
    else FirstJump(o, thr, from + 1)
  }

  /** The useful region `[start, end]`: from ten samples before the first
      jump (or 0) to the last sample, at most 1500 samples long. */
  function UsefulRegion(o: seq<real>, v: real): (r: (int, int))
    ensures |o| > 0 ==> 0 <= r.0 <= r.1 <= |o| - 1
    ensures |o| >= MinSamples ==> r.1 - r.0 >= 9
    ensures r.1 - r.0 <= MaxRegion
  {
    if |o| < 50 then (0, |o| - 1)
    else
      var k := FirstJump(o, RegionThreshold(v), 1);
      var start := if k < |o| then (if k - 10 > 0 then k - 10 else 0) else 0;
      var maxPoints := MinInt(MaxRegion, |o|);
      var end := if |o| - 1 - start > maxPoints then start + maxPoints else |o| - 1;
      (start, end)
  }

  method DetectUsefulRegion(outputData: seq<real>, inputVoltage: real) returns (start: int, end: int)
    ensures (start, end) == UsefulRegion(outputData, inputVoltage)
  {
    if |outputData| < 50 {
      return 0, |outputData| - 1;
    }
    var threshold := Max(Abs(inputVoltage) * 0.01, 0.01);
    start := 0;
    var i := 1;
    while i < |outputData|
      invariant 1 <= i <= |outputData|
      invariant FirstJump(outputData, threshold, 1) == FirstJump(outputData, threshold, i)
    {
      if Abs(outputData[i] - outputData[0]) > threshold {
        start := if i - 10 > 0 then i - 10 else 0;
        break;
      }
      i := i + 1;
    }
    end := |outputData| - 1;
    var maxPoints := MinInt(MaxRegion, |outputData|);
    if end - start > maxPoints {
      end := start + maxPoints;
    }
  }

  /** Basic statistics (features 1–7 of a block). */
  function BasicStats(u: seq<real>, sqrt: real -> real): (b: seq<real>)
    ensures |b| == 7
  {
    [MeanOf(u), StdDevOf(u, sqrt), MinOf(u), MaxOf(u), MedianOf(u),
     PercentileOf(u, 25.0), PercentileOf(u, 75.0)]
  }

  /** Shape statistics over the first differences (features 8–12). */
  function ShapeStats(u: seq<real>, sqrt: real -> real): (b: seq<real>)
    ensures |b| == 5
  {
    var d := Differences(u);
    [SumAbsOf(d), MaxAbsOf(d), MeanAbsOf(d), PeaksOf(d) as real, StdDevOf(d, sqrt)]
  }

  /** Range, energy and mean magnitude (features 13–15). */
  function ExtraStats(u: seq<real>): (b: seq<real>)
    ensures |b| == 3
  {
    [MaxOf(u) - MinOf(u), EnergyOf(u), MeanAbsOf(u)]
  }

  /** The fifteen statistics of one series, in the order they are
      appended. */
  function Block(u: seq<real>, sqrt: real -> real): (b: seq<real>)
    ensures |b| == BlockSize
  {
    BasicStats(u, sqrt) + ShapeStats(u, sqrt) + ExtraStats(u)
  }

  method AppendBasicStats(features: seq<real>, u: seq<real>, sqrt: real -> real) returns (r: seq<real>)
    ensures r == features + BasicStats(u, sqrt)
  {
    var mean := Mean(u);
    var std := StandardDeviation(u, sqrt);
    var min := Minimum(u);
    var max := Maximum(u);
    var median := Median(u);
    var p25 := Percentile(u, 25.0);
    var p75 := Percentile(u, 75.0);
    r := features + [mean, std, min, max, median, p25, p75];
  }

  method AppendShapeStats(features: seq<real>, u: seq<real>, sqrt: real -> real) returns (r: seq<real>)
    ensures r == features + ShapeStats(u, sqrt)
  {
    var differences := CalculateDifferences(u);
    var sumAbs := SumAbs(differences);
    var maxAbs := MaxAbs(differences);
    var meanAbs := MeanAbsOf(differences);
    var peaks := CountPeaks(differences);
    var std := StandardDeviation(differences, sqrt);
    r := features + [sumAbs, maxAbs, meanAbs, peaks as real, std];
  }

  method AppendExtraStats(features: seq<real>, u: seq<real>) returns (r: seq<real>)
    ensures r == features + ExtraStats(u)
  {
    var max := Maximum(u);
    var min := Minimum(u);
    var energy := Energy(u);
    r := features + [max - min, energy, MeanAbsOf(u)];
  }

  /** Appends the fifteen statistics of `u` to `features`. */
  method AppendBlock(features: seq<real>, u: seq<real>, sqrt: real -> real) returns (r: seq<real>)
    ensures r == features + Block(u, sqrt)
  {
    r := AppendBasicStats(features, u, sqrt);
    r := AppendShapeStats(r, u, sqrt);
    r := AppendExtraStats(r, u);
  }

  /** The feature vector: empty below ten samples, otherwise the output
      block followed by the time block of the useful region `[start, end)`. */
  function FeatureVector(t: seq<real>, o: seq<real>, v: real, sqrt: real -> real): (f: seq<real>)
    requires |o| <= |t|
    ensures |f| == 0 || |f| == FeatureCount
    ensures |f| == 0 <==> |o| < MinSamples
  {
    if |t| < MinSamples || |o| < MinSamples then []
    else
      var (start, end) := UsefulRegion(o, v);
      Block(o[start..end], sqrt) + Block(t[start..end], sqrt)
  }

  method ExtractFeatures(timeData: seq<real>, outputData: seq<real>, inputVoltage: real, sqrt: real -> real)
    returns (features: seq<real>)
    requires |outputData| <= |timeData|
    ensures features == FeatureVector(timeData, outputData, inputVoltage, sqrt)
  {
    if |timeData| < MinSamples || |outputData| < MinSamples {
      return [];
    }
    var startIdx, endIdx := DetectUsefulRegion(outputData, inputVoltage);
    var usefulTime := timeData[startIdx..endIdx];
    var usefulOutput := outputData[startIdx..endIdx];
    features := [];
    features := AppendBlock(features, usefulOutput, sqrt);
    features := AppendBlock(features, usefulTime, sqrt);
  }

  /** Slot 0–14 hold the output statistics and 15–29 the time statistics
      of the same useful region, which has at least nine samples. */
  lemma FeatureLayout(t: seq<real>, o: seq<real>, v: real, sqrt: real -> real)
    requires |o| <= |t| && |o| >= MinSamples
    ensures var f := FeatureVector(t, o, v, sqrt);
      var (start, end) := UsefulRegion(o, v);
      |f| == FeatureCount && end - start >= 9 &&
      f[..BlockSize] == Block(o[start..end], sqrt) &&
      f[BlockSize..] == Block(t[start..end], sqrt)
  {
  }

  /** The basic statistics of a non-empty series: the mean and the median
      lie between minimum and maximum, and the 25th percentile does not
      exceed the 75th, both being samples. */
  lemma BasicStatsFacts(u: seq<real>, sqrt: real -> real)
    requires |u| > 0
    ensures var b := BasicStats(u, sqrt);
      b[2] <= b[0] <= b[3] && b[2] <= b[4] <= b[3] &&
      b[5] <= b[6] && b[5] in u && b[6] in u
  {
    MeanWithinRange(u);
    MedianWithinRange(u);
    PercentileMonotone(u, 25.0, 75.0);
    PercentileIsSample(u, 25.0);
    PercentileIsSample(u, 75.0);
  }

  /** The shape statistics of a non-empty series: the total variation
      bounds the net change, the mean change is between zero and the
      largest change, and only interior differences count as peaks. */
  lemma ShapeStatsFacts(u: seq<real>, sqrt: real -> real)
    requires |u| > 0
    ensures var b := ShapeStats(u, sqrt);
      Abs(u[|u| - 1] - u[0]) <= b[0] &&
      0.0 <= b[2] <= b[1] &&
      b[3] <= (if |u| >= 4 then (|u| - 3) as real else 0.0)
  {
    var d := Differences(u);
    NetChangeWithinTotalVariation(u);
    MeanAbsWithinMaxAbs(d);
    PeaksBounded(d);
  }

  /** The range, the energy and the mean magnitude are never negative. */
  lemma ExtraStatsFacts(u: seq<real>)
    ensures var b := ExtraStats(u);
      b[0] >= 0.0 && b[1] >= 0.0 && b[2] >= 0.0
  {
    EnergyNonNegative(u);
    MeanAbsWithinMaxAbs(u);
  }
}
