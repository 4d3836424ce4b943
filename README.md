# Step-response analysis pipeline

A Dafny model of the analysis pipeline of the control-systems back end
(`backend/handlers/analysis.go`). The pipeline takes an uploaded CSV file
of an input-voltage step response and does the following:

- reads the time/output samples and the sampling period;
- cuts the response down to the window between the first significant
  change and the point where it settles;
- rebuilds the time axis on the sampling grid and decimates to at most
  300 points;
- computes a 30-value feature vector for the classification service;
- classifies the system (underdamped, overdamped, unknown) and corrects
  the predicted poles;
- computes the overshoot, settling, rise and steady-state metrics;
- writes a Spanish description and a technical summary;
- stores the result in one transaction that makes it the document's
  only latest result.

The model has these modules, one per stage:

| module | contents |
|---|---|
| `Common` | small arithmetic and string helpers |
| `Sorting` | the in-place bubble sort and the reference sorted copy |
| `Stats` | the `calculate*` helpers |
| `Ingest` | the CSV read loop |
| `Window` | the change-start and stabilization scans |
| `Density` | re-gridding and decimation |
| `Features` | the feature vector |
| `Metrics` | the performance metrics |
| `Poles` | classification and pole correction |
| `Report` | the description and the technical summary |
| `Store` | the result tables and the transaction |
| `Pipeline` | `processAnalysisRequest` end to end |

Each imperative Go loop is a Dafny `method`, proved equal to a specification
`function`, with two exceptions. The loop that merges the metrics into the
raw data is a record update, `rawData.(metrics := Some(...))`. The loop
that pads or truncates the feature vector is left out (see below). The lemmas then state what those functions mean. The result
tables are a class whose `Write` method changes them in place.

Several outside services are parameters of the model:

- the number parser (`strconv.ParseFloat`) is a partial function `string -> Option<real>`;
- `math.Sqrt` and the `%.3f` / `%.1f` / `%d` formatters are function-typed parameters;
- each of the two classification calls is a function from the features to an optional reply;
- the file fetch is an optional sequence of CSV rows;
- which transaction step the database refuses, if any, is a `Fault` value.

Samples are exact `real`s.

## Model

| member | source | states |
|---|---|---|
| Ingest.ScanRows | backend/handlers/analysis.go:317-365 | the read loop keeps the time and output lists the same length, and data has started exactly when a sample was read |
| Ingest.StepAppends | backend/handlers/analysis.go:330-364 | a record adds `(parse(cell0), parse(cell1))` to the two lists exactly when it is accepted (both cells parse, it is not an early sampling-period row, and it is not a header seen before data); otherwise neither list changes |
| Ingest.HeaderSkippedOnlyBeforeData | backend/handlers/analysis.go:342-364 | once a sample has been read, a row whose two cells parse is appended even if it looks like a header |
| Ingest.SamplesFromRows | backend/handlers/analysis.go:355-363 | every sample pair comes from one CSV row whose first two cells parse to exactly that time and that output |
| Ingest.PeriodSettledEarly | backend/handlers/analysis.go:331-339 | rows after line 10 never change the sampling period |
| Ingest.PeriodOrigin | backend/handlers/analysis.go:309-339 | the period is the 0.001 default or the parsed second cell of a sampling-period row among the first ten lines |
| Ingest.StepPeriod | backend/handlers/analysis.go:330-339 | one row sets the period to its parsed second cell exactly when it is a sampling-period row within the first ten lines; any other row leaves the period unchanged |
| Ingest.LastPeriodRowWins | backend/handlers/analysis.go:330-339 | the last sampling-period row whose value parses lies within the first ten lines and sets the period, whatever follows it |
| Ingest.NoPeriodRowDefault | backend/handlers/analysis.go:309-339 | with no such row the period keeps its 0.001 default |
| Ingest.DerivedPeriod | backend/handlers/analysis.go:369-375 | the period changes only from the 0.001 default with two or more samples, to `\|t1 - t0\|` in (0, 1); under those conditions it always changes to that value |
| Ingest.Ingest | backend/handlers/analysis.go:317-383 | the pipeline aborts exactly when no sample was read; otherwise the series is the loop's two lists, non-empty and of equal length, and its period is the loop's period re-derived by `DerivedPeriod` |
| Ingest.ReadSeries | backend/handlers/analysis.go:306-383 | the imperative read loop and period derivation compute `Ingest` |
| Window.ChangeStart | backend/handlers/analysis.go:652-688 | the change start is a valid index on non-empty data; when it is positive, the 15 samples after it exist |
| Window.ChangeStartIsFirst | backend/handlers/analysis.go:668-687 | the start is ten samples before the first 5-sample average that departs from the first-ten mean by more than max(0.05\|V\|, 0.1); no earlier window departs; with no departure the start is 0 |
| Window.FindSignificantChangeStart | backend/handlers/analysis.go:652-688 | the nested moving-average loops compute `ChangeStart` |
| Window.StabilizationPoint | backend/handlers/analysis.go:691-726 | the end lies in [start, len-1]; it is len-1 when there are at most start+50 samples |
| Window.StabilizedAt | backend/handlers/analysis.go:704-714 | when the last run of 20 samples within 0.02\|V\| of V starts at i (past start+50), the end is min(i+30, len-1) |
| Window.NeverStabilized | backend/handlers/analysis.go:720-725 | with no such run, the end is the 80 % fallback |
| Window.FindStabilizationPoint | backend/handlers/analysis.go:691-726 | the backward `stableCount` scan computes `StabilizationPoint` |
| Density.Reduced | backend/handlers/analysis.go:729-733 | the two decimated lists have equal length, and inputs that fit are returned unchanged |
| Density.ReduceDataDensity | backend/handlers/analysis.go:729-779 | the append loop with its early `break` computes `Reduced` |
| Density.KeptInvariant | backend/handlers/analysis.go:741-772 | the kept indices strictly increase; the `break` caps their number at maxPoints-1 |
| Density.ReducedShape | backend/handlers/analysis.go:736-778 | decimating more than maxPoints points keeps at most maxPoints (3 when maxPoints < 3) and keeps the first and the last point |
| Density.ReducedPositions | backend/handlers/analysis.go:736-778 | the decimated time and output lists are the inputs at the same strictly increasing positions |
| Density.ReducedIsSubsequence | backend/handlers/analysis.go:729-779 | the result is an order-preserving subsequence with time and output paired |
| Density.OptimizeDataPoints | backend/handlers/analysis.go:620-649 | the slicing and re-gridding loop computes `Optimized` |
| Density.OptimizedShape | backend/handlers/analysis.go:620-649 | on non-empty data the optimized series has 1 to 300 points, starts at time 0, and begins and ends with the samples at the window's start and end |
| Density.OptimizedTimesIncrease | backend/handlers/analysis.go:637-646 | with a positive period the optimized time stamps strictly increase and are whole multiples of the period |
| Sorting.BubbleSort | backend/handlers/analysis.go:950-957 | the in-place bubble sort leaves the array holding the reference sorted copy of its old contents |
| Sorting.SortedOf | backend/handlers/analysis.go:941-991 | the reference sorted copy is sorted and a permutation of its input |
| Sorting.SortedUnique | backend/handlers/analysis.go:941-991 | two sorted permutations of the same data are equal, so the sorted copy does not depend on how it is sorted |
| Stats.Mean | backend/handlers/analysis.go:892-901 | the accumulator loop computes the mean (0 on empty data) |
| Stats.MeanWithinRange | backend/handlers/analysis.go:892-939 | the mean lies between the minimum and the maximum |
| Stats.Minimum | backend/handlers/analysis.go:915-926 | the loop computes `MinOf`, a sample no greater than any sample (0 on empty data) |
| Stats.Maximum | backend/handlers/analysis.go:928-939 | the loop computes `MaxOf`, a sample no smaller than any sample (0 on empty data) |
| Stats.StandardDeviation | backend/handlers/analysis.go:903-913 | the loop computes sqrt of the population variance |
| Stats.VarianceNonNegative | backend/handlers/analysis.go:903-913 | the quantity under the square root is never negative |
| Stats.Median | backend/handlers/analysis.go:941-963 | sorting a fresh copy and taking the middle (or the mean of the two middle) elements computes `MedianOf` |
| Stats.MedianWithinRange | backend/handlers/analysis.go:941-963 | the median lies between the minimum and the maximum |
| Stats.Percentile | backend/handlers/analysis.go:965-991 | the nearest-rank percentile with the clamped index on a sorted copy computes `PercentileOf` |
| Stats.PercentileIndex | backend/handlers/analysis.go:983-989 | the clamped index ceil(n·p/100)-1 lies in [0, n-1] |
| Stats.PercentileIsSample | backend/handlers/analysis.go:965-991 | a percentile is one of the samples |
| Stats.PercentileMonotone | backend/handlers/analysis.go:965-991 | a higher percentage never selects a smaller sample |
| Stats.CalculateDifferences | backend/handlers/analysis.go:993-1003 | the loop computes the first differences, of length len-1 (empty below two samples) |
| Stats.DifferencesTelescope | backend/handlers/analysis.go:993-1003 | the first differences sum to the net change of the series |
| Stats.SumAbs | backend/handlers/analysis.go:1005-1011 | the loop computes the sum of magnitudes |
| Stats.NetChangeWithinTotalVariation | backend/handlers/analysis.go:993-1011 | the total variation bounds the net change |
| Stats.MaxAbs | backend/handlers/analysis.go:1013-1026 | the loop computes the largest magnitude, attained by a sample |
| Stats.MeanAbsWithinMaxAbs | backend/handlers/analysis.go:1028-1033 | the mean magnitude lies between 0 and the largest magnitude |
| Stats.CountPeaks | backend/handlers/analysis.go:1035-1049 | the loop counts the strict interior extrema |
| Stats.PeaksBounded | backend/handlers/analysis.go:1035-1049 | there are at most len-2 peaks, and none below three samples |
| Stats.MonotoneHasNoPeaks | backend/handlers/analysis.go:1035-1049 | a nondecreasing sequence has no peaks |
| Stats.Energy | backend/handlers/analysis.go:1051-1061 | the loop computes the mean of squares |
| Stats.EnergyNonNegative | backend/handlers/analysis.go:1051-1061 | the energy is never negative |
| Features.UsefulRegion | backend/handlers/analysis.go:864-889 | on non-empty data 0 ≤ start ≤ end ≤ len-1; from ten samples on, the region spans at least nine; it never exceeds 1500 |
| Features.DetectUsefulRegion | backend/handlers/analysis.go:864-889 | the forward scan computes `UsefulRegion` |
| Features.FirstJump | backend/handlers/analysis.go:873-879 | the first sample farther than the threshold from the first sample, and none before it |
| Features.FeatureVector | backend/handlers/analysis.go:782-861 | the vector is empty exactly below ten samples, and otherwise has exactly 30 values |
| Features.ExtractFeatures | backend/handlers/analysis.go:782-861 | the append-based build computes `FeatureVector` |
| Features.FeatureLayout | backend/handlers/analysis.go:791-843 | slots 0–14 hold the output statistics and slots 15–29 the time statistics of the same useful region |
| Features.BasicStatsFacts | backend/handlers/analysis.go:801-808 | in each block, the mean and the median lie between the minimum and the maximum; the 25th percentile is ≤ the 75th; both are samples |
| Features.ShapeStatsFacts | backend/handlers/analysis.go:810-816 | the total variation bounds the net change; the mean absolute change lies between 0 and the largest change; the peak count is bounded |
| Features.ExtraStatsFacts | backend/handlers/analysis.go:818-821 | the range, the energy and the mean magnitude are never negative |
| Metrics.MaxOvershoot | backend/handlers/analysis.go:1079-1085 | the overshoot is never negative and is 0 when V = 0 |
| Metrics.OvershootPositiveIff | backend/handlers/analysis.go:1079-1085 | on non-empty data the overshoot is positive exactly when V ≠ 0 and some sample exceeds V |
| Metrics.SettlingIndex | backend/handlers/analysis.go:1064-1076 | every sample from the settling index on (that has a following time stamp) is within the band; when the index is neither 0 nor the last time stamp, the sample just before it is not |
| Metrics.SettlingTimeOf | backend/handlers/analysis.go:1064-1076 | on non-empty data the settling time is one of the input time stamps |
| Metrics.SettlingTime | backend/handlers/analysis.go:1064-1076 | the backward scan computes `SettlingTimeOf` |
| Metrics.RiseTime | backend/handlers/analysis.go:1088-1108 | the scan with the -1 sentinels and the `break` computes `RiseTimeOf` |
| Metrics.RiseTimeZeroUnlessReached | backend/handlers/analysis.go:1088-1108 | the rise time is 0 unless both the 10 % and the 90 % levels are reached |
| Metrics.RiseTimeNonNegative | backend/handlers/analysis.go:1088-1108 | with nondecreasing time stamps the rise time is never negative, whatever the sign of V |
| Metrics.RiseTimeBetweenCrossings | backend/handlers/analysis.go:1088-1108 | with V > 0 and the 90 % level reached, the rise time is the time of the first 90 % crossing minus the time of the first 10 % crossing |
| Metrics.SteadyStateErrorOf | backend/handlers/analysis.go:1330-1354 | the error is missing (NaN or infinity in Go) exactly when V = 0 on non-empty data; otherwise it is never negative |
| Metrics.SteadyStateError | backend/handlers/analysis.go:1330-1354 | the tail-mean loop computes `SteadyStateErrorOf` |
| Metrics.SteadyStateErrorZeroIff | backend/handlers/analysis.go:1330-1354 | the error is 0 exactly when the mean of the last 10 % of the samples equals V |
| Metrics.MetricsOf | backend/handlers/analysis.go:1317-1327 | the overshoot is never negative and the settling time is an input time stamp |
| Metrics.ExtractPerformanceMetrics | backend/handlers/analysis.go:1317-1327 | the four calculations compute `MetricsOf` |
| Poles.TypeFromCode | backend/handlers/analysis.go:430-437 | code 0 maps to underdamped and code 1 to overdamped, each exactly; nothing maps to critically damped |
| Poles.Label | backend/handlers/analysis.go:401-437 | every type has a non-empty stored label |
| Poles.LabelInjective | backend/handlers/analysis.go:401-437 | two types have the same label exactly when they are the same type, so the string switches on the label select by type |
| Poles.CorrectionInvertible | backend/handlers/analysis.go:459-487 | the correction is a bijection, and the service's reply is recoverable from the stored poles |
| Poles.CorrectionShape | backend/handlers/analysis.go:459-487 | the underdamped correction keeps a conjugate pair conjugate; the overdamped one keeps the imaginary parts and widens the real gap by 880.8; other types are not corrected |
| Poles.Predict | backend/handlers/analysis.go:396-505 | two poles are always stored. The type is underdamped exactly when there are no features, or the type call fails, or it returns 0. Each ML field is present exactly when there are features and its call succeeds. A successful type reply decides the type by its code (1 overdamped, other non-zero codes unknown) and is stored as the ML type. Without a pole reply the poles are -0.5 ± 0.866i; with one, they are the reply corrected for the decided type |
| Report.DescriptionFrame | backend/handlers/analysis.go:1172-1270 | a description opens with its own type's header and no other type's, and always ends with the input-voltage sentence |
| Report.HeadersDiffer | backend/handlers/analysis.go:1177-1256 | the headers of two different types differ at a position inside both |
| Report.UnderdampedContents | backend/handlers/analysis.go:1176-1201 | for a pole off the real axis, the description reports the natural frequency and damping factor, and contains the sentence selected by the 0.3 / 0.7 thresholds (their order is not stated) |
| Report.UnderdampedMetrics | backend/handlers/analysis.go:1203-1211 | with the metrics merged, the underdamped description reports the settling time, and the overshoot when it is positive |
| Report.OverdampedContents | backend/handlers/analysis.go:1215-1239 | with two poles, the overdamped description names both real parts and reports max(real1, real2) as dominant; with the metrics merged, it reports the rise and settling times |
| Report.OtherContents | backend/handlers/analysis.go:1243-1263 | the critically damped description reports the first pole as the multiple pole; the generic one reports the pole count |
| Report.SummaryKeys | backend/handlers/analysis.go:1273-1314 | the summary holds the pole keys exactly when there are poles, the metric keys exactly when the metrics are merged, and both point counts. The complex and real flags are opposite, the complex one set exactly when some pole has a non-zero imaginary part. No steady-state key is reported |
| Report.GenerateTechnicalSummary | backend/handlers/analysis.go:1273-1314 | the step-by-step map build with the early `break` computes `TechnicalSummary` |
| Store.CommitMakesLatest | backend/handlers/analysis.go:545-614 | after a commit the new row is last, is latest and belongs to the document. Every earlier row of the document is not latest, other documents' rows are untouched, and only `is_latest` flags change |
| Store.CommitKeepsOneLatest | backend/handlers/analysis.go:545-614 | a commit keeps at most one latest result per document |
| Store.MarkProcessedEffect | backend/handlers/analysis.go:604-608 | marking the request processed sets its flag and changes no other request and no document id |
| Store.BelongsToStable | backend/handlers/analysis.go:548-553 | marking a request processed does not change which document a row belongs to |
| Store.ResultStore.Write | backend/handlers/analysis.go:545-614 | the transaction commits exactly when no step fails. On commit the tables become the superseded rows plus the new latest row, with the request marked processed. On any failure they are unchanged. One latest result per document is preserved |
| Store.ResultStore.constructor | backend/handlers/analysis.go:545-553 | tables that keep one latest result per document satisfy the store's invariant |
| Pipeline.Analyze | backend/handlers/analysis.go:283-383 | the pipeline stops before the transaction exactly when the file is missing or holds no sample |
| Pipeline.AnalysisSeries | backend/handlers/analysis.go:386-393 | the stored graph is the optimized series (1 to 300 points from time 0); the raw data counts the samples read and the points kept, and carries no metrics |
| Pipeline.AnalysisPrediction | backend/handlers/analysis.go:410-505 | the stored type, poles and ML fields come from the feature vector of the stored graph |
| Pipeline.AnalysisDescription | backend/handlers/analysis.go:556-571 | the stored description opens with the stored type's header and ends with the voltage sentence |
| Pipeline.AnalysisReport | backend/handlers/analysis.go:556-575 | the description and the summary are built from the stored raw data with the metrics of the stored graph merged in, and from the two stored poles |
| Pipeline.Process | backend/handlers/analysis.go:283-614 | a result is written exactly when the file yields samples and no transaction step fails. When written, the tables hold exactly that analysis as the document's new latest result. Otherwise they are unchanged |

## Left out

- HTTP handlers, authentication, the detached goroutine, `time.Sleep` and logging: no pipeline logic in them.
- The race on `is_latest` between two concurrent analyses of one document: it depends on the database's isolation level.
- Missing document lookup: the pipeline is modelled from the document's file onwards. A missing document and a failed file fetch both stop it before any write, because the file is `None`.
- Cloudinary, the classification HTTP service and its models: they are parameters. The service URL and the client are not modelled.
- JSON marshalling of the poles, raw data, graph and summary: the model stores the values themselves.
- `CreatedAt` and the database-assigned ids: there is no clock in the model, and the analysis id is a parameter.
- `Report.DescriptionFrame` and the other `Report` lemmas: the text fragments come from the formatter parameters. The model states which fragments appear, not their digits.
- An over-long description (column limit) or any other refused insert: this is the `FailInsert` fault.
- Floating point: samples, thresholds and offsets are exact reals. IEEE rounding is not modelled, nor NaN or infinity. A zero input voltage makes the steady-state error `None` instead of NaN or infinity. The 0.8 fallback and the 0.9 tail start are exact integer fractions. The float64 values of 0.8 and 0.9 lie slightly above the decimals, so truncation lands on the same index.
- `Ingest.Lower`: only the letters whose lower case is ASCII are lowered (A-Z, U+0130 to `i`, the Kelvin sign U+212A to `k`). Every other letter keeps its case. All other letters lower to non-ASCII letters, so the keyword tests, which look for ASCII text, give the same answers as with `strings.ToLower`. Bytes that are not valid UTF-8 are not modelled, because cells are sequences of characters.
- `Ingest.ReadSeries`: the CSV reader is a finite sequence of rows. A reader whose error recurs forever makes the Go loop at analysis.go:316-325 run forever, because each error `continue`s without reaching end of file; a finite sequence cannot express that non-termination. A stream that is cut off is the sequence up to the cut.
- `Stats.StandardDeviation` and `Report.UnderdampedContents`: `math.Sqrt` is an uninterpreted parameter. The description lemmas only assume it is positive on positive inputs. Bounds on the damping factor are therefore not proved.
- `Report.UnderdampedContents`, `Report.OverdampedContents`, `Report.OtherContents`: they prove which sentences appear. They do not prove that a sentence is absent when its condition fails.
- `Features.FeatureVector`: the branch that pads or truncates the vector to 30 values is not modelled separately. Every vector the code builds from ten samples on already has exactly 30 values, which is proved.
- `Metrics.SteadyStateError`: the `count == 0` guard is left out, because it cannot be taken. With a non-empty series the tail always holds at least one sample, which `Metrics.TailStart` proves.
- `Density.ReduceDataDensity` requires time and output lists of equal length, and `Metrics.RiseTime` requires no more outputs than time stamps. The pipeline always passes two slices of one window, so other inputs are not modelled.
- `Ingest.ReadSeries`: an explicit sampling period is not checked to be positive, as in the code. `Density.OptimizedTimesIncrease` therefore assumes a positive period.
- `countZeroCrossings`, `calculateVariance` and `calculateInitialSlope`: the pipeline never calls them. `findMaxValue`, which `calculateMaxOvershoot` calls at analysis.go:1080, has the body of `calculateMax` (0 on empty data). It is modelled by `Stats.MaxOf`, which `Metrics.MaxOvershoot` uses and `Stats.Maximum` computes.
- Persisted raw data: it is serialized before the performance metrics are merged into the same map, so the stored raw data has no metrics. The description and the summary do see them. This is modelled as written: `Pipeline.AnalysisSeries` and `Pipeline.AnalysisReport`.
