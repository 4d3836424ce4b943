/** processAnalysisRequest (analysis.go): read the CSV of a document,
    optimize the series, classify it, build the raw data, the description
    and the technical summary, and write the result. The file store, the
    number parser, the classification service and the formatters are
    parameters. */
module Pipeline {
  import opened Common
  import opened Ingest
  import opened Density
  import opened Features
  import opened Metrics
  import opened Poles
  import opened Report
  import opened Store

  /** The code the pipeline calls but that is not part of this model. */
  datatype Services = Services(parse: string -> Option<real>,
                               predictType: seq<real> -> Option<int>,
                               predictPoles: seq<real> -> Option<RawPoles>,
                               formats: Formats)

  /** The raw data of an analysis before its metrics are merged in. */
  function RawDataOf(series: Series, ot: seq<real>, oo: seq<real>, v: real, p: Prediction): (raw: RawData)
    requires |ot| > 0 && |oo| > 0
  {
    RawData(v, |series.times|, |ot|, series.period, ot[0], ot[|ot| - 1], oo[0], oo[|oo| - 1],
            p.mlType, p.mlPoles, None)
  }

  /** What the pipeline stores for a non-empty series. The stored raw
      data is the one serialized before the metrics are merged; the
      description and the summary are built from the merged one. */
  function AnalysisOf(series: Series, v: real, sv: Services): (a: Analysis)
    requires |series.times| == |series.values| > 0
    requires SqrtPositive(sv.formats)
  {
    OptimizedShape(series.times, series.values, v, series.period);
    var (ot, oo) := Optimized(series.times, series.values, v, series.period);
    var p := Predict(FeatureVector(ot, oo, v, sv.formats.sqrt), sv.predictType, sv.predictPoles);
    var raw := RawDataOf(series, ot, oo, v, p);
    var merged := raw.(metrics := Some(MetricsOf(ot, oo, v)));
    Analysis(p.systemType, Description(p.systemType, merged, p.poles, v, sv.formats), p.poles,
             raw, ot, oo, TechnicalSummary(merged, p.poles), p.mlType, p.mlPoles)
  }

  /** What an analysis of the file stores, or `None` when the pipeline
      stops before the transaction: the file could not be fetched, or it
      held no sample. */
  function Analyze(v: real, file: Option<seq<Row>>, sv: Services): (r: Option<Analysis>)
    requires SqrtPositive(sv.formats)
    ensures r.None? <==> file.None? || |ScanRows(file.value, sv.parse).times| == 0
  {
    if file.None? then None
    else
      match Ingest.Ingest(file.value, sv.parse)
      case Failure(_) => None
      case Success(series) => Some(AnalysisOf(series, v, sv))
  }

  /** A stored analysis: its graph is the optimized series, with between
      1 and 300 points starting at time 0; its raw data counts the samples
      read and the points kept and carries no metrics. */
  lemma AnalysisSeries(series: Series, v: real, sv: Services)
    requires |series.times| == |series.values| > 0
    requires SqrtPositive(sv.formats)
    ensures var a := AnalysisOf(series, v, sv);
      1 <= |a.graphTime| == |a.graphOutput| <= MaxPoints &&
      a.graphTime[0] == 0.0 &&
      (a.graphTime, a.graphOutput) == Optimized(series.times, series.values, v, series.period) &&
      a.rawData.originalPoints == |series.times| &&
      a.rawData.optimizedPoints == |a.graphTime| &&
      a.rawData.metrics.None?
  {
    OptimizedShape(series.times, series.values, v, series.period);
  }

  /** The stored classification comes from the feature vector of the
      stored graph, computed only from ten points on. */
  lemma AnalysisPrediction(series: Series, v: real, sv: Services)
    requires |series.times| == |series.values| > 0
    requires SqrtPositive(sv.formats)
    ensures var a := AnalysisOf(series, v, sv);
      var p := Predict(FeatureVector(a.graphTime, a.graphOutput, v, sv.formats.sqrt), sv.predictType, sv.predictPoles);
      a.systemType == p.systemType && a.poles == p.poles && a.mlType == p.mlType && a.mlPoles == p.mlPoles
  {
  }

  /** A stored analysis: its description opens with its type's header and
      ends with the voltage sentence. */
  lemma AnalysisDescription(series: Series, v: real, sv: Services)
    requires |series.times| == |series.values| > 0
    requires SqrtPositive(sv.formats)
    ensures var a := AnalysisOf(series, v, sv);
      StartsWith(a.description, Header(a.systemType)) &&
      EndsWith(a.description, VoltageSentence(sv.formats, v))
  {
    OptimizedShape(series.times, series.values, v, series.period);
    var (ot, oo) := Optimized(series.times, series.values, v, series.period);
    var p := Predict(FeatureVector(ot, oo, v, sv.formats.sqrt), sv.predictType, sv.predictPoles);
    var merged := RawDataOf(series, ot, oo, v, p).(metrics := Some(MetricsOf(ot, oo, v)));
    DescriptionFrame(p.systemType, p.systemType, merged, p.poles, v, sv.formats);
  }

  /** The stored description and summary are those of the stored raw data
      with the metrics of the stored graph merged in, and of the two stored
      poles. */
  lemma AnalysisReport(series: Series, v: real, sv: Services)
    requires |series.times| == |series.values| > 0
    requires SqrtPositive(sv.formats)
    ensures var a := AnalysisOf(series, v, sv);
      |a.graphTime| > 0 && |a.graphOutput| <= |a.graphTime| &&
      var merged := a.rawData.(metrics := Some(MetricsOf(a.graphTime, a.graphOutput, v)));
      |a.poles| == 2 && a.systemType != CriticallyDamped &&
      a.description == Description(a.systemType, merged, a.poles, v, sv.formats) &&
      a.summary == TechnicalSummary(merged, a.poles)
  {
    OptimizedShape(series.times, series.values, v, series.period);
  }

  /** The whole of processAnalysisRequest on an existing document. */
  method Process(store: ResultStore, analysisId: nat, documentId: nat, v: real,
                 file: Option<seq<Row>>, sv: Services, fault: Fault) returns (written: bool)
    requires SqrtPositive(sv.formats)
    modifies store
    ensures var a := Analyze(v, file, sv);
      (written <==> a.Some? && fault == NoFault) &&
      (written ==>
        store.requests == MarkProcessed(old(store.requests), analysisId) &&
        store.results == CommittedRows(old(store.requests), old(store.results), documentId, analysisId, a.value)) &&
      (!written ==> store.requests == old(store.requests) && store.results == old(store.results))
  {
    if file.None? {
      return false;
    }
    var read := ReadSeries(file.value, sv.parse);
    if read.Failure? {
      return false;
    }
    var series := read.value;
    OptimizedShape(series.times, series.values, v, series.period);
    var optimizedTime, optimizedOutput := OptimizeDataPoints(series.times, series.values, v, series.period);
    var features := ExtractFeatures(optimizedTime, optimizedOutput, v, sv.formats.sqrt);
    var p := Predict(features, sv.predictType, sv.predictPoles);
    var rawData := RawDataOf(series, optimizedTime, optimizedOutput, v, p);
    var performanceMetrics := ExtractPerformanceMetrics(optimizedTime, optimizedOutput, v);
    var merged := rawData.(metrics := Some(performanceMetrics));
    var description := Description(p.systemType, merged, p.poles, v, sv.formats);
    var summary := GenerateTechnicalSummary(merged, p.poles);
    var a := Analysis(p.systemType, description, p.poles, rawData, optimizedTime, optimizedOutput,
                      summary, p.mlType, p.mlPoles);
    assert a == AnalysisOf(series, v, sv);
    written := store.Write(documentId, analysisId, a, fault);
  }
}
