/** CSV ingestion of processAnalysisRequest (analysis.go, the read loop and
    the sampling-period derivation that follows it). The CSV reader is
    replaced by the sequence of rows it yields, each either a record of
    cells or a row the reader could not read; `strconv.ParseFloat` is the
    parameter `parse`, a partial function from a cell to a number. */
module Ingest {
  import opened Common

  datatype Row = Record(cells: seq<string>) | Unreadable

  /** The default sampling period, 1 ms. */
  const DefaultPeriod: real := 0.001

  /** A "sampling period" row is honoured only among the first lines. */
  const PeriodLines: nat := 10

  /** `strings.ToLower` on the letters whose lower case is ASCII: the
      ASCII capitals, dotted capital I (U+0130, lowered to `i`) and the
      Kelvin sign (U+212A, lowered to `k`). Every other letter lowers to a
      non-ASCII letter, so leaving it as it is cannot change whether an
      ASCII keyword occurs. */
  function LowerChar(c: char): (r: char)
    ensures 'A' <= c <= 'Z' ==> 'a' <= r <= 'z' && r as int == c as int + 32
    ensures c == '\U{0130}' ==> r == 'i'
    ensures c == '\U{212A}' ==> r == 'k'
    ensures r != c ==> 'a' <= r <= 'z'
  {
    if 'A' <= c <= 'Z' then (c as int + 32) as char
    else if c == '\U{0130}' then 'i'
    else if c == '\U{212A}' then 'k'
    else c
  }

  function Lower(s: string): (r: string)
    ensures |r| == |s|
  {
    seq(|s|, i requires 0 <= i < |s| => LowerChar(s[i]))
  }

  /** Line `line` (counted from 1) declares the sampling period. */
  predicate IsPeriodRow(line: nat, cells: seq<string>, parse: string -> Option<real>)
  {
    line <= PeriodLines && |cells| >= 2 &&
    Contains(Lower(cells[0]), "sampling period") && parse(cells[1]).Some?
  }

  /** A header row names the time or the output column. */
  predicate IsHeader(cells: seq<string>)
  {
    |cells| >= 2 &&
    (Contains(Lower(cells[0]), "tiempo") || Contains(Lower(cells[0]), "time") ||
     Contains(Lower(cells[1]), "salida") || Contains(Lower(cells[1]), "output"))
  }

  /** Both of the first two cells parse as numbers. */
  predicate IsDataRow(cells: seq<string>, parse: string -> Option<real>)
  {
    |cells| >= 2 && parse(cells[0]).Some? && parse(cells[1]).Some?
  }

  /** The loop variables: last line number, whether data has started, the
      sampling period so far and the two sample lists. */
  datatype Scan = Scan(line: nat, started: bool, period: real, times: seq<real>, values: seq<real>)

  const Initial: Scan := Scan(0, false, DefaultPeriod, [], [])

  /** Whether the record at line `st.line + 1` becomes a sample. */
  predicate Accepted(st: Scan, cells: seq<string>, parse: string -> Option<real>)
  {
    !IsPeriodRow(st.line + 1, cells, parse) &&
    !(!st.started && IsHeader(cells)) &&
    IsDataRow(cells, parse)
  }

  /** One iteration of the read loop. */
  function Step(st: Scan, row: Row, parse: string -> Option<real>): Scan
  {
    match row
    case Unreadable => st.(line := st.line + 1)
    case Record(cells) =>
      var line := st.line + 1;
      if IsPeriodRow(line, cells, parse) then
        st.(line := line, period := parse(cells[1]).value)
      else if !st.started && IsHeader(cells) then
        st.(line := line)
      else if IsDataRow(cells, parse) then
        Scan(line, true, st.period, st.times + [parse(cells[0]).value], st.values + [parse(cells[1]).value])
      else
        st.(line := line)
  }

  /** The loop state after the rows `rows`. */
  function ScanRows(rows: seq<Row>, parse: string -> Option<real>): (st: Scan)
    ensures st.line == |rows|
    ensures |st.times| == |st.values|
    ensures st.started <==> |st.times| > 0
  {
    if |rows| == 0 then Initial
    else Step(ScanRows(rows[..|rows| - 1], parse), rows[|rows| - 1], parse)
  }

  /** The period re-derived from the first two time stamps, only when the
      period still equals the default and the gap is in (0, 1). */
  function DerivedPeriod(period: real, times: seq<real>): (r: real)
    ensures r != period ==>
      period == DefaultPeriod && |times| >= 2 && r == Abs(times[1] - times[0]) && 0.0 < r < 1.0
    ensures period == DefaultPeriod && |times| >= 2 && 0.0 < Abs(times[1] - times[0]) < 1.0 ==>
      r == Abs(times[1] - times[0])
  {
    if period == DefaultPeriod && |times| >= 2 then
      var calculated := Abs(times[1] - times[0]);
      if calculated > 0.0 && calculated < 1.0 then calculated else period
    else period
  }

  datatype Series = Series(period: real, times: seq<real>, values: seq<real>)

  datatype IngestError = EmptyDataset

  /** The ingested series, or the abort when no sample was read. */
  function Ingest(rows: seq<Row>, parse: string -> Option<real>): (r: Result<Series, IngestError>)
    ensures r.Failure? <==> |ScanRows(rows, parse).times| == 0
    ensures r.Success? ==>
      r.value.times == ScanRows(rows, parse).times &&
      r.value.values == ScanRows(rows, parse).values &&
      r.value.period == DerivedPeriod(ScanRows(rows, parse).period, ScanRows(rows, parse).times) &&
      |r.value.times| == |r.value.values| > 0
  {
    var st := ScanRows(rows, parse);
    if |st.times| == 0 || |st.values| == 0 then Failure(EmptyDataset)
    else Success(Series(DerivedPeriod(st.period, st.times), st.times, st.values))
  }

  /** The read loop and the period derivation of processAnalysisRequest. */
  method ReadSeries(rows: seq<Row>, parse: string -> Option<real>) returns (r: Result<Series, IngestError>)
    ensures r == Ingest(rows, parse)
  {
    var samplingPeriod := DefaultPeriod;
    var rawTimeData: seq<real> := [];
    var rawOutputData: seq<real> := [];
    var lineNumber := 0;
    var dataStarted := false;
    for i := 0 to |rows|
      invariant Scan(lineNumber, dataStarted, samplingPeriod, rawTimeData, rawOutputData) == ScanRows(rows[..i], parse)
    {
      assert rows[..i + 1][..i] == rows[..i];
      match rows[i]
      case Unreadable =>
        lineNumber := lineNumber + 1;
      case Record(record) =>
        lineNumber := lineNumber + 1;
        if lineNumber <= PeriodLines && |record| >= 2 && Contains(Lower(record[0]), "sampling period") {
          var val := parse(record[1]);
          if val.Some? {
            samplingPeriod := val.value;
            continue;
          }
        }
        if |record| >= 2 && !dataStarted {
          var col1Lower := Lower(record[0]);
          var col2Lower := Lower(record[1]);
          if Contains(col1Lower, "tiempo") || Contains(col1Lower, "time") ||
             Contains(col2Lower, "salida") || Contains(col2Lower, "output") {
            continue;
          }
        }
        if |record| >= 2 {
          var timeVal := parse(record[0]);
          if timeVal.Some? {
            var outputVal := parse(record[1]);
            if outputVal.Some? {
              rawTimeData := rawTimeData + [timeVal.value];
              rawOutputData := rawOutputData + [outputVal.value];
              dataStarted := true;
            }
          }
        }
    }
    assert rows[..|rows|] == rows;
    if |rawTimeData| >= 2 && samplingPeriod == DefaultPeriod {
      var calculatedPeriod := Abs(rawTimeData[1] - rawTimeData[0]);
      if calculatedPeriod > 0.0 && calculatedPeriod < 1.0 {
        samplingPeriod := calculatedPeriod;
      }
    }
    if |rawTimeData| == 0 || |rawOutputData| == 0 {
      return Failure(EmptyDataset);
    }
    r := Success(Series(samplingPeriod, rawTimeData, rawOutputData));
  }

  /** A record becomes a sample exactly when it is accepted, and then its
      two parsed cells are appended to the two lists together; any other
      row leaves both lists as they were. */
  lemma StepAppends(st: Scan, row: Row, parse: string -> Option<real>)
    ensures row.Record? && Accepted(st, row.cells, parse) ==>
      Step(st, row, parse).times == st.times + [parse(row.cells[0]).value] &&
      Step(st, row, parse).values == st.values + [parse(row.cells[1]).value]
    ensures !(row.Record? && Accepted(st, row.cells, parse)) ==>
      Step(st, row, parse).times == st.times && Step(st, row, parse).values == st.values
  {
  }

  /** Header rows are skipped only before the first sample: once data has
      started, every record whose two cells parse is a sample unless it is
      a sampling-period row. */
  lemma HeaderSkippedOnlyBeforeData(rows: seq<Row>, cells: seq<string>, parse: string -> Option<real>)
    requires |ScanRows(rows, parse).times| > 0
    requires IsDataRow(cells, parse)
    requires !IsPeriodRow(|rows| + 1, cells, parse)
    ensures ScanRows(rows + [Record(cells)], parse).times ==
      ScanRows(rows, parse).times + [parse(cells[0]).value]
  {
    assert (rows + [Record(cells)])[..|rows|] == rows;
  }

  /** `row` is a data row whose cells parse to the sample `(t, v)`. */
  predicate SampleRow(row: Row, parse: string -> Option<real>, t: real, v: real)
  {
    row.Record? && IsDataRow(row.cells, parse) &&
    parse(row.cells[0]).value == t && parse(row.cells[1]).value == v
  }

  /** Every sample comes from one data row, both coordinates together. */
  lemma {:induction false} SamplesFromRows(rows: seq<Row>, parse: string -> Option<real>, k: nat)
    requires k < |ScanRows(rows, parse).times|
    ensures exists i :: 0 <= i < |rows| && SampleRow(rows[i], parse,
      ScanRows(rows, parse).times[k], ScanRows(rows, parse).values[k])
  {
    var n := |rows| - 1;
    var prev := rows[..n];
    var before := ScanRows(prev, parse);
    var after := ScanRows(rows, parse);
    StepAppends(before, rows[n], parse);
    if k < |before.times| {
      SamplesFromRows(prev, parse, k);
      var i :| 0 <= i < |prev| && SampleRow(prev[i], parse, before.times[k], before.values[k]);
      assert prev[i] == rows[i];
    } else {
      assert SampleRow(rows[n], parse, after.times[k], after.values[k]);
    }
  }

  /** A "sampling period" row after line 10 changes nothing: the period is
      settled by the first ten lines. */
  lemma {:induction false} PeriodSettledEarly(rows: seq<Row>, parse: string -> Option<real>)
    requires |rows| >= PeriodLines
    ensures ScanRows(rows, parse).period == ScanRows(rows[..PeriodLines], parse).period
  {
    if |rows| > PeriodLines {
      var prev := rows[..|rows| - 1];
      PeriodSettledEarly(prev, parse);
      assert prev[..PeriodLines] == rows[..PeriodLines];
    } else {
      assert rows[..PeriodLines] == rows;
    }
  }

  /** Row `i` (line `i + 1`) is a sampling-period row whose value parses. */
  predicate PeriodRowAt(rows: seq<Row>, i: nat, parse: string -> Option<real>)
    requires i < |rows|
  {
    rows[i].Record? && IsPeriodRow(i + 1, rows[i].cells, parse)
  }

  /** Only a sampling-period row changes the period, and it sets it to
      its parsed second cell. */
  lemma StepPeriod(st: Scan, row: Row, parse: string -> Option<real>)
    ensures row.Record? && IsPeriodRow(st.line + 1, row.cells, parse) ==>
      Step(st, row, parse).period == parse(row.cells[1]).value
    ensures !(row.Record? && IsPeriodRow(st.line + 1, row.cells, parse)) ==>
      Step(st, row, parse).period == st.period
  {
  }

  /** The period is the default or the parsed second cell of a
      sampling-period row among the first ten lines. */
  lemma {:induction false} PeriodOrigin(rows: seq<Row>, parse: string -> Option<real>)
    ensures ScanRows(rows, parse).period == DefaultPeriod ||
      exists i :: 0 <= i < |rows| && i < PeriodLines && PeriodRowAt(rows, i, parse) &&
        parse(rows[i].cells[1]) == Some(ScanRows(rows, parse).period)
  {
    if |rows| > 0 {
      var n := |rows| - 1;
      var prev := rows[..n];
      PeriodOrigin(prev, parse);
      var before := ScanRows(prev, parse);
      StepPeriod(before, rows[n], parse);
      if PeriodRowAt(rows, n, parse) {
        assert parse(rows[n].cells[1]) == Some(ScanRows(rows, parse).period);
      } else if before.period != DefaultPeriod {
        var i :| 0 <= i < |prev| && i < PeriodLines && PeriodRowAt(prev, i, parse) &&
          parse(prev[i].cells[1]) == Some(before.period);
        assert prev[i] == rows[i];
        assert PeriodRowAt(rows, i, parse);
      }
    }
  }

  /** The last sampling-period row among the first ten lines sets the
      period: later rows, of any kind, leave it alone. */
  lemma {:induction false} LastPeriodRowWins(rows: seq<Row>, parse: string -> Option<real>, i: nat)
    requires i < |rows| && PeriodRowAt(rows, i, parse)
    requires forall j :: i < j < |rows| ==> !PeriodRowAt(rows, j, parse)
    ensures i < PeriodLines
    ensures ScanRows(rows, parse).period == parse(rows[i].cells[1]).value
  {
    var n := |rows| - 1;
    var prev := rows[..n];
    assert ScanRows(rows, parse) == Step(ScanRows(prev, parse), rows[n], parse);
    StepPeriod(ScanRows(prev, parse), rows[n], parse);
    if i < n {
      forall j | i < j < |prev|
        ensures !PeriodRowAt(prev, j, parse)
      {
        assert prev[j] == rows[j] && !PeriodRowAt(rows, j, parse);
      }
      assert prev[i] == rows[i];
      LastPeriodRowWins(prev, parse, i);
      assert !PeriodRowAt(rows, n, parse);
    }
  }

  /** Without a sampling-period row among the first ten lines the period
      keeps its 0.001 default. */
  lemma {:induction false} NoPeriodRowDefault(rows: seq<Row>, parse: string -> Option<real>)
    requires forall j :: 0 <= j < |rows| ==> !PeriodRowAt(rows, j, parse)
    ensures ScanRows(rows, parse).period == DefaultPeriod
  {
    if |rows| > 0 {
      var n := |rows| - 1;
      var prev := rows[..n];
      assert ScanRows(rows, parse) == Step(ScanRows(prev, parse), rows[n], parse);
      StepPeriod(ScanRows(prev, parse), rows[n], parse);
      forall j | 0 <= j < |prev|
        ensures !PeriodRowAt(prev, j, parse)
      {
        assert prev[j] == rows[j] && !PeriodRowAt(rows, j, parse);
      }
      NoPeriodRowDefault(prev, parse);
      assert !PeriodRowAt(rows, n, parse);
    }
  }
}
