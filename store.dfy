/** The result writer at the end of processAnalysisRequest (analysis.go):
    one database transaction that marks the document's earlier results as
    no longer latest, inserts the new result as latest, and marks the
    analysis request processed, committing only when every step succeeds.
    The database is two tables held by a `ResultStore`; which step (if
    any) the database refuses is a parameter. */
module Store {
  import opened Common
  import opened Poles
  import opened Report

  /** A row of `analysis_requests`. */
  datatype Request = Request(documentId: nat, processed: bool)

  /** What an analysis stores besides its request and its latest flag. */
  datatype Analysis = Analysis(systemType: SystemType, description: string, poles: seq<Pole>,
                               rawData: RawData, graphTime: seq<real>, graphOutput: seq<real>,
                               summary: map<string, Json>,
                               mlType: Option<int>, mlPoles: Option<RawPoles>)

  /** A row of `results`. */
  datatype ResultRow = ResultRow(requestId: nat, analysis: Analysis, isLatest: bool)

  /** The step of the transaction the database refuses, if any. */
  datatype Fault = NoFault | FailSupersede | FailInsert | FailMarkProcessed | FailCommit

  /** The row belongs to an analysis request of document `doc`. */
  predicate BelongsTo(requests: map<nat, Request>, doc: nat, row: ResultRow)
  {
    row.requestId in requests && requests[row.requestId].documentId == doc
  }

  /** `UPDATE results SET is_latest = false` for the rows of `doc`. */
  function Supersede(requests: map<nat, Request>, rows: seq<ResultRow>, doc: nat): (r: seq<ResultRow>)
    ensures |r| == |rows|
    ensures forall i :: 0 <= i < |r| ==>
      r[i] == (if BelongsTo(requests, doc, rows[i]) then rows[i].(isLatest := false) else rows[i])
  {
    seq(|rows|, i requires 0 <= i < |rows| =>
      if BelongsTo(requests, doc, rows[i]) then rows[i].(isLatest := false) else rows[i])
  }

  /** `UPDATE analysis_requests SET is_processed = true WHERE id = id`;
      no row changes when there is no such request. */
  function MarkProcessed(requests: map<nat, Request>, id: nat): (r: map<nat, Request>)
  {
    if id in requests then requests[id := requests[id].(processed := true)] else requests
  }

  /** The rows after a committed write. */
  function CommittedRows(requests: map<nat, Request>, rows: seq<ResultRow>, doc: nat, id: nat,
                         a: Analysis): seq<ResultRow>
  {
    Supersede(requests, rows, doc) + [ResultRow(id, a, true)]
  }

  /** Both rows belong to requests of the same document. */
  predicate SameDocument(requests: map<nat, Request>, r: ResultRow, s: ResultRow)
  {
    r.requestId in requests && s.requestId in requests &&
    requests[r.requestId].documentId == requests[s.requestId].documentId
  }

  /** At most one latest result per document. */
  predicate OneLatestPerDocument(requests: map<nat, Request>, rows: seq<ResultRow>)
  {
    forall i, j ::
      (0 <= i < |rows| && 0 <= j < |rows| && rows[i].isLatest && rows[j].isLatest &&
       SameDocument(requests, rows[i], rows[j])) ==> i == j
  }

  /** After a committed write for request `id` of document `doc`, the new
      row is the document's only latest result, every earlier row of the
      document is no longer latest, and rows of other documents are
      untouched. */
  lemma CommitMakesLatest(requests: map<nat, Request>, rows: seq<ResultRow>, doc: nat, id: nat, a: Analysis)
    requires id in requests && requests[id].documentId == doc
    ensures var requests' := MarkProcessed(requests, id);
      var rows' := CommittedRows(requests, rows, doc, id, a);
      |rows'| == |rows| + 1 &&
      rows'[|rows|] == ResultRow(id, a, true) && BelongsTo(requests', doc, rows'[|rows|]) &&
      (forall i :: 0 <= i < |rows| && BelongsTo(requests', doc, rows'[i]) ==> !rows'[i].isLatest) &&
      (forall i :: 0 <= i < |rows| && !BelongsTo(requests, doc, rows[i]) ==> rows'[i] == rows[i]) &&
      (forall i :: 0 <= i < |rows| ==> rows'[i].(isLatest := rows[i].isLatest) == rows[i])
  {
    var rows' := CommittedRows(requests, rows, doc, id, a);
    forall i | 0 <= i < |rows|
      ensures rows'[i] == Supersede(requests, rows, doc)[i]
    {
    }
  }

  /** Marking a request processed sets its flag and changes nothing else:
      no document of any request, and no other request. */
  lemma MarkProcessedEffect(requests: map<nat, Request>, id: nat)
    ensures var r := MarkProcessed(requests, id);
      r.Keys == requests.Keys &&
      (id in requests ==> r[id].processed) &&
      (forall k :: k in requests ==> r[k].documentId == requests[k].documentId) &&
      (forall k :: k in requests && k != id ==> r[k] == requests[k])
  {
  }

  /** A row belongs to the same document before and after a request is
      marked processed. */
  lemma BelongsToStable(requests: map<nat, Request>, id: nat, doc: nat, row: ResultRow)
    ensures BelongsTo(MarkProcessed(requests, id), doc, row) <==> BelongsTo(requests, doc, row)
  {
  }

  /** A committed write keeps at most one latest result per document. */
  lemma CommitKeepsOneLatest(requests: map<nat, Request>, rows: seq<ResultRow>, doc: nat, id: nat, a: Analysis)
    requires OneLatestPerDocument(requests, rows)
    requires id in requests ==> requests[id].documentId == doc
    ensures OneLatestPerDocument(MarkProcessed(requests, id), CommittedRows(requests, rows, doc, id, a))
  {
    var requests' := MarkProcessed(requests, id);
    var rows' := CommittedRows(requests, rows, doc, id, a);
    var s := Supersede(requests, rows, doc);
    forall i, j |
      0 <= i < |rows'| && 0 <= j < |rows'| && rows'[i].isLatest && rows'[j].isLatest &&
      SameDocument(requests', rows'[i], rows'[j])
      ensures i == j
    {
      assert SameDocument(requests, rows'[i], rows'[j]);
      if i < |rows| && j < |rows| {
        assert rows'[i] == s[i] && rows'[j] == s[j];
        assert rows[i].isLatest && rows[j].isLatest;
      }
    }
  }

  /** The `analysis_requests` and `results` tables. */
  class ResultStore {
    var requests: map<nat, Request>
    var results: seq<ResultRow>

    /** The tables of a database that already keeps one latest result
        per document. */
    constructor (requests: map<nat, Request>, results: seq<ResultRow>)
      requires OneLatestPerDocument(requests, results)
      ensures this.requests == requests && this.results == results
      ensures Valid()
    {
      this.requests := requests;
      this.results := results;
    }

    ghost predicate Valid()
      reads this
    {
      OneLatestPerDocument(requests, results)
    }

    /** The transaction: each step works on the transaction's view of the
        tables; a refused step rolls back, and only a successful commit
        makes the view the tables' new contents. */
    method Write(documentId: nat, analysisId: nat, a: Analysis, fault: Fault) returns (committed: bool)
      modifies this
      ensures committed <==> fault == NoFault
      ensures committed ==>
        requests == MarkProcessed(old(requests), analysisId) &&
        results == CommittedRows(old(requests), old(results), documentId, analysisId, a)
      ensures !committed ==> requests == old(requests) && results == old(results)
      ensures old(Valid()) && (analysisId in old(requests) ==> old(requests)[analysisId].documentId == documentId)
        ==> Valid()
    {
      var rows := results;
      var requestRows := requests;
      if fault == FailSupersede {
        return false;
      }
      rows := Supersede(requestRows, rows, documentId);
      if fault == FailInsert {
        return false;
      }
      rows := rows + [ResultRow(analysisId, a, true)];
      if fault == FailMarkProcessed {
        return false;
      }
      requestRows := MarkProcessed(requestRows, analysisId);
      if fault == FailCommit {
        return false;
      }
      if Valid() && (analysisId in requests ==> requests[analysisId].documentId == documentId) {
        CommitKeepsOneLatest(requests, results, documentId, analysisId, a);
      }
      requests, results := requestRows, rows;
      return true;
    }
  }
}
