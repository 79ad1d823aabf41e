// The two database tables the services write: `analyses` (one row per
// recorded analysis) and `reports` (one row per generated report). A table is
// the sequence of its rows in insertion order; a query that the services end
// with `result.first()` takes the first row that satisfies its WHERE clause.
module Tables {
  import opened Wrappers
  import opened JsonModel

  /**
   * A row of `analyses`: `id` is the serial primary key, `analysisId` the uuid
   * handed out by the API, `data` the stored report (`JNull` when the column
   * is NULL), `createdAt` absent when the insert left it to the column default.
   */
  datatype AnalysisRow = AnalysisRow(id: nat, analysisId: string, fileHash: Option<string>, data: Json,
                                     createdAt: Option<int>, status: string)

  /** A row of `reports`; `analysisId` refers to `analyses.id`. */
  datatype ReportRow = ReportRow(id: nat, reportId: string, userId: Option<int>, analysisId: Option<nat>,
                                 fileHash: Option<string>, reportType: string, reportPath: string,
                                 createdAt: int, isCached: bool)

  /** The application database, as far as the services write to it. */
  class Database {
    var analyses: seq<AnalysisRow>
    var reports: seq<ReportRow>
  }

  /** `SELECT ... WHERE p LIMIT 1` in table order: the first row satisfying `p`. */
  function First<T>(rows: seq<T>, p: T -> bool): (r: Option<T>)
    ensures r.None? <==> forall i :: 0 <= i < |rows| ==> !p(rows[i])
    ensures r.Some? ==> exists i :: 0 <= i < |rows| && rows[i] == r.value && p(r.value) &&
                                    forall j :: 0 <= j < i ==> !p(rows[j])
  {
    if rows == [] then None
    else if p(rows[0]) then Some(rows[0])
    else
      var r := First(rows[1..], p);
      assert forall i :: 1 <= i < |rows| ==> rows[i] == rows[1..][i - 1];
      if r.Some? then
        ghost var k :| 0 <= k < |rows[1..]| && rows[1..][k] == r.value && p(r.value) &&
                       forall j :: 0 <= j < k ==> !p(rows[1..][j]);
        assert rows[k + 1] == r.value;
        r
      else r
  }

  /** A row appended to a table is found by a first-row query when no older row matches. */
  lemma {:induction false} FirstAfterAppend<T>(rows: seq<T>, row: T, p: T -> bool)
    requires First(rows, p).None? && p(row)
    ensures First(rows + [row], p) == Some(row)
  {
    if rows != [] {
      assert (rows + [row])[1..] == rows[1..] + [row];
      assert !p(rows[0]);
      FirstAfterAppend(rows[1..], row, p);
    }
  }

  /** Appending a row that does not match leaves the answer of a first-row query unchanged. */
  lemma {:induction false} FirstAfterOther<T>(rows: seq<T>, row: T, p: T -> bool)
    requires !p(row)
    ensures First(rows + [row], p) == First(rows, p)
  {
    if rows != [] {
      assert (rows + [row])[1..] == rows[1..] + [row];
      FirstAfterOther(rows[1..], row, p);
    }
  }

  /** The serial id the next inserted row receives. */
  function NextId<T>(rows: seq<T>): nat {
    |rows| + 1
  }
}
