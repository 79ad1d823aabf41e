// report_service.py: the key under which rendered reports are cached
// (`get_cached_report` and `cache_report`, lines 21-62), the row
// `record_report_generation` writes and reads back (lines 64-169), and the
// metadata `get_user_reports` builds from the rows (lines 189-218). sha256 and
// `json.dumps` are functions passed in; the digest is over the dump of the
// document with every object's keys sorted.
module ReportService {
  import opened Wrappers
  import opened PyStr
  import opened Seqs
  import opened JsonModel
  import opened CacheStore
  import opened Tables
  import Sorting
  import DnaService
  import AnalysisStore

  type Payload = DnaService.Payload

  /** `f"{report_type}_{sha256(json.dumps(report_data, sort_keys=True).encode()).hexdigest()}"`. */
  function ReportKey(data: Json, reportType: string, dumps: Json -> string, sha: string -> string): (k: string)
    ensures |k| == |reportType| + 1 + |sha(SortedDump(data, dumps))|
    ensures k[..|reportType|] == reportType && k[|reportType|] == '_'
    ensures k[|reportType| + 1..] == sha(SortedDump(data, dumps))
  {
    reportType + "_" + sha(SortedDump(data, dumps))
  }

  /** The bytes `load_from_cache(key, format_type='pdf')` hands back. */
  function PdfOf(v: Option<Value<Payload>>): Option<Bytes> {
    if v.Some? && v.value.Blob? then Some(v.value.bytes) else None
  }

  /** What `get_cached_report(report_data, report_type)` returns on a directory. */
  function CachedPdf(dir: Dir, codec: Codec<Payload>, data: Json, reportType: string,
                     dumps: Json -> string, sha: string -> string, now: int): Option<Bytes> {
    PdfOf(Loaded(dir, codec, ReportKey(data, reportType, dumps, sha), "pdf", now))
  }

  /** `ReportService.get_cached_report`. */
  method GetCachedReport(store: Store<Payload>, data: Json, reportType: string,
                         dumps: Json -> string, sha: string -> string, now: int) returns (pdf: Option<Bytes>)
    modifies store
    ensures pdf == CachedPdf(old(store.files), store.codec, data, reportType, dumps, sha, now)
    ensures store.files == AfterLoad(old(store.files), store.codec, ReportKey(data, reportType, dumps, sha), "pdf", now)
  {
    var key := reportType + "_" + sha(dumps(Canonical(data)));
    var v := store.Load(key, "pdf", now);
    pdf := PdfOf(v);
  }

  /** `ReportService.cache_report`: the bytes saved raw under the report key. */
  method CacheReport(store: Store<Payload>, data: Json, pdf: Bytes, reportType: string,
                     dumps: Json -> string, sha: string -> string, now: int, stamp: string)
    modifies store
    ensures store.files == Saved(old(store.files), store.codec, Blob(pdf), ReportKey(data, reportType, dumps, sha), "pdf", now, stamp)
  {
    var key := reportType + "_" + sha(dumps(Canonical(data)));
    store.Save(Blob(pdf), key, "pdf", now, stamp);
  }

  ghost predicate Injective<A(!new), B>(f: A -> B) {
    forall a, b :: f(a) == f(b) ==> a == b
  }

  /**
   * A cached report comes back for the same data and type until it expires;
   * raw bytes need no decoding, so this holds whatever the pickle codec does.
   */
  lemma ReportCacheRoundTrip(dir: Dir, codec: Codec<Payload>, data: Json, pdf: Bytes, reportType: string,
                             dumps: Json -> string, sha: string -> string, saved: int, now: int, stamp: string)
    requires now - saved <= CacheExpiry
    ensures var d := Saved(dir, codec, Blob(pdf), ReportKey(data, reportType, dumps, sha), "pdf", saved, stamp);
            CachedPdf(d, codec, data, reportType, dumps, sha, now) == Some(pdf)
  {
  }

  /** Two report types never share a key, since every hex digest has 64 characters. */
  lemma ReportTypesSeparate(data: Json, t1: string, t2: string, dumps: Json -> string, sha: string -> string)
    requires t1 != t2
    requires forall s :: |sha(s)| == 64
    ensures ReportKey(data, t1, dumps, sha) != ReportKey(data, t2, dumps, sha)
  {
    var k1, k2 := ReportKey(data, t1, dumps, sha), ReportKey(data, t2, dumps, sha);
    assert |k1| == |t1| + 65 && |k2| == |t2| + 65;
    if |t1| == |t2| {
      assert k1[..|t1|] == t1 && k2[..|t2|] == t2;
    }
  }

  /** Dicts with the same items in another insertion order share a key. */
  lemma ReportKeyIgnoresOrder(ms1: seq<Member>, ms2: seq<Member>, reportType: string,
                              dumps: Json -> string, sha: string -> string)
    requires DistinctKeys(ms1) && DistinctKeys(ms2)
    requires forall p :: p in ms1 <==> p in ms2
    ensures ReportKey(JObj(ms1), reportType, dumps, sha) == ReportKey(JObj(ms2), reportType, dumps, sha)
  {
    SameItemsSameCanonical(ms1, ms2);
  }

  /** With injective dump and digest, documents that differ after sorting their keys get different keys. */
  lemma ReportKeySeparatesData(d1: Json, d2: Json, reportType: string, dumps: Json -> string, sha: string -> string)
    requires Injective(dumps) && Injective(sha)
    requires Canonical(d1) != Canonical(d2)
    ensures ReportKey(d1, reportType, dumps, sha) != ReportKey(d2, reportType, dumps, sha)
  {
    var k1, k2 := ReportKey(d1, reportType, dumps, sha), ReportKey(d2, reportType, dumps, sha);
    assert k1[|reportType| + 1..] == sha(SortedDump(d1, dumps));
    assert k2[|reportType| + 1..] == sha(SortedDump(d2, dumps));
  }

  // ---------------------------------------------------------------------------
  // record_report_generation
  // ---------------------------------------------------------------------------

  datatype RecordFailure = InsertRaised | ReadBackRaised

  /** What one call returns and the `reports` table it leaves. */
  datatype Generation = Generation(result: Result<ReportRow, RecordFailure>, rows: seq<ReportRow>)

  /**
   * The `analyses.id` of the analysis named by `analysisId`, when one is
   * given, the lookup does not raise (`lookupOk`) and a row is found.
   */
  function LinkedAnalysis(analyses: seq<AnalysisRow>, analysisId: Option<string>, lookupOk: bool): Option<nat> {
    if analysisId.Some? && analysisId.value != [] && lookupOk then
      var row := AnalysisStore.AnalysisById(analyses, analysisId.value);
      if row.Some? then Some(row.value.id) else None
    else None
  }

  predicate HasReportId(id: string, row: ReportRow) {
    row.reportId == id
  }

  /**
   * `record_report_generation`: the insert is committed before the row is
   * read back by its `report_id`, so a failing read raises with the row already
   * stored; a failing insert raises with the table unchanged.
   */
  function Generated(analyses: seq<AnalysisRow>, reports: seq<ReportRow>, reportId: string, reportType: string,
                     reportPath: string, fileHash: Option<string>, analysisId: Option<string>, userId: Option<int>,
                     now: int, lookupOk: bool, insertOk: bool, readOk: bool): (g: Generation)
    ensures g.result.Err? && g.rows == reports ==> g.result.error == InsertRaised
  {
    if !insertOk then Generation(Err(InsertRaised), reports)
    else
      var row := ReportRow(NextId(reports), reportId, userId, LinkedAnalysis(analyses, analysisId, lookupOk),
                           fileHash, reportType, reportPath, now, false);
      var rows := reports + [row];
      if !readOk then Generation(Err(ReadBackRaised), rows)
      else
        var found := First(rows, r => HasReportId(reportId, r));
        assert HasReportId(reportId, rows[|reports|]);
        Generation(Ok(found.value), rows)
  }

  /** `ReportService.record_report_generation`; the flags say which statements succeed. */
  method RecordReportGeneration(db: Database, reportId: string, reportType: string, reportPath: string,
                                fileHash: Option<string>, analysisId: Option<string>, userId: Option<int>,
                                now: int, lookupOk: bool, insertOk: bool, readOk: bool)
    returns (r: Result<ReportRow, RecordFailure>)
    modifies db
    ensures var g := Generated(old(db.analyses), old(db.reports), reportId, reportType, reportPath, fileHash,
                               analysisId, userId, now, lookupOk, insertOk, readOk);
            r == g.result && db.reports == g.rows
    ensures db.analyses == old(db.analyses)
  {
    var linked: Option<nat> := None;
    if analysisId.Some? && analysisId.value != [] && lookupOk {
      var row := AnalysisStore.AnalysisById(db.analyses, analysisId.value);
      if row.Some? {
        linked := Some(row.value.id);
      }
    }
    if !insertOk {
      return Err(InsertRaised);
    }
    var newRow := ReportRow(NextId(db.reports), reportId, userId, linked, fileHash, reportType, reportPath, now, false);
    db.reports := db.reports + [newRow];
    if !readOk {
      return Err(ReadBackRaised);
    }
    var found := First(db.reports, row => HasReportId(reportId, row));
    assert HasReportId(reportId, db.reports[|db.reports| - 1]);
    return Ok(found.value);
  }

  /**
   * With a fresh `report_id` the row read back is the one just inserted, not
   * cached, linked to the analysis the id names; a failed read-back still
   * leaves that row in the table.
   */
  lemma GeneratedRow(analyses: seq<AnalysisRow>, reports: seq<ReportRow>, reportId: string, reportType: string,
                     reportPath: string, fileHash: Option<string>, analysisId: Option<string>, userId: Option<int>,
                     now: int, lookupOk: bool, insertOk: bool, readOk: bool)
    requires First(reports, r => HasReportId(reportId, r)).None?
    ensures var g := Generated(analyses, reports, reportId, reportType, reportPath, fileHash, analysisId, userId,
                               now, lookupOk, insertOk, readOk);
            var row := ReportRow(NextId(reports), reportId, userId, LinkedAnalysis(analyses, analysisId, lookupOk),
                                 fileHash, reportType, reportPath, now, false);
            (insertOk ==> g.rows == reports + [row]) &&
            (insertOk && readOk ==> g.result == Ok(row)) &&
            (insertOk && !readOk ==> g.result == Err(ReadBackRaised)) &&
            (!insertOk ==> g == Generation(Err(InsertRaised), reports))
  {
    var row := ReportRow(NextId(reports), reportId, userId, LinkedAnalysis(analyses, analysisId, lookupOk),
                         fileHash, reportType, reportPath, now, false);
    FirstAfterAppend(reports, row, r => HasReportId(reportId, r));
  }

  // ---------------------------------------------------------------------------
  // get_user_reports
  // ---------------------------------------------------------------------------

  datatype ReportMetadata = ReportMetadata(reportId: string, createdAt: int, reportType: string,
                                           fileHash: Option<string>, analysisId: Option<string>, downloadUrl: string)

  /** `f"/api/v1/reports/{report_id}/download"`. */
  function DownloadUrl(reportId: string): string {
    "/api/v1/reports/" + reportId + "/download"
  }

  /** One item: `analysis_id` is `str(...)` of the stored id when that is truthy. */
  function MetadataOfRow(row: ReportRow): ReportMetadata {
    ReportMetadata(row.reportId, row.createdAt, row.reportType, row.fileHash,
                   if row.analysisId.Some? && row.analysisId.value != 0 then Some(DecimalString(row.analysisId.value)) else None,
                   DownloadUrl(row.reportId))
  }

  /** `ORDER BY created_at DESC`. */
  predicate NewerReport(a: ReportRow, b: ReportRow) {
    a.createdAt > b.createdAt
  }

  predicate OwnedBy(userId: int, row: ReportRow) {
    row.userId == Some(userId)
  }

  /** `get_user_reports(user_id)`: the user's rows, newest first, as metadata. */
  function UserReports(rows: seq<ReportRow>, userId: int): seq<ReportMetadata> {
    Map(Sorting.StableSort(Filter(rows, r => OwnedBy(userId, r)), NewerReport), MetadataOfRow)
  }

  lemma NewerReportIsStrictWeak()
    ensures Sorting.StrictWeak(NewerReport)
  {
  }

  /**
   * The listing has one item per row of the user, each made from such a row,
   * newest first; its download URL names the report, and its analysis id
   * reads back as the stored id.
   */
  lemma UserReportsSpec(rows: seq<ReportRow>, userId: int)
    ensures var r := UserReports(rows, userId);
            |r| == CountIf(rows, row => OwnedBy(userId, row)) &&
            (forall i :: 0 <= i < |r| ==>
               (exists row :: row in rows && row.userId == Some(userId) && r[i] == MetadataOfRow(row)) &&
               r[i].downloadUrl == DownloadUrl(r[i].reportId)) &&
            (forall i, j :: 0 <= i < j < |r| ==> r[i].createdAt >= r[j].createdAt)
  {
    var mine := Filter(rows, row => OwnedBy(userId, row));
    var sorted := Sorting.StableSort(mine, NewerReport);
    NewerReportIsStrictWeak();
    Sorting.StableSortSorted(mine, NewerReport);
    assert |sorted| == |multiset(sorted)| == |multiset(mine)| == |mine|;
    OwnedRowsListed(rows, userId, sorted);
  }

  /** Each row of a reordering of the user's rows is one of the user's rows. */
  lemma OwnedRowsListed(rows: seq<ReportRow>, userId: int, sorted: seq<ReportRow>)
    requires multiset(sorted) == multiset(Filter(rows, row => OwnedBy(userId, row)))
    ensures forall i :: 0 <= i < |sorted| ==>
              exists row :: row in rows && row.userId == Some(userId) && MetadataOfRow(sorted[i]) == MetadataOfRow(row)
  {
    var mine := Filter(rows, row => OwnedBy(userId, row));
    forall i | 0 <= i < |sorted|
      ensures exists row :: row in rows && row.userId == Some(userId) && MetadataOfRow(sorted[i]) == MetadataOfRow(row)
    {
      assert sorted[i] in multiset(sorted);
      assert sorted[i] in multiset(mine);
      var k :| 0 <= k < |mine| && mine[k] == sorted[i];
      assert mine[k] in rows && OwnedBy(userId, mine[k]);
    }
  }

  /** The analysis id of a listed report is the decimal form of the stored id. */
  lemma ListedAnalysisId(row: ReportRow)
    ensures MetadataOfRow(row).analysisId.Some? <==> row.analysisId.Some? && row.analysisId.value != 0
    ensures MetadataOfRow(row).analysisId.Some? ==> DecimalValue(MetadataOfRow(row).analysisId.value) == row.analysisId.value
  {
    if row.analysisId.Some? {
      DecimalRoundTrip(row.analysisId.value);
    }
  }

  /** A report recorded without a user leaves every user's listing as it was. */
  lemma AnonymousReportUnlisted(rows: seq<ReportRow>, row: ReportRow, userId: int)
    requires row.userId.None?
    ensures UserReports(rows + [row], userId) == UserReports(rows, userId)
  {
    FilterAppend(rows, [row], r => OwnedBy(userId, r));
    assert Filter([row], r => OwnedBy(userId, r)) == [];
    assert Filter(rows, r => OwnedBy(userId, r)) + [] == Filter(rows, r => OwnedBy(userId, r));
  }
}
