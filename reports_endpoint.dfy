// `generate_report` of endpoints/reports.py (lines 24-130): the report data
// comes from the analysis cache, from a fresh analysis of the SNPs found by
// hash, or from the `analyses` row an id names; a rendered PDF cached for that
// data and report type is copied to the report file, otherwise the renderer
// the type selects writes it and the bytes are cached; a `reports` row is
// recorded last. The two renderers are functions passed in (`None` when they
// raise), as are the clock, the uuid, json.dumps and sha256.
module ReportsEndpoint {
  import opened Wrappers
  import opened JsonModel
  import opened CacheStore
  import opened Tables
  import opened DnaParse
  import Reference
  import Matching
  import DnaService
  import CacheService
  import AnalysisStore
  import ReportService

  type Payload = DnaService.Payload

  /** The request body: `file_hash`, `analysis_id` and `report_type`. */
  datatype ReportRequest = ReportRequest(fileHash: Option<string>, analysisId: Option<string>, reportType: string)

  /** `request.file_hash` is truthy. */
  predicate HashGiven(req: ReportRequest) {
    req.fileHash.Some? && req.fileHash.value != ""
  }

  /** `request.analysis_id` is truthy. */
  predicate IdGiven(req: ReportRequest) {
    req.analysisId.Some? && req.analysisId.value != ""
  }

  datatype ReportResponse = ReportResponse(reportId: string, status: string, message: string, processingTime: int,
                                           downloadUrl: string, cached: bool)

  /** What was raised. */
  datatype Cause =
    | MissingInput                                   // neither input, raised before the try
    | NoDnaData(hash: string)                        // the 404 of the hash lookup
    | AnalysisNotFound(analysisId: string)           // the 404 of the id lookup
    | NotSerializable                                // `json.dumps` of cached bytes in `get_cached_report`
    | NotSnpList                                     // `process_snp_data` over a value that is not a list of SNP dicts
    | RenderFailed                                   // the selected renderer raised
    | RecordFailed(failure: ReportService.RecordFailure)

  datatype Failure = Failure(status: nat, cause: Cause)

  /** The outer `except Exception`: whatever is raised inside the try, a 404 included, becomes a 500. */
  function Raised(cause: Cause): Failure {
    Failure(500, cause)
  }

  /** A renderer writing the report for some data: the PDF bytes, or `None` when it raises. */
  type Renderer = Json -> Option<Bytes>

  /**
   * Everything the endpoint reads besides the cache, the report files and the
   * tables: what `process_snp_data` and the hash lookup use, the clock and ISO
   * stamp, the report uuid, `settings.REPORTS_DIR`, json.dumps and sha256, the
   * two renderers, whether each statement of `record_report_generation`
   * succeeds, and the elapsed time.
   */
  datatype Env = Env(reference: Reference.Db, summarize: Matching.Summarizer,
                     uploads: seq<DnaService.Upload>, uploadsCache: seq<DnaService.Upload>,
                     recorded: Option<DnaService.DnaFile>, now: int, stamp: string,
                     reportId: string, reportsDir: string, dumps: Json -> string, sha: string -> string,
                     renderPdf: Renderer, renderMarkdown: Renderer,
                     lookupOk: bool, insertOk: bool, readOk: bool, elapsed: int)

  /** `os.path.join(settings.REPORTS_DIR, f"report_{report_id}.pdf")`. */
  function ReportPath(reportsDir: string, reportId: string): string {
    reportsDir + "/report_" + reportId + ".pdf"
  }

  /** The report files, by path. */
  type Files = map<string, Bytes>

  /** The answer and the cache directory, report files and `reports` rows it leaves. */
  datatype Outcome = Outcome(result: Result<ReportResponse, Failure>, dir: Dir, files: Files, rows: seq<ReportRow>)

  /** The report data the first half of the endpoint settles on, and the cache directory it leaves. */
  datatype Sourced = Sourced(data: Result<Json, Cause>, dir: Dir)

  /**
   * Lines 52-84: with a hash, a truthy cached analysis, or else a fresh
   * analysis of the SNPs found by hash, which is cached; without one, the
   * `data` of the analysis row with that id.
   */
  function ReportData(dir: Dir, codec: Codec<Payload>, analyses: seq<AnalysisRow>, req: ReportRequest, env: Env): (s: Sourced)
    requires HashGiven(req) || IdGiven(req)
    ensures !HashGiven(req) ==> s.dir == dir
  {
    if HashGiven(req) then
      var hash := req.fileHash.value;
      var key := CacheService.AnalysisKey(hash);
      var cached := Loaded(dir, codec, key, "json", env.now);
      var afterLoad := AfterLoad(dir, codec, key, "json", env.now);
      if cached.Some? && AnalysisStore.ValueTruthy(cached.value) then
        var doc := AnalysisStore.PayloadJson(cached.value);
        Sourced(if doc.Some? then Ok(doc.value) else Err(NotSerializable), afterLoad)
      else
        var found := DnaService.ByHash(afterLoad, codec, hash, env.uploads, env.uploadsCache, env.recorded, env.now, env.stamp);
        if found.data.None? || !AnalysisStore.ValueTruthy(found.data.value) then Sourced(Err(NoDnaData(hash)), found.dir)
        else if found.data.value.Blob? || !found.data.value.d.Records? then Sourced(Err(NotSnpList), found.dir)
        else
          var report := Matching.ServiceReport(env.reference, found.data.value.d.snps, env.summarize);
          Sourced(Ok(AnalysisStore.ReportJson(report)),
                  Saved(found.dir, codec, Value.Data(DnaService.Analyzed(report)), key, "json", env.now, env.stamp))
    else
      var row := AnalysisStore.AnalysisById(analyses, req.analysisId.value);
      if row.None? then Sourced(Err(AnalysisNotFound(req.analysisId.value)), dir)
      else Sourced(Ok(row.value.data), dir)
  }

  /** Lines 107-126: the `reports` row is recorded; the response names the report and its download URL. */
  function Finished(dir: Dir, files: Files, analyses: seq<AnalysisRow>, rows: seq<ReportRow>, req: ReportRequest,
                    env: Env, cached: bool): (o: Outcome)
    ensures o.dir == dir && o.files == files
    ensures o.result.Err? ==> o.result.error.status == 500
    ensures o.result.Ok? ==> o.result.value.cached == cached && o.result.value.reportId == env.reportId &&
                             o.result.value.downloadUrl == ReportService.DownloadUrl(env.reportId)
  {
    var g := ReportService.Generated(analyses, rows, env.reportId, req.reportType, ReportPath(env.reportsDir, env.reportId),
                                     req.fileHash, req.analysisId, None, env.now, env.lookupOk, env.insertOk, env.readOk);
    if g.result.Err? then Outcome(Err(Raised(RecordFailed(g.result.error))), dir, files, g.rows)
    else Outcome(Ok(ReportResponse(env.reportId, "success", "Report generated successfully", env.elapsed,
                                   ReportService.DownloadUrl(env.reportId), cached)), dir, files, g.rows)
  }

  /** The renderer `report_type` selects: "markdown" for the markdown one, anything else for the standard one. */
  function Selected(reportType: string, env: Env): Renderer {
    if reportType == "markdown" then env.renderMarkdown else env.renderPdf
  }

  /** Whether the PDF came from the cache (or what the renderer raised), with the cache directory and files left. */
  datatype Written = Written(cached: Result<bool, Cause>, dir: Dir, files: Files)

  /**
   * Lines 86-105 for the settled data: a cached PDF is copied to the report
   * path; otherwise the selected renderer writes the file and its bytes are
   * cached under the same data and type.
   */
  function Produced(dir: Dir, codec: Codec<Payload>, files: Files, req: ReportRequest, env: Env, data: Json): (w: Written)
    ensures w.cached.Err? ==> w.cached.error == RenderFailed && w.files == files
    ensures w.cached.Ok? ==> ReportPath(env.reportsDir, env.reportId) in w.files
  {
    var key := ReportService.ReportKey(data, req.reportType, env.dumps, env.sha);
    var path := ReportPath(env.reportsDir, env.reportId);
    var pdf := ReportService.CachedPdf(dir, codec, data, req.reportType, env.dumps, env.sha, env.now);
    var afterLoad := AfterLoad(dir, codec, key, "pdf", env.now);
    if pdf.Some? then Written(Ok(true), afterLoad, files[path := pdf.value])
    else
      var out := Selected(req.reportType, env)(data);
      if out.None? then Written(Err(RenderFailed), afterLoad, files)
      else Written(Ok(false), Saved(afterLoad, codec, Blob(out.value), key, "pdf", env.now, env.stamp), files[path := out.value])
  }

  /** Lines 86-126 for the settled data. */
  function Rendered(dir: Dir, codec: Codec<Payload>, files: Files, analyses: seq<AnalysisRow>, rows: seq<ReportRow>,
                    req: ReportRequest, env: Env, data: Json): (o: Outcome)
    ensures o.result.Err? ==> o.result.error.status == 500
    ensures o.result.Ok? ==> o.result.value.reportId == env.reportId &&
                             o.result.value.downloadUrl == ReportService.DownloadUrl(env.reportId) &&
                             ReportPath(env.reportsDir, env.reportId) in o.files
  {
    var w := Produced(dir, codec, files, req, env, data);
    if w.cached.Err? then Outcome(Err(Raised(w.cached.error)), w.dir, w.files, rows)
    else Finished(w.dir, w.files, analyses, rows, req, env, w.cached.value)
  }

  /** `generate_report` on the cache directory, the report files and the two tables. */
  function Generated(dir: Dir, codec: Codec<Payload>, files: Files, analyses: seq<AnalysisRow>, rows: seq<ReportRow>,
                     req: ReportRequest, env: Env): Outcome {
    if !HashGiven(req) && !IdGiven(req) then Outcome(Err(Failure(400, MissingInput)), dir, files, rows)
    else
      var s := ReportData(dir, codec, analyses, req, env);
      if s.data.Err? then Outcome(Err(Raised(s.data.error)), s.dir, files, rows)
      else Rendered(s.dir, codec, files, analyses, rows, req, env, s.data.value)
  }

  /** The reports directory. */
  class ReportFiles {
    var files: Files

    constructor ()
      ensures files == map[]
    {
      files := map[];
    }

    /** `open(path, 'wb').write(bytes)`. */
    method Write(path: string, bytes: Bytes)
      modifies this
      ensures files == old(files)[path := bytes]
    {
      files := files[path := bytes];
    }
  }

  /** Lines 52-84. */
  method SettleReportData(store: Store<Payload>, db: Database, req: ReportRequest, env: Env) returns (data: Result<Json, Cause>)
    requires HashGiven(req) || IdGiven(req)
    modifies store
    ensures var s := ReportData(old(store.files), store.codec, db.analyses, req, env);
            data == s.data && store.files == s.dir
  {
    if HashGiven(req) {
      var hash := req.fileHash.value;
      var cached := AnalysisStore.GetCachedAnalysis(store, hash, env.now);
      if cached.Some? && AnalysisStore.ValueTruthy(cached.value) {
        var doc := AnalysisStore.PayloadJson(cached.value);
        if doc.None? {
          return Err(NotSerializable);
        }
        return Ok(doc.value);
      }
      var found := DnaService.GetSnpDataByHash(store, hash, env.uploads, env.uploadsCache, env.recorded, env.now, env.stamp);
      if found.None? || !AnalysisStore.ValueTruthy(found.value) {
        return Err(NoDnaData(hash));
      }
      if found.value.Blob? || !found.value.d.Records? {
        return Err(NotSnpList);
      }
      var report := Matching.ProcessSnpData(env.reference, found.value.d.snps, env.summarize);
      AnalysisStore.CacheAnalysisResults(store, hash, report, env.now, env.stamp);
      return Ok(AnalysisStore.ReportJson(report));
    }
    var row := AnalysisStore.AnalysisById(db.analyses, req.analysisId.value);
    if row.None? {
      return Err(AnalysisNotFound(req.analysisId.value));
    }
    return Ok(row.value.data);
  }

  /** Lines 86-105. */
  method ProducePdf(store: Store<Payload>, out: ReportFiles, req: ReportRequest, env: Env, data: Json)
    returns (cached: Result<bool, Cause>)
    modifies store, out
    ensures var w := Produced(old(store.files), store.codec, old(out.files), req, env, data);
            cached == w.cached && store.files == w.dir && out.files == w.files
  {
    var path := ReportPath(env.reportsDir, env.reportId);
    var pdf := ReportService.GetCachedReport(store, data, req.reportType, env.dumps, env.sha, env.now);
    if pdf.Some? {
      out.Write(path, pdf.value);
      return Ok(true);
    }
    var rendered: Option<Bytes>;
    if req.reportType == "markdown" {
      rendered := env.renderMarkdown(data);
    } else {
      rendered := env.renderPdf(data);
    }
    if rendered.None? {
      return Err(RenderFailed);
    }
    out.Write(path, rendered.value);
    ReportService.CacheReport(store, data, rendered.value, req.reportType, env.dumps, env.sha, env.now, env.stamp);
    return Ok(false);
  }

  /** Lines 86-126. */
  method RenderAndRecord(store: Store<Payload>, out: ReportFiles, db: Database, req: ReportRequest, env: Env, data: Json)
    returns (r: Result<ReportResponse, Failure>)
    modifies store, out, db
    ensures var o := Rendered(old(store.files), store.codec, old(out.files), old(db.analyses), old(db.reports), req, env, data);
            r == o.result && store.files == o.dir && out.files == o.files && db.reports == o.rows
    ensures db.analyses == old(db.analyses)
  {
    var cached := ProducePdf(store, out, req, env, data);
    if cached.Err? {
      return Err(Raised(cached.error));
    }
    var recorded := ReportService.RecordReportGeneration(db, env.reportId, req.reportType, ReportPath(env.reportsDir, env.reportId),
                                                         req.fileHash, req.analysisId, None, env.now, env.lookupOk, env.insertOk, env.readOk);
    if recorded.Err? {
      return Err(Raised(RecordFailed(recorded.error)));
    }
    return Ok(ReportResponse(env.reportId, "success", "Report generated successfully", env.elapsed,
                             ReportService.DownloadUrl(env.reportId), cached.value));
  }

  /** `generate_report`. */
  method GenerateReport(store: Store<Payload>, out: ReportFiles, db: Database, req: ReportRequest, env: Env)
    returns (r: Result<ReportResponse, Failure>)
    modifies store, out, db
    ensures var o := Generated(old(store.files), store.codec, old(out.files), old(db.analyses), old(db.reports), req, env);
            r == o.result && store.files == o.dir && out.files == o.files && db.reports == o.rows
    ensures db.analyses == old(db.analyses)
  {
    if !HashGiven(req) && !IdGiven(req) {
      return Err(Failure(400, MissingInput));
    }
    var data := SettleReportData(store, db, req, env);
    if data.Err? {
      return Err(Raised(data.error));
    }
    r := RenderAndRecord(store, out, db, req, env, data.value);
  }

  // ---------------------------------------------------------------------------
  // Properties of the state machine
  // ---------------------------------------------------------------------------

  /**
   * The only statuses are 400 and 500; 400 exactly when neither input is
   * given, and then nothing is read or written.
   */
  lemma StatusCodes(dir: Dir, codec: Codec<Payload>, files: Files, analyses: seq<AnalysisRow>, rows: seq<ReportRow>,
                    req: ReportRequest, env: Env)
    ensures var o := Generated(dir, codec, files, analyses, rows, req, env);
            (o.result.Err? ==> o.result.error.status == 400 || o.result.error.status == 500) &&
            (o.result.Err? && o.result.error.status == 400 <==> !HashGiven(req) && !IdGiven(req)) &&
            (!HashGiven(req) && !IdGiven(req) ==> o.dir == dir && o.files == files && o.rows == rows)
  {
  }

  /** With a hash the `analysis_id` plays no part in finding the data; without one, the data is that row's. */
  lemma DataSource(dir: Dir, codec: Codec<Payload>, analyses: seq<AnalysisRow>, req: ReportRequest, env: Env,
                   otherId: Option<string>)
    requires HashGiven(req) || IdGiven(req)
    ensures HashGiven(req) ==>
              ReportData(dir, codec, analyses, req, env) == ReportData(dir, codec, analyses, req.(analysisId := otherId), env)
    ensures !HashGiven(req) ==>
              var s := ReportData(dir, codec, analyses, req, env);
              var row := AnalysisStore.AnalysisById(analyses, req.analysisId.value);
              s.dir == dir &&
              (row.Some? ==> s.data == Ok(row.value.data)) &&
              (row.None? ==> s.data == Err(AnalysisNotFound(req.analysisId.value)))
  {
  }

  /**
   * On a miss in the analysis cache, the analysis computed for the hash is
   * what the cache serves afterwards, while the entry is fresh.
   */
  lemma AnalysisCachedOnMiss(dir: Dir, codec: Codec<Payload>, analyses: seq<AnalysisRow>, req: ReportRequest, env: Env,
                             later: int)
    requires Faithful(codec) && HashGiven(req) && later - env.now <= CacheExpiry
    requires Loaded(dir, codec, CacheService.AnalysisKey(req.fileHash.value), "json", env.now).None?
    ensures var s := ReportData(dir, codec, analyses, req, env);
            s.data.Ok? ==>
              exists report: Matching.Report ::
                s.data.value == AnalysisStore.ReportJson(report) &&
                Loaded(s.dir, codec, CacheService.AnalysisKey(req.fileHash.value), "json", later) ==
                  Some(Value.Data(DnaService.Analyzed(report)))
  {
    var s := ReportData(dir, codec, analyses, req, env);
    if s.data.Ok? {
      var hash := req.fileHash.value;
      var key := CacheService.AnalysisKey(hash);
      var afterLoad := AfterLoad(dir, codec, key, "json", env.now);
      var found := DnaService.ByHash(afterLoad, codec, hash, env.uploads, env.uploadsCache, env.recorded, env.now, env.stamp);
      var report := Matching.ServiceReport(env.reference, found.data.value.d.snps, env.summarize);
      AnalysisStore.AnalysisCacheRoundTrip(found.dir, codec, hash, report, env.now, later, env.stamp);
    }
  }

  /**
   * A PDF cached for the data and type is copied to the report path and the
   * response says `cached`; no renderer runs, so the outcome is the same
   * whatever the renderers would do.
   */
  lemma CachedPdfServed(dir: Dir, codec: Codec<Payload>, files: Files, analyses: seq<AnalysisRow>, rows: seq<ReportRow>,
                        req: ReportRequest, env: Env, data: Json, pdf: Bytes, renderPdf: Renderer, renderMarkdown: Renderer)
    requires ReportService.CachedPdf(dir, codec, data, req.reportType, env.dumps, env.sha, env.now) == Some(pdf)
    ensures var o := Rendered(dir, codec, files, analyses, rows, req, env, data);
            o.files == files[ReportPath(env.reportsDir, env.reportId) := pdf] &&
            (o.result.Ok? ==> o.result.value.cached) &&
            (env.insertOk && env.readOk ==> o.result.Ok?) &&
            o == Rendered(dir, codec, files, analyses, rows, req, env.(renderPdf := renderPdf, renderMarkdown := renderMarkdown), data)
  {
  }

  /**
   * Without a cached PDF, "markdown" selects the markdown renderer and any
   * other type the standard one; its bytes are the report file, and the cache
   * gives them back for the same data and type while they are fresh.
   */
  lemma RenderedThenCached(dir: Dir, codec: Codec<Payload>, files: Files, analyses: seq<AnalysisRow>, rows: seq<ReportRow>,
                           req: ReportRequest, env: Env, data: Json, later: int)
    requires ReportService.CachedPdf(dir, codec, data, req.reportType, env.dumps, env.sha, env.now).None?
    requires later - env.now <= CacheExpiry
    ensures var out := Selected(req.reportType, env)(data);
            var o := Rendered(dir, codec, files, analyses, rows, req, env, data);
            (req.reportType == "markdown" ==> out == env.renderMarkdown(data)) &&
            (req.reportType != "markdown" ==> out == env.renderPdf(data)) &&
            (out.None? ==> o.result == Err(Failure(500, RenderFailed)) && o.files == files && o.rows == rows) &&
            (out.Some? ==>
               o.files == files[ReportPath(env.reportsDir, env.reportId) := out.value] &&
               (o.result.Ok? ==> !o.result.value.cached) &&
               ReportService.CachedPdf(o.dir, codec, data, req.reportType, env.dumps, env.sha, later) == out)
  {
    var out := Selected(req.reportType, env)(data);
    if out.Some? {
      var key := ReportService.ReportKey(data, req.reportType, env.dumps, env.sha);
      var afterLoad := AfterLoad(dir, codec, key, "pdf", env.now);
      ReportService.ReportCacheRoundTrip(afterLoad, codec, data, out.value, req.reportType, env.dumps, env.sha, env.now, later, env.stamp);
    }
  }

  /** Every success names the report drawn for this request and its fixed download URL. */
  lemma DownloadUrlFixed(dir: Dir, codec: Codec<Payload>, files: Files, analyses: seq<AnalysisRow>, rows: seq<ReportRow>,
                         req: ReportRequest, env: Env)
    ensures var o := Generated(dir, codec, files, analyses, rows, req, env);
            o.result.Ok? ==>
              o.result.value.reportId == env.reportId &&
              o.result.value.downloadUrl == "/api/v1/reports/" + env.reportId + "/download" &&
              ReportPath(env.reportsDir, env.reportId) in o.files
  {
  }
}
