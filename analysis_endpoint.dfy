// `process_dna_data` of endpoints/analysis.py (lines 21-132): the request is
// answered from the analysis cache when it can be, otherwise the SNPs are
// fetched by hash (or taken from the request), analysed, recorded in the
// `analyses` table and, on the hash path only, cached. The cache directory and
// the table are the state; the clock, the uuids, the reference database and
// whether each insert succeeds come in through `Env`.
module AnalysisEndpoint {
  import opened Wrappers
  import opened CacheStore
  import opened Tables
  import opened DnaParse
  import Reference
  import Matching
  import DnaService
  import CacheService
  import AnalysisStore

  type Payload = DnaService.Payload

  /** The request body: `file_hash`, `raw_snp_data` and `force_refresh`. */
  datatype AnalysisRequest = AnalysisRequest(fileHash: Option<string>, rawSnpData: Option<seq<SnpRecord>>, forceRefresh: bool)

  /** `request.file_hash` is truthy. */
  predicate HashGiven(req: AnalysisRequest) {
    req.fileHash.Some? && req.fileHash.value != ""
  }

  /** `request.raw_snp_data` is truthy. */
  predicate RawGiven(req: AnalysisRequest) {
    req.rawSnpData.Some? && req.rawSnpData.value != []
  }

  datatype AnalysisResponse = AnalysisResponse(analysisId: string, status: string, message: string, snpCount: nat,
                                               fileHash: Option<string>, processingTime: int, cached: bool)

  /** What was raised. */
  datatype Cause =
    | MissingInput             // neither input, raised before the try
    | NoDnaData(hash: string)  // the 404 of the hash lookup
    | NoGetMethod              // `.get` on a cached value that is not a dict
    | NotSnpList               // `process_snp_data` over a value that is not a list of SNP dicts

  datatype Failure = Failure(status: nat, cause: Cause)

  /** The outer `except Exception`: whatever is raised inside the try, a 404 included, becomes a 500. */
  function Raised(cause: Cause): Failure {
    Failure(500, cause)
  }

  /**
   * Everything the endpoint reads besides the cache and the table: the
   * reference tables and summary query `process_snp_data` uses, the two upload
   * directories and the DNA file on record for the hash lookup, the clock and
   * ISO stamp, the uuid `record_analysis` draws and the one the endpoint draws
   * when recording raises, whether each insert succeeds, and the elapsed time.
   */
  datatype Env = Env(reference: Reference.Db, summarize: Matching.Summarizer,
                     uploads: seq<DnaService.Upload>, uploadsCache: seq<DnaService.Upload>,
                     recorded: Option<DnaService.DnaFile>, now: int, stamp: string,
                     newId: string, fallbackId: string, insertOk: bool, fallbackOk: bool, elapsed: int)

  /** The answer and the cache directory and `analyses` rows it leaves. */
  datatype Outcome = Outcome(result: Result<AnalysisResponse, Failure>, dir: Dir, rows: seq<AnalysisRow>)

  /** `record_analysis` on a value; `json.dumps` raises on bytes before either insert is tried. */
  function RecordedValue(rows: seq<AnalysisRow>, fileHash: Option<string>, v: Value<Payload>, env: Env): AnalysisStore.Recording {
    match AnalysisStore.PayloadJson(v)
    case None => AnalysisStore.Recording(Err(AnalysisStore.InsertFailed), rows)
    case Some(data) => AnalysisStore.Recorded(rows, fileHash, data, env.newId, env.now, env.insertOk, env.fallbackOk)
  }

  /** The id the response carries: the recorded one, or the endpoint's own uuid when recording raised. */
  function IdOf(rec: AnalysisStore.Recording, env: Env): string {
    if rec.result.Ok? then rec.result.value else env.fallbackId
  }

  /**
   * Lines 46-73: the log line of line 47 calls `.get` on the cached value
   * before anything is recorded, so a value that is not a dict raises there
   * and the table is left alone; a dict is recorded and its `mutations` counted.
   */
  function FromCache(dir: Dir, rows: seq<AnalysisRow>, req: AnalysisRequest, env: Env, v: Value<Payload>): (o: Outcome)
    ensures o.dir == dir
    ensures o.result.Err? ==> o.result.error.status == 500 && o.rows == rows
    ensures o.result.Ok? <==> v.Data? && v.d.Analyzed?
  {
    if v.Data? && v.d.Analyzed? then
      var rec := RecordedValue(rows, req.fileHash, v, env);
      Outcome(Ok(AnalysisResponse(IdOf(rec, env), "success", "Analysis retrieved from cache", |v.d.report.mutations|,
                                  req.fileHash, 0, true)), dir, rec.rows)
    else Outcome(Err(Raised(NoGetMethod)), dir, rows)
  }

  /** Lines 92-128: analyse, record, cache when a hash was given, answer with `cached=False`. */
  function Computed(dir: Dir, codec: Codec<Payload>, rows: seq<AnalysisRow>, req: AnalysisRequest, env: Env,
                    snps: seq<SnpRecord>): (o: Outcome)
    ensures o.result.Ok? && !o.result.value.cached
    ensures !HashGiven(req) ==> o.dir == dir
  {
    var report := Matching.ServiceReport(env.reference, snps, env.summarize);
    var rec := RecordedValue(rows, req.fileHash, Value.Data(DnaService.Analyzed(report)), env);
    var after := if HashGiven(req)
                 then Saved(dir, codec, Value.Data(DnaService.Analyzed(report)),
                            CacheService.AnalysisKey(req.fileHash.value), "json", env.now, env.stamp)
                 else dir;
    Outcome(Ok(AnalysisResponse(IdOf(rec, env), "success", "Analysis completed successfully", |report.mutations|,
                                req.fileHash, env.elapsed, false)), after, rec.rows)
  }

  /** Lines 76-90 and what follows: the SNP data found by hash must be a non-empty list of records. */
  function Fetched(codec: Codec<Payload>, rows: seq<AnalysisRow>, req: AnalysisRequest, env: Env, found: DnaService.Found): (o: Outcome)
    requires HashGiven(req)
    ensures o.result.Err? ==> o.result.error.status == 500 && o.rows == rows
    ensures o.result.Ok? ==> !o.result.value.cached
  {
    if found.data.None? || !AnalysisStore.ValueTruthy(found.data.value) then
      Outcome(Err(Raised(NoDnaData(req.fileHash.value))), found.dir, rows)
    else if found.data.value.Blob? || !found.data.value.d.Records? then
      Outcome(Err(Raised(NotSnpList)), found.dir, rows)
    else Computed(found.dir, codec, rows, req, env, found.data.value.d.snps)
  }

  /** Lines 43-90 with a hash: the analysis cache first, unless it is empty or refresh is forced, then the lookup by hash. */
  function FromHash(dir: Dir, codec: Codec<Payload>, rows: seq<AnalysisRow>, req: AnalysisRequest, env: Env): Outcome
    requires HashGiven(req)
  {
    var hash := req.fileHash.value;
    var key := CacheService.AnalysisKey(hash);
    var cached := Loaded(dir, codec, key, "json", env.now);
    var afterLoad := AfterLoad(dir, codec, key, "json", env.now);
    if cached.Some? && AnalysisStore.ValueTruthy(cached.value) && !req.forceRefresh then
      FromCache(afterLoad, rows, req, env, cached.value)
    else
      Fetched(codec, rows, req, env,
              DnaService.ByHash(afterLoad, codec, hash, env.uploads, env.uploadsCache, env.recorded, env.now, env.stamp))
  }

  /** `process_dna_data` on a cache directory and an `analyses` table. */
  function Processed(dir: Dir, codec: Codec<Payload>, rows: seq<AnalysisRow>, req: AnalysisRequest, env: Env): Outcome {
    if !HashGiven(req) && !RawGiven(req) then Outcome(Err(Failure(400, MissingInput)), dir, rows)
    else if !HashGiven(req) then Computed(dir, codec, rows, req, env, req.rawSnpData.value)
    else FromHash(dir, codec, rows, req, env)
  }

  /** The `try: record_analysis(...) except: uuid4()` blocks of lines 50-62 and 99-110. */
  method Record(db: Database, fileHash: Option<string>, v: Value<Payload>, env: Env) returns (analysisId: string)
    modifies db
    ensures var rec := RecordedValue(old(db.analyses), fileHash, v, env);
            analysisId == IdOf(rec, env) && db.analyses == rec.rows
    ensures db.reports == old(db.reports)
  {
    var data := AnalysisStore.PayloadJson(v);
    if data.None? {
      return env.fallbackId;
    }
    var r := AnalysisStore.RecordAnalysis(db, fileHash, data.value, env.newId, env.now, env.insertOk, env.fallbackOk);
    analysisId := if r.Ok? then r.value else env.fallbackId;
  }

  /** Lines 92-128 once the SNP data is known. */
  method AnalyseAndRecord(store: Store<Payload>, db: Database, req: AnalysisRequest, env: Env, snps: seq<SnpRecord>)
    returns (r: Result<AnalysisResponse, Failure>)
    modifies store, db
    ensures var o := Computed(old(store.files), store.codec, old(db.analyses), req, env, snps);
            r == o.result && store.files == o.dir && db.analyses == o.rows
    ensures db.reports == old(db.reports)
  {
    var report := Matching.ProcessSnpData(env.reference, snps, env.summarize);
    var analysisId := Record(db, req.fileHash, Value.Data(DnaService.Analyzed(report)), env);
    if HashGiven(req) {
      AnalysisStore.CacheAnalysisResults(store, req.fileHash.value, report, env.now, env.stamp);
    }
    return Ok(AnalysisResponse(analysisId, "success", "Analysis completed successfully", |report.mutations|,
                               req.fileHash, env.elapsed, false));
  }

  /** Lines 43-128 when a hash is given. */
  method ServeHash(store: Store<Payload>, db: Database, req: AnalysisRequest, env: Env)
    returns (r: Result<AnalysisResponse, Failure>)
    requires HashGiven(req)
    modifies store, db
    ensures var o := FromHash(old(store.files), store.codec, old(db.analyses), req, env);
            r == o.result && store.files == o.dir && db.analyses == o.rows
    ensures db.reports == old(db.reports)
  {
    var hash := req.fileHash.value;
    var cached := AnalysisStore.GetCachedAnalysis(store, hash, env.now);
    if cached.Some? && AnalysisStore.ValueTruthy(cached.value) && !req.forceRefresh {
      if !(cached.value.Data? && cached.value.d.Analyzed?) {
        return Err(Raised(NoGetMethod));
      }
      var analysisId := Record(db, req.fileHash, cached.value, env);
      return Ok(AnalysisResponse(analysisId, "success", "Analysis retrieved from cache",
                                 |cached.value.d.report.mutations|, req.fileHash, 0, true));
    }
    var found := DnaService.GetSnpDataByHash(store, hash, env.uploads, env.uploadsCache, env.recorded, env.now, env.stamp);
    if found.None? || !AnalysisStore.ValueTruthy(found.value) {
      return Err(Raised(NoDnaData(hash)));
    }
    if found.value.Blob? || !found.value.d.Records? {
      return Err(Raised(NotSnpList));
    }
    r := AnalyseAndRecord(store, db, req, env, found.value.d.snps);
  }

  /** `process_dna_data`. */
  method ProcessDnaData(store: Store<Payload>, db: Database, req: AnalysisRequest, env: Env)
    returns (r: Result<AnalysisResponse, Failure>)
    modifies store, db
    ensures var o := Processed(old(store.files), store.codec, old(db.analyses), req, env);
            r == o.result && store.files == o.dir && db.analyses == o.rows
    ensures db.reports == old(db.reports)
  {
    if !HashGiven(req) && !RawGiven(req) {
      return Err(Failure(400, MissingInput));
    }
    if HashGiven(req) {
      r := ServeHash(store, db, req, env);
    } else {
      r := AnalyseAndRecord(store, db, req, env, req.rawSnpData.value);
    }
  }

  // ---------------------------------------------------------------------------
  // Properties of the state machine
  // ---------------------------------------------------------------------------

  /**
   * The only statuses are 400 and 500; 400 exactly when neither input is
   * given, and then neither the cache nor the table is touched.
   */
  lemma StatusCodes(dir: Dir, codec: Codec<Payload>, rows: seq<AnalysisRow>, req: AnalysisRequest, env: Env)
    ensures var o := Processed(dir, codec, rows, req, env);
            (o.result.Err? ==> o.result.error.status == 400 || o.result.error.status == 500) &&
            (o.result.Err? && o.result.error.status == 400 <==> !HashGiven(req) && !RawGiven(req)) &&
            (!HashGiven(req) && !RawGiven(req) ==> o.dir == dir && o.rows == rows)
  {
  }

  /**
   * A cached report is answered with `cached=True`, no processing time and its
   * own mutation count, leaves the cache as it was, and does not depend on the
   * reference tables, the summary query or the uploaded files: nothing is
   * recomputed.
   */
  lemma CacheHitServed(dir: Dir, codec: Codec<Payload>, rows: seq<AnalysisRow>, req: AnalysisRequest, env: Env,
                       report: Matching.Report, reference: Reference.Db, summarize: Matching.Summarizer,
                       uploads: seq<DnaService.Upload>)
    requires HashGiven(req) && !req.forceRefresh
    requires Loaded(dir, codec, CacheService.AnalysisKey(req.fileHash.value), "json", env.now) == Some(Value.Data(DnaService.Analyzed(report)))
    ensures var o := Processed(dir, codec, rows, req, env);
            o.result.Ok? && o.result.value.cached && o.result.value.processingTime == 0 &&
            o.result.value.snpCount == |report.mutations| && o.dir == dir &&
            o == Processed(dir, codec, rows, req, env.(reference := reference, summarize := summarize, uploads := uploads))
  {
    var key := CacheService.AnalysisKey(req.fileHash.value);
    assert !LoadDeletes(dir, codec, key, "json", env.now);
  }

  /**
   * A truthy cached value that is not a dict, served without refresh, raises
   * in the log line before recording: a 500 with the table unchanged and
   * nothing recomputed.
   */
  lemma NonDictCacheRecordsNothing(dir: Dir, codec: Codec<Payload>, rows: seq<AnalysisRow>, req: AnalysisRequest, env: Env)
    requires HashGiven(req) && !req.forceRefresh
    requires var cached := Loaded(dir, codec, CacheService.AnalysisKey(req.fileHash.value), "json", env.now);
             cached.Some? && AnalysisStore.ValueTruthy(cached.value) && !(cached.value.Data? && cached.value.d.Analyzed?)
    ensures var o := Processed(dir, codec, rows, req, env);
            o.result == Err(Failure(500, NoGetMethod)) && o.rows == rows
  {
  }

  /** A response marked `cached` only comes from the analysis cache, for a hash, without `force_refresh`. */
  lemma CachedOnlyWithoutRefresh(dir: Dir, codec: Codec<Payload>, rows: seq<AnalysisRow>, req: AnalysisRequest, env: Env)
    ensures var o := Processed(dir, codec, rows, req, env);
            o.result.Ok? && o.result.value.cached ==>
              HashGiven(req) && !req.forceRefresh &&
              Loaded(dir, codec, CacheService.AnalysisKey(req.fileHash.value), "json", env.now).Some?
  {
  }

  /** Results computed from `raw_snp_data` are never cached: without a hash the cache directory is untouched. */
  lemma RawNeverCached(dir: Dir, codec: Codec<Payload>, rows: seq<AnalysisRow>, req: AnalysisRequest, env: Env)
    requires !HashGiven(req)
    ensures Processed(dir, codec, rows, req, env).dir == dir
  {
  }

  /** With a hash, `raw_snp_data` is never looked at. */
  lemma HashTakesPrecedence(dir: Dir, codec: Codec<Payload>, rows: seq<AnalysisRow>, req: AnalysisRequest, env: Env,
                            raw: Option<seq<SnpRecord>>)
    requires HashGiven(req)
    ensures Processed(dir, codec, rows, req, env) == Processed(dir, codec, rows, req.(rawSnpData := raw), env)
  {
  }

  /** A hash whose lookup finds nothing after a cache miss is answered with 500, not 404, and records nothing. */
  lemma LookupMissIs500(dir: Dir, codec: Codec<Payload>, rows: seq<AnalysisRow>, req: AnalysisRequest, env: Env)
    requires HashGiven(req)
    requires Loaded(dir, codec, CacheService.AnalysisKey(req.fileHash.value), "json", env.now).None?
    requires var afterLoad := AfterLoad(dir, codec, CacheService.AnalysisKey(req.fileHash.value), "json", env.now);
             DnaService.ByHash(afterLoad, codec, req.fileHash.value, env.uploads, env.uploadsCache, env.recorded, env.now, env.stamp).data.None?
    ensures var o := Processed(dir, codec, rows, req, env);
            o.result == Err(Failure(500, NoDnaData(req.fileHash.value))) && o.rows == rows
  {
  }

  /**
   * Recording never fails the request: every success carries the uuid of a
   * row appended to the table, or, when recording raised, the endpoint's own
   * uuid with the table unchanged.
   */
  lemma RecordingTolerated(dir: Dir, codec: Codec<Payload>, rows: seq<AnalysisRow>, req: AnalysisRequest, env: Env)
    requires RawGiven(req) && !HashGiven(req)
    ensures var o := Processed(dir, codec, rows, req, env);
            o.result.Ok? &&
            (env.insertOk || env.fallbackOk ==>
               o.result.value.analysisId == env.newId && |o.rows| == |rows| + 1 && o.rows[..|rows|] == rows &&
               o.rows[|rows|].analysisId == env.newId) &&
            (!env.insertOk && !env.fallbackOk ==> o.result.value.analysisId == env.fallbackId && o.rows == rows)
  {
  }

  /**
   * A computed analysis for a hash is what the next request for that hash is
   * answered with while the entry is fresh: `cached=True` and the same count.
   */
  lemma {:induction false} ComputedThenServed(dir: Dir, codec: Codec<Payload>, rows: seq<AnalysisRow>, req: AnalysisRequest,
                                              env: Env, env2: Env)
    requires Faithful(codec) && HashGiven(req)
    requires env2.now - env.now <= CacheExpiry
    requires var o := Processed(dir, codec, rows, req, env); o.result.Ok? && !o.result.value.cached
    ensures var o := Processed(dir, codec, rows, req, env);
            var o2 := Processed(o.dir, codec, o.rows, req.(forceRefresh := false), env2);
            o2.result.Ok? && o2.result.value.cached && o2.result.value.snpCount == o.result.value.snpCount
  {
    var o := Processed(dir, codec, rows, req, env);
    var hash := req.fileHash.value;
    var key := CacheService.AnalysisKey(hash);
    var afterLoad := AfterLoad(dir, codec, key, "json", env.now);
    var cached := Loaded(dir, codec, key, "json", env.now);
    assert !(cached.Some? && AnalysisStore.ValueTruthy(cached.value) && !req.forceRefresh);
    var found := DnaService.ByHash(afterLoad, codec, hash, env.uploads, env.uploadsCache, env.recorded, env.now, env.stamp);
    assert found.data.Some? && found.data.value.Data? && found.data.value.d.Records?;
    var report := Matching.ServiceReport(env.reference, found.data.value.d.snps, env.summarize);
    assert o.dir == Saved(found.dir, codec, Value.Data(DnaService.Analyzed(report)), key, "json", env.now, env.stamp);
    AnalysisStore.AnalysisCacheRoundTrip(found.dir, codec, hash, report, env.now, env2.now, env.stamp);
    CacheHitServed(o.dir, codec, o.rows, req.(forceRefresh := false), env2, report, env2.reference, env2.summarize, env2.uploads);
  }
}
