// Where analysis_service.py keeps analyses: the cache entry under
// `analysis_{hash}` (`get_cached_analysis`, `cache_analysis_results`,
// lines 442-463), the `analyses` table (`record_analysis`, lines 466-539;
// `get_analysis_by_id`, lines 542-590), and the SNP count the listings derive
// from a stored row (`get_all_analyses`, lines 600-670, and the synchronous
// listing of endpoints/analysis.py, lines 439-486). A report reaches the
// table as the JSON document `json.dumps` writes for the report dict.
module AnalysisStore {
  import opened Wrappers
  import opened Seqs
  import opened JsonModel
  import opened CacheStore
  import opened Tables
  import opened Reference
  import opened DnaParse
  import Matching
  import DnaService
  import CacheService

  type Payload = DnaService.Payload

  // ---------------------------------------------------------------------------
  // The report dict as JSON, with the keys in the order the service builds them
  // ---------------------------------------------------------------------------

  function CharacteristicJson(c: Characteristic): Json {
    JObj([("name", JStr(c.name)), ("description", JStr(c.description)),
          ("effect_direction", JStr(c.effectDirection)), ("evidence_strength", JStr(c.evidenceStrength))])
  }

  function BeneficialJson(b: Beneficial): Json {
    JObj([("ingredient_name", JStr(b.ingredientName)), ("ingredient_mechanism", JStr(b.ingredientMechanism)),
          ("benefit_mechanism", JStr(b.benefitMechanism)), ("recommendation_strength", JStr(b.recommendationStrength)),
          ("evidence_level", JStr(b.evidenceLevel))])
  }

  function CautionJson(c: Caution): Json {
    JObj([("ingredient_name", JStr(c.ingredientName)), ("risk_mechanism", JStr(c.riskMechanism)),
          ("alternative_ingredients", JStr(c.alternativeIngredients))])
  }

  function MutationJson(m: Matching.Mutation): Json {
    JObj([("gene", JStr(m.gene)), ("rsid", JStr(m.rsid)), ("allele1", JStr(m.allele1)), ("allele2", JStr(m.allele2)),
          ("risk_allele", JStr(m.riskAllele)), ("effect", JStr(m.effect)),
          ("evidence_strength", JStr(m.evidenceStrength)), ("category", JStr(m.category)),
          ("characteristics", JArr(Map(m.characteristics, CharacteristicJson)))])
  }

  /** `{'mutations': [...], 'ingredient_recommendations': {'prioritize': [...], 'caution': [...]}}`, plus `summary` when set. */
  function ReportJson(r: Matching.Report): Json {
    var recs := JObj([("prioritize", JArr(Map(r.prioritize, BeneficialJson))), ("caution", JArr(Map(r.caution, CautionJson)))]);
    var base := [("mutations", JArr(Map(r.mutations, MutationJson))), ("ingredient_recommendations", recs)];
    JObj(if r.summary.Some? then base + [("summary", JStr(r.summary.value))] else base)
  }

  /** One parsed SNP as `DataFrame.to_dict('records')` gives it. */
  function RecordJson(s: SnpRecord): Json {
    JObj([("rsid", JStr(s.rsid)), ("chromosome", JStr(s.chromosome)), ("position", JStr(s.position)),
          ("allele1", JStr(s.allele1)), ("allele2", JStr(s.allele2))])
  }

  /** What `json.dumps` makes of a cached value; `None` for bytes, which it refuses with a TypeError. */
  function PayloadJson(v: Value<Payload>): (r: Option<Json>)
    ensures r.None? <==> v.Blob?
  {
    if v.Blob? then None
    else if v.d.Records? then Some(JArr(Map(v.d.snps, RecordJson)))
    else Some(ReportJson(v.d.report))
  }

  /** Python truthiness of a cached value: a dict with keys, a non-empty list, non-empty bytes. */
  predicate ValueTruthy(v: Value<Payload>) {
    if v.Blob? then v.bytes != []
    else if v.d.Records? then v.d.snps != []
    else true
  }

  // ---------------------------------------------------------------------------
  // The analysis cache
  // ---------------------------------------------------------------------------

  /** `get_cached_analysis`: the "json" entry under `analysis_{hash}`. */
  method GetCachedAnalysis(store: Store<Payload>, hash: string, now: int) returns (r: Option<Value<Payload>>)
    modifies store
    ensures r == Loaded(old(store.files), store.codec, CacheService.AnalysisKey(hash), "json", now)
    ensures store.files == AfterLoad(old(store.files), store.codec, CacheService.AnalysisKey(hash), "json", now)
  {
    r := store.Load(CacheService.AnalysisKey(hash), "json", now);
  }

  /** `cache_analysis_results`: the report saved as a "json" entry under `analysis_{hash}`. */
  method CacheAnalysisResults(store: Store<Payload>, hash: string, report: Matching.Report, now: int, stamp: string)
    modifies store
    ensures store.files == Saved(old(store.files), store.codec, Value.Data(DnaService.Analyzed(report)),
                                 CacheService.AnalysisKey(hash), "json", now, stamp)
  {
    store.Save(Value.Data(DnaService.Analyzed(report)), CacheService.AnalysisKey(hash), "json", now, stamp);
  }

  /** Reading under the key the results were cached under gives them back until they expire. */
  lemma AnalysisCacheRoundTrip(dir: Dir, codec: Codec<Payload>, hash: string, report: Matching.Report,
                               saved: int, now: int, stamp: string)
    requires Faithful(codec) && now - saved <= CacheExpiry
    ensures var d := Saved(dir, codec, Value.Data(DnaService.Analyzed(report)), CacheService.AnalysisKey(hash), "json", saved, stamp);
            Loaded(d, codec, CacheService.AnalysisKey(hash), "json", now) == Some(Value.Data(DnaService.Analyzed(report)))
  {
    SaveThenLoad(dir, codec, Value.Data(DnaService.Analyzed(report)), CacheService.AnalysisKey(hash), "json", saved, now, stamp);
  }

  /**
   * An analysis entry never shares a file with the SNP records of a file
   * whose hash has the same length (hex digests, which hold no '.'), whatever
   * the formats.
   */
  lemma AnalysisEntrySeparate(h1: string, h2: string, f1: string, f2: string)
    requires |h1| == |h2| && '.' !in h1
    ensures CachePath(CacheService.AnalysisKey(h1), f1) != CachePath(h2, f2)
  {
    var p := CachePath(CacheService.AnalysisKey(h1), f1);
    var q := CachePath(h2, f2);
    var n := |h1|;
    assert p[..n + 9] == "analysis_" + h1;
    assert q[n] == '.';
    assert forall k :: 0 <= k < 9 ==> "analysis_"[k] != '.';
    if n < 9 {
      assert p[n] == "analysis_"[n];
    } else {
      assert p[n] == h1[n - 9];
    }
  }

  // ---------------------------------------------------------------------------
  // record_analysis
  // ---------------------------------------------------------------------------

  datatype DbFailure = InsertFailed | FallbackFailed

  /** What one call returns and the table it leaves. */
  datatype Recording = Recording(result: Result<string, DbFailure>, rows: seq<AnalysisRow>)

  /** The fallback statement writes `'{file_hash}'` into the SQL text, so a missing hash is stored as "None". */
  function FallbackHash(fileHash: Option<string>): string {
    if fileHash.Some? then fileHash.value else "None"
  }

  /**
   * `record_analysis` with a fresh uuid `newId`: the full insert; if it fails,
   * an insert of the id, hash and status alone; if that fails too, the first
   * error is raised and the table is as it was.
   */
  function Recorded(rows: seq<AnalysisRow>, fileHash: Option<string>, data: Json, newId: string, now: int,
                    insertOk: bool, fallbackOk: bool): (rec: Recording)
    ensures rec.result.Ok? ==> rec.result.value == newId && |rec.rows| == |rows| + 1 && rec.rows[..|rows|] == rows
    ensures rec.result.Err? ==> rec == Recording(Err(InsertFailed), rows)
  {
    if insertOk then
      Recording(Ok(newId), rows + [AnalysisRow(NextId(rows), newId, fileHash, data, Some(now), "completed")])
    else if fallbackOk then
      Recording(Ok(newId), rows + [AnalysisRow(NextId(rows), newId, Some(FallbackHash(fileHash)), JNull, None, "completed")])
    else Recording(Err(InsertFailed), rows)
  }

  /** `AnalysisService.record_analysis`; `insertOk` and `fallbackOk` say whether each statement succeeds. */
  method RecordAnalysis(db: Database, fileHash: Option<string>, data: Json, newId: string, now: int,
                        insertOk: bool, fallbackOk: bool) returns (r: Result<string, DbFailure>)
    modifies db
    ensures r == Recorded(old(db.analyses), fileHash, data, newId, now, insertOk, fallbackOk).result
    ensures db.analyses == Recorded(old(db.analyses), fileHash, data, newId, now, insertOk, fallbackOk).rows
    ensures db.reports == old(db.reports)
  {
    if insertOk {
      db.analyses := db.analyses + [AnalysisRow(NextId(db.analyses), newId, fileHash, data, Some(now), "completed")];
      return Ok(newId);
    }
    if fallbackOk {
      db.analyses := db.analyses + [AnalysisRow(NextId(db.analyses), newId, Some(FallbackHash(fileHash)), JNull, None, "completed")];
      return Ok(newId);
    }
    return Err(InsertFailed);
  }

  predicate HasAnalysisId(id: string, row: AnalysisRow) {
    row.analysisId == id
  }

  /** `get_analysis_by_id`: the first row with that uuid. */
  function AnalysisById(rows: seq<AnalysisRow>, analysisId: string): (r: Option<AnalysisRow>)
    ensures r.Some? ==> r.value in rows && r.value.analysisId == analysisId
    ensures r.None? <==> forall i :: 0 <= i < |rows| ==> rows[i].analysisId != analysisId
  {
    First(rows, row => HasAnalysisId(analysisId, row))
  }

  /**
   * A recorded analysis is found again by its id, with the report data when
   * the full insert succeeded and with no data after the fallback insert.
   */
  lemma RecordedFoundById(rows: seq<AnalysisRow>, fileHash: Option<string>, data: Json, newId: string, now: int,
                          insertOk: bool, fallbackOk: bool)
    requires AnalysisById(rows, newId).None?
    ensures var rec := Recorded(rows, fileHash, data, newId, now, insertOk, fallbackOk);
            rec.result.Ok? ==>
              AnalysisById(rec.rows, newId).Some? &&
              AnalysisById(rec.rows, newId).value.data == (if insertOk then data else JNull) &&
              AnalysisById(rec.rows, newId).value.fileHash == (if insertOk then fileHash else Some(FallbackHash(fileHash)))
  {
    var rec := Recorded(rows, fileHash, data, newId, now, insertOk, fallbackOk);
    if rec.result.Ok? {
      FirstAfterAppend(rows, rec.rows[|rows|], row => HasAnalysisId(newId, row));
      assert rec.rows == rows + [rec.rows[|rows|]];
    }
  }

  // ---------------------------------------------------------------------------
  // The SNP count of a listed analysis
  // ---------------------------------------------------------------------------

  /** `len(value)` where Python allows it; `None` where it raises a TypeError. */
  function PyLen(v: Json): Option<nat> {
    match v
    case JStr(s) => Some(|s|)
    case JArr(items) => Some(|items|)
    case JObj(ms) => Some(|ms|)
    case _ => None
  }

  /**
   * `len(data.get('mutations', [])) if data and isinstance(data, dict) else 0`
   * in `get_all_analyses`, where a TypeError from `len` escapes (`None`).
   */
  function ListedCount(data: Json): Option<nat> {
    if !(data.JObj? && Truthy(data)) then Some(0)
    else
      var m := Get(data.members, "mutations");
      if m.None? then Some(0) else PyLen(m.value)
  }

  /** The synchronous listing's count, whose bare `except` turns every failure into 0. */
  function SyncListedCount(data: Json): nat {
    var c := ListedCount(data);
    if c.Some? then c.value else 0
  }

  /** One item of the synchronous listing. */
  datatype AnalysisSummary = AnalysisSummary(analysisId: string, fileHash: Option<string>, status: string,
                                             createdAt: Option<int>, snpCount: nat)

  datatype AnalysisList = AnalysisList(items: seq<AnalysisSummary>, count: nat)

  function SummaryOf(row: AnalysisRow): AnalysisSummary {
    AnalysisSummary(row.analysisId, row.fileHash, row.status, row.createdAt, SyncListedCount(row.data))
  }

  /**
   * `list_analyses_sync` over the page the paginated query returns, with
   * `total` the row count of the table.
   */
  method ListAnalysesSync(page: seq<AnalysisRow>, total: nat) returns (r: AnalysisList)
    ensures r.count == total && |r.items| == |page|
    ensures forall i :: 0 <= i < |page| ==> r.items[i] == SummaryOf(page[i])
  {
    var items: seq<AnalysisSummary> := [];
    for i := 0 to |page|
      invariant |items| == i
      invariant forall k :: 0 <= k < i ==> items[k] == SummaryOf(page[k])
    {
      items := items + [SummaryOf(page[i])];
    }
    return AnalysisList(items, total);
  }

  /** The report's top-level keys are distinct, as those of a Python dict are. */
  lemma ReportJsonIsDict(r: Matching.Report)
    ensures ReportJson(r).JObj? && DistinctKeys(ReportJson(r).members)
  {
    var ms := ReportJson(r).members;
    assert "mutations" != "ingredient_recommendations" && "mutations" != "summary" && "ingredient_recommendations" != "summary";
    assert forall i :: 0 <= i < |ms| ==> ms[i].0 == ["mutations", "ingredient_recommendations", "summary"][i];
  }

  /**
   * A report recorded with its data is listed with as many SNPs as it has
   * mutations, by both listings; a row the fallback insert wrote is listed
   * with 0. Where the asynchronous listing does not raise, the two agree.
   */
  lemma ListedCountOfReport(r: Matching.Report, data: Json)
    ensures ListedCount(ReportJson(r)) == Some(|r.mutations|)
    ensures SyncListedCount(ReportJson(r)) == |r.mutations|
    ensures SyncListedCount(JNull) == 0
    ensures ListedCount(data).Some? ==> SyncListedCount(data) == ListedCount(data).value
  {
    var ms := ReportJson(r).members;
    assert ms[0] == ("mutations", JArr(Map(r.mutations, MutationJson)));
  }
}
