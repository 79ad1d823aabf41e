// The DNA-file side of dna_service.py: `read_dna_file` with its cache-first
// control flow (lines 282-329), `validate_dna_analysis` (lines 332-417) and
// the order in which `get_snp_data_by_hash` looks for a file's SNP data
// (lines 449-515). A file is given as what the service can learn from it:
// its text lines, the table pandas reads from it, and its sha256 digest.
module DnaService {
  import opened Wrappers
  import opened PyStr
  import opened Seqs
  import opened DnaParse
  import opened CacheStore
  import Matching

  type Snps = seq<SnpRecord>

  /**
   * What the service pickles into its cache: a file's SNP records under the
   * file's hash, or an analysis report under `analysis_{hash}`.
   */
  datatype Payload = Records(snps: Snps) | Analyzed(report: Matching.Report)

  /**
   * A DNA text file: its lines (for the column sniffing), the rows pandas
   * reads from it with the detected column names, and the hex digest
   * `compute_file_hash_from_path` computes over its bytes.
   */
  datatype DnaFile = DnaFile(lines: seq<string>, rows: seq<seq<string>>, hash: string)

  /** Parsing without the cache: sniff the columns, refuse a file with none, then read the table. */
  function Parsed(file: Option<DnaFile>): (r: Result<Snps, ReadError>)
    ensures file.None? ==> r == Err(FileMissing)
    ensures file.Some? && DetectColumns(file.value.lines) == [] ==> r == Err(NoExpectedColumns)
    ensures r.Ok? ==> file.Some? && DetectColumns(file.value.lines) != [] && |r.value| == |file.value.rows|
  {
    match file
    case None => Err(FileMissing)
    case Some(f) =>
      var columns := DetectColumns(f.lines);
      if columns == [] then Err(NoExpectedColumns) else TableRecords(columns, f.rows)
  }

  /** The parse as the service returns it: the records are the cached value's data. */
  function AsValue(r: Result<Snps, ReadError>): Result<Value<Payload>, ReadError> {
    match r
    case Ok(snps) => Ok(Data(Records(snps)))
    case Err(e) => Err(e)
  }

  /** What one `read_dna_file` call returns and the cache directory it leaves. */
  datatype Outcome = Outcome(result: Result<Value<Payload>, ReadError>, dir: Dir)

  /**
   * `read_dna_file(filepath, use_cache)`: with the cache on, a usable "json"
   * entry under the file's hash is returned as it is; otherwise the file is
   * parsed and, with the cache on, the records are saved under that hash.
   */
  function ReadOutcome(dir: Dir, codec: Codec<Payload>, file: Option<DnaFile>, useCache: bool, now: int, stamp: string): (o: Outcome)
    ensures !useCache ==> o == Outcome(AsValue(Parsed(file)), dir)
    ensures o.result.Err? ==> o.dir.Keys <= dir.Keys
    ensures useCache && o.result.Ok? ==> file.Some? && CachePath(file.value.hash, "json") in o.dir
  {
    if !useCache then Outcome(AsValue(Parsed(file)), dir)
    else if file.None? then Outcome(Err(FileMissing), dir)
    else
      var h := file.value.hash;
      var hit := Loaded(dir, codec, h, "json", now);
      var after := AfterLoad(dir, codec, h, "json", now);
      if hit.Some? then
        LoadedExactly(dir, codec, h, "json", now);
        Outcome(Ok(hit.value), after)
      else
        match Parsed(file)
        case Err(e) => Outcome(Err(e), after)
        case Ok(snps) => Outcome(Ok(Data(Records(snps))), Saved(after, codec, Data(Records(snps)), h, "json", now, stamp))
  }

  /** The uncached parse: `verify_dna_file_format`, the ValueError on no columns, the table read. */
  method ParseDnaFile(file: Option<DnaFile>) returns (r: Result<Snps, ReadError>)
    ensures r == Parsed(file)
  {
    var lines := if file.Some? then file.value.lines else [];
    var columns := VerifyDnaFileFormat(file.Some?, lines);
    if columns.Err? {
      return Err(columns.error);
    }
    if columns.value == [] {
      return Err(NoExpectedColumns);
    }
    DetectColumnsSpec(lines);
    r := TableRecords(columns.value, file.value.rows);
  }

  /** `DNAService.read_dna_file`. */
  method ReadDnaFile(store: Store<Payload>, file: Option<DnaFile>, useCache: bool, now: int, stamp: string)
    returns (r: Result<Value<Payload>, ReadError>)
    modifies store
    ensures r == ReadOutcome(old(store.files), store.codec, file, useCache, now, stamp).result
    ensures store.files == ReadOutcome(old(store.files), store.codec, file, useCache, now, stamp).dir
  {
    if useCache {
      if file.None? {
        return Err(FileMissing);
      }
      var cached := store.Load(file.value.hash, "json", now);
      if cached.Some? {
        return Ok(cached.value);
      }
    }
    var parsed := ParseDnaFile(file);
    if parsed.Err? {
      return Err(parsed.error);
    }
    if useCache {
      store.Save(Data(Records(parsed.value)), file.value.hash, "json", now, stamp);
    }
    return Ok(Data(Records(parsed.value)));
  }

  /**
   * A parse that missed the cache is saved, so a second read of the same file
   * before the entry expires is a cache hit with the same records and leaves
   * the directory as the first read left it.
   */
  lemma ReparseServedFromCache(dir: Dir, codec: Codec<Payload>, f: DnaFile, now: int, stamp: string, later: int, stamp2: string)
    requires Faithful(codec)
    requires Loaded(dir, codec, f.hash, "json", now).None? && Parsed(Some(f)).Ok?
    requires now <= later && later - now <= CacheExpiry
    ensures var first := ReadOutcome(dir, codec, Some(f), true, now, stamp);
            var second := ReadOutcome(first.dir, codec, Some(f), true, later, stamp2);
            first.result == Ok(Data(Records(Parsed(Some(f)).value))) &&
            Loaded(first.dir, codec, f.hash, "json", later) == Some(Data(Records(Parsed(Some(f)).value))) &&
            second == Outcome(first.result, first.dir)
  {
    var after := AfterLoad(dir, codec, f.hash, "json", now);
    var v := Data(Records(Parsed(Some(f)).value));
    SaveThenLoad(after, codec, v, f.hash, "json", now, later, stamp);
  }

  // ---------------------------------------------------------------------
  // validate_dna_analysis
  // ---------------------------------------------------------------------

  /** `allele_stats`: the four bases and everything else. */
  datatype AlleleStats = AlleleStats(a: nat, t: nat, g: nat, c: nat, other: nat)

  /**
   * The result dictionary. `statistics` is `None` for the empty `{}` of the
   * failure results; otherwise it holds the allele counts and `rsid_patterns`.
   */
  datatype Validation = Validation(valid: bool, format: string, snpCount: nat, chromosomes: seq<(string, nat)>,
                                   statistics: Option<(AlleleStats, seq<(string, nat)>)>, errors: seq<string>)

  const MinSnps: nat := 10000
  const Unrecognized: string := "Unrecognized file format"
  const LowCount: string := "Low SNP count - file may be incomplete"
  const UnusualRsids: string := "Unusual number of non-standard rsIDs"

  /** The failure result with the given error list. */
  function Invalid(errors: seq<string>): Validation {
    Validation(false, "unknown", 0, [], None, errors)
  }

  /**
   * `str(e)` of the exception a read raises: the two messages the service
   * writes itself, and `tableText` for what pandas raises on a table that
   * does not fit the columns.
   */
  function ErrorText(e: ReadError, tableText: string): string {
    match e
    case FileMissing => "The file does not exist"
    case NoExpectedColumns => "The file does not contain the expected columns"
    case _ => tableText
  }

  /** `allele_stats[allele] += 1`, or `allele_stats['other'] += 1` for anything but a single base. */
  function TallyAllele(s: AlleleStats, allele: string): AlleleStats {
    if allele == "A" then s.(a := s.a + 1)
    else if allele == "T" then s.(t := s.t + 1)
    else if allele == "G" then s.(g := s.g + 1)
    else if allele == "C" then s.(c := s.c + 1)
    else s.(other := s.other + 1)
  }

  function AlleleCounts(snps: Snps): AlleleStats {
    if snps == [] then AlleleStats(0, 0, 0, 0, 0)
    else
      var last := snps[|snps| - 1];
      TallyAllele(TallyAllele(AlleleCounts(snps[..|snps| - 1]), last.allele1), last.allele2)
  }

  function Chromosome(s: SnpRecord): string { s.chromosome }

  predicate HasRsPrefix(s: SnpRecord) { StartsWith(s.rsid, "rs") }

  /** The pattern key an rsid is counted under. */
  function RsidLabel(s: SnpRecord): string { if HasRsPrefix(s) then "rs" else "other" }

  /** `other > rs * 0.1`, over the integers. */
  function Warnings(snpCount: nat, patterns: seq<(string, nat)>): seq<string> {
    (if snpCount < MinSnps then [LowCount] else []) +
    (if 10 * CountOf(patterns, "other") > CountOf(patterns, "rs") then [UnusualRsids] else [])
  }

  /** The statistics of a parsed file. */
  function Analysis(columns: seq<string>, snps: Snps): Validation {
    var patterns := Counts(Map(snps, RsidLabel));
    Validation(true, if "allele1" in columns then "AncestryDNA" else "23andMe", |snps|,
               Counts(Map(snps, Chromosome)), Some((AlleleCounts(snps), patterns)), Warnings(|snps|, patterns))
  }

  function ValidationOf(file: Option<DnaFile>, tableText: string): Validation {
    if file.None? then Invalid([ErrorText(FileMissing, tableText)])
    else
      var columns := DetectColumns(file.value.lines);
      if columns == [] then Invalid([Unrecognized])
      else match Parsed(file)
        case Err(e) => Invalid([ErrorText(e, tableText)])
        case Ok(snps) => Analysis(columns, snps)
  }

  /** One SNP, as the loop of `validate_dna_analysis` takes it. */
  lemma AnalysisStep(snps: Snps, i: nat)
    requires i < |snps|
    ensures Counts(Map(snps[..i + 1], Chromosome)) == Tick(Counts(Map(snps[..i], Chromosome)), snps[i].chromosome)
    ensures Counts(Map(snps[..i + 1], RsidLabel)) == Tick(Counts(Map(snps[..i], RsidLabel)), RsidLabel(snps[i]))
    ensures AlleleCounts(snps[..i + 1]) == TallyAllele(TallyAllele(AlleleCounts(snps[..i]), snps[i].allele1), snps[i].allele2)
  {
    var p := snps[..i + 1];
    assert p[..i] == snps[..i];
    MapStep(snps, i, Chromosome);
    MapStep(snps, i, RsidLabel);
    var cs := Map(snps[..i], Chromosome);
    var ls := Map(snps[..i], RsidLabel);
    assert (cs + [snps[i].chromosome])[..|cs|] == cs;
    assert (ls + [RsidLabel(snps[i])])[..|ls|] == ls;
  }

  /** `DNAService.validate_dna_analysis`; `tableText` is the text of a table-read exception. */
  method ValidateDnaAnalysis(file: Option<DnaFile>, tableText: string) returns (v: Validation)
    ensures v == ValidationOf(file, tableText)
  {
    var lines := if file.Some? then file.value.lines else [];
    var columns := VerifyDnaFileFormat(file.Some?, lines);
    if columns.Err? {
      return Invalid([ErrorText(columns.error, tableText)]);
    }
    if columns.value == [] {
      return Invalid([Unrecognized]);
    }
    var parsed := ParseDnaFile(file);
    if parsed.Err? {
      return Invalid([ErrorText(parsed.error, tableText)]);
    }
    assert ValidationOf(file, tableText) == Analysis(columns.value, parsed.value);
    v := Summarize(columns.value, parsed.value);
  }

  /** The result for a parsed file: format name, counters and warnings. */
  method Summarize(columns: seq<string>, snps: Snps) returns (v: Validation)
    ensures v == Analysis(columns, snps)
  {
    var formatName := if "allele1" in columns then "AncestryDNA" else "23andMe";
    var chromosomes, alleles, patterns := Tallies(snps);
    var low: seq<string> := if |snps| < MinSnps then [LowCount] else [];
    var unusual: seq<string> := if 10 * CountOf(patterns, "other") > CountOf(patterns, "rs") then [UnusualRsids] else [];
    var errors := low + unusual;
    v := Validation(true, formatName, |snps|, chromosomes, Some((alleles, patterns)), errors);
  }

  /** The counting loop of `validate_dna_analysis`. */
  method Tallies(snps: Snps) returns (chromosomes: seq<(string, nat)>, alleles: AlleleStats, patterns: seq<(string, nat)>)
    ensures chromosomes == Counts(Map(snps, Chromosome))
    ensures alleles == AlleleCounts(snps)
    ensures patterns == Counts(Map(snps, RsidLabel))
  {
    chromosomes := [];
    alleles := AlleleStats(0, 0, 0, 0, 0);
    patterns := [];
    var i := 0;
    while i < |snps|
      invariant 0 <= i <= |snps|
      invariant chromosomes == Counts(Map(snps[..i], Chromosome))
      invariant patterns == Counts(Map(snps[..i], RsidLabel))
      invariant alleles == AlleleCounts(snps[..i])
    {
      var snp := snps[i];
      AnalysisStep(snps, i);
      chromosomes := Tick(chromosomes, snp.chromosome);
      alleles := TallyAllele(alleles, snp.allele1);
      alleles := TallyAllele(alleles, snp.allele2);
      if StartsWith(snp.rsid, "rs") {
        patterns := Tick(patterns, "rs");
      } else {
        patterns := Tick(patterns, "other");
      }
      i := i + 1;
    }
    assert snps[..i] == snps;
  }

  /** The alleles of the records, two per record, in order. */
  function AllelePair(s: SnpRecord): seq<string> { [s.allele1, s.allele2] }

  function AlleleTotal(s: AlleleStats): nat { s.a + s.t + s.g + s.c + s.other }

  /** One allele adds one to exactly the field it names, or to `other`. */
  lemma TallyAlleleSpec(s: AlleleStats, x: string)
    ensures var r := TallyAllele(s, x);
            r.a == s.a + multiset{x}["A"] && r.t == s.t + multiset{x}["T"] &&
            r.g == s.g + multiset{x}["G"] && r.c == s.c + multiset{x}["C"] &&
            AlleleTotal(r) == AlleleTotal(s) + 1
  {
  }

  /** Each base is counted as often as it occurs among the alleles, and every allele is counted once. */
  lemma {:induction false} AlleleCountsSpec(snps: Snps)
    ensures var s := AlleleCounts(snps); var all := multiset(FlatMap(snps, AllelePair));
            s.a == all["A"] && s.t == all["T"] && s.g == all["G"] && s.c == all["C"] &&
            AlleleTotal(s) == 2 * |snps|
  {
    if snps != [] {
      var init := snps[..|snps| - 1];
      var last := snps[|snps| - 1];
      AlleleCountsSpec(init);
      var s1 := TallyAllele(AlleleCounts(init), last.allele1);
      TallyAlleleSpec(AlleleCounts(init), last.allele1);
      TallyAlleleSpec(s1, last.allele2);
      assert AlleleCounts(snps) == TallyAllele(s1, last.allele2);
      AllelesSnoc(snps);
    }
  }

  lemma AllelesSnoc(snps: Snps)
    requires snps != []
    ensures var last := snps[|snps| - 1];
            multiset(FlatMap(snps, AllelePair)) ==
            multiset(FlatMap(snps[..|snps| - 1], AllelePair)) + multiset{last.allele1} + multiset{last.allele2}
  {
    var last := snps[|snps| - 1];
    var pre := FlatMap(snps[..|snps| - 1], AllelePair);
    assert FlatMap(snps, AllelePair) == pre + [last.allele1, last.allele2];
    assert pre + [last.allele1, last.allele2] == pre + [last.allele1] + [last.allele2];
  }

  /** The "rs" and "other" patterns count the rsids with and without the prefix. */
  lemma {:induction false} LabelCounts(snps: Snps)
    ensures multiset(Map(snps, RsidLabel))["rs"] == CountIf(snps, HasRsPrefix)
    ensures multiset(Map(snps, RsidLabel))["other"] == |snps| - CountIf(snps, HasRsPrefix)
  {
    if snps != [] {
      LabelCounts(snps[1..]);
      assert Map(snps, RsidLabel) == [RsidLabel(snps[0])] + Map(snps[1..], RsidLabel);
    }
  }

  /** The counters and warnings of a parsed table. */
  lemma AnalysisSpec(columns: seq<string>, snps: Snps)
    requires columns == AncestryColumns || columns == GenotypeColumns
    ensures var v := Analysis(columns, snps);
            v.valid && v.snpCount == |snps| &&
            (v.format == "AncestryDNA" <==> columns == AncestryColumns) &&
            CountTotal(v.chromosomes) == |snps| &&
            AlleleTotal(v.statistics.value.0) == 2 * |snps| &&
            (LowCount in v.errors <==> |snps| < MinSnps) &&
            (UnusualRsids in v.errors <==> 10 * (|snps| - CountIf(snps, HasRsPrefix)) > CountIf(snps, HasRsPrefix))
  {
    AnalysisFormat(columns, snps);
    AnalysisCounters(columns, snps);
    AnalysisWarnings(columns, snps);
  }

  lemma AnalysisFormat(columns: seq<string>, snps: Snps)
    requires columns == AncestryColumns || columns == GenotypeColumns
    ensures Analysis(columns, snps).format == "AncestryDNA" <==> columns == AncestryColumns
  {
    FormatName(columns);
  }

  lemma AnalysisCounters(columns: seq<string>, snps: Snps)
    ensures CountTotal(Analysis(columns, snps).chromosomes) == |snps|
    ensures AlleleTotal(Analysis(columns, snps).statistics.value.0) == 2 * |snps|
  {
    CountsSpec(Map(snps, Chromosome), "");
    AlleleCountsSpec(snps);
  }

  lemma AnalysisWarnings(columns: seq<string>, snps: Snps)
    ensures var e := Analysis(columns, snps).errors;
            (LowCount in e <==> |snps| < MinSnps) &&
            (UnusualRsids in e <==> 10 * (|snps| - CountIf(snps, HasRsPrefix)) > CountIf(snps, HasRsPrefix))
  {
    assert Analysis(columns, snps).errors == Warnings(|snps|, Counts(Map(snps, RsidLabel)));
    PatternWarnings(snps);
  }

  lemma FormatName(columns: seq<string>)
    requires columns == AncestryColumns || columns == GenotypeColumns
    ensures "allele1" in columns <==> columns == AncestryColumns
  {
    assert AncestryColumns[3] == "allele1";
    assert "allele1" !in GenotypeColumns;
  }

  lemma WarningsSpec(n: nat, patterns: seq<(string, nat)>)
    ensures LowCount in Warnings(n, patterns) <==> n < MinSnps
    ensures UnusualRsids in Warnings(n, patterns) <==> 10 * CountOf(patterns, "other") > CountOf(patterns, "rs")
  {
    assert LowCount != UnusualRsids;
  }

  lemma PatternWarnings(snps: Snps)
    ensures var w := Warnings(|snps|, Counts(Map(snps, RsidLabel)));
            (LowCount in w <==> |snps| < MinSnps) &&
            (UnusualRsids in w <==> 10 * (|snps| - CountIf(snps, HasRsPrefix)) > CountIf(snps, HasRsPrefix))
  {
    var labels := Map(snps, RsidLabel);
    CountsSpec(labels, "rs");
    CountsSpec(labels, "other");
    LabelCounts(snps);
    WarningsSpec(|snps|, Counts(labels));
  }

  /**
   * A file is valid exactly when it parses, and one whose lines hold neither
   * column set gets the "Unrecognized file format" result. A valid file's
   * format is AncestryDNA exactly when the AncestryDNA columns were detected;
   * its SNP count is the number of table rows; the chromosome counts add up
   * to it; every allele is counted; and the two warnings are given exactly
   * when fewer than 10000 SNPs were read, and when the rsids without the "rs"
   * prefix are more than a tenth of those with it.
   */
  lemma ValidationSpec(file: Option<DnaFile>, tableText: string)
    ensures var v := ValidationOf(file, tableText);
            (v.valid <==> Parsed(file).Ok?) &&
            (file.Some? && DetectColumns(file.value.lines) == [] ==> v == Invalid([Unrecognized])) &&
            (v.valid ==>
               var snps := Parsed(file).value;
               v.snpCount == |snps| == |file.value.rows| &&
               (v.format == "AncestryDNA" <==> DetectColumns(file.value.lines) == AncestryColumns) &&
               CountTotal(v.chromosomes) == v.snpCount &&
               AlleleTotal(v.statistics.value.0) == 2 * v.snpCount &&
               (LowCount in v.errors <==> v.snpCount < MinSnps) &&
               (UnusualRsids in v.errors <==>
                  10 * (|snps| - CountIf(snps, HasRsPrefix)) > CountIf(snps, HasRsPrefix)))
  {
    if Parsed(file).Ok? {
      DetectColumnsSpec(file.value.lines);
      AnalysisSpec(DetectColumns(file.value.lines), Parsed(file).value);
    }
  }

  /** Each chromosome is counted as often as it occurs, each listed once. */
  lemma ChromosomeCounts(file: Option<DnaFile>, tableText: string, chrom: string)
    requires ValidationOf(file, tableText).valid
    ensures var v := ValidationOf(file, tableText); var chroms := Map(Parsed(file).value, Chromosome);
            CountOf(v.chromosomes, chrom) == multiset(chroms)[chrom] &&
            (chrom in CountKeys(v.chromosomes) <==> chrom in chroms)
  {
    var chroms := Map(Parsed(file).value, Chromosome);
    CountsSpec(chroms, chrom);
    CountsKeys(chroms);
  }

  // ---------------------------------------------------------------------
  // get_snp_data_by_hash
  // ---------------------------------------------------------------------

  /** A file in one of the upload directories, under its stored name. */
  datatype Upload = Upload(name: string, file: DnaFile)

  /** `Path.glob(f"{prefix}_*.txt")` on a plain file name. */
  predicate GlobMatch(name: string, prefix: string) {
    StartsWith(name, prefix + "_") && EndsWith(name, ".txt") && |name| >= |prefix| + 1 + 4
  }

  /** `file_hash[:8]`. */
  function HashPrefix(hash: string): string {
    PySlice(hash, 0, 8)
  }

  function FileOf(u: Upload): DnaFile { u.file }

  /** The uploads directory's matches, then the uploads cache directory's, each in listing order. */
  function Candidates(hash: string, uploads: seq<Upload>, uploadsCache: seq<Upload>): seq<DnaFile> {
    var matches := (u: Upload) => GlobMatch(u.name, HashPrefix(hash));
    Map(Filter(uploads, matches) + Filter(uploadsCache, matches), FileOf)
  }

  /** What a lookup returns and the cache directory it leaves. */
  datatype Found = Found(data: Option<Value<Payload>>, dir: Dir)

  /**
   * The candidate loop: a file whose digest is the hash is read through the
   * cache; the first such read that succeeds is the answer, and a read that
   * raises moves on to the next candidate.
   */
  function Probe(dir: Dir, codec: Codec<Payload>, hash: string, cands: seq<DnaFile>, now: int, stamp: string): (f: Found)
    ensures f.data.None? ==> f.dir.Keys <= dir.Keys
  {
    if cands == [] then Found(None, dir)
    else if cands[0].hash != hash then Probe(dir, codec, hash, cands[1..], now, stamp)
    else
      var o := ReadOutcome(dir, codec, Some(cands[0]), true, now, stamp);
      if o.result.Ok? then Found(Some(o.result.value), o.dir)
      else Probe(o.dir, codec, hash, cands[1..], now, stamp)
  }

  /** Data comes only from a candidate whose digest is the hash. */
  lemma {:induction false} ProbeNeedsMatch(dir: Dir, codec: Codec<Payload>, hash: string, cands: seq<DnaFile>, now: int, stamp: string)
    decreases |cands|
    ensures Probe(dir, codec, hash, cands, now, stamp).data.Some? ==> exists k :: 0 <= k < |cands| && cands[k].hash == hash
    ensures (forall k :: 0 <= k < |cands| ==> cands[k].hash != hash) ==> Probe(dir, codec, hash, cands, now, stamp) == Found(None, dir)
  {
    if cands != [] {
      var o := ReadOutcome(dir, codec, Some(cands[0]), true, now, stamp);
      var next := if cands[0].hash != hash then dir else o.dir;
      ProbeNeedsMatch(next, codec, hash, cands[1..], now, stamp);
      if Probe(next, codec, hash, cands[1..], now, stamp).data.Some? {
        var k :| 0 <= k < |cands[1..]| && cands[1..][k].hash == hash;
        assert cands[k + 1].hash == hash;
      }
      assert forall k :: 0 <= k < |cands[1..]| ==> cands[1..][k] == cands[k + 1];
    }
  }

  /**
   * `get_snp_data_by_hash`: the main cache first, then the upload candidates,
   * then the file the database records for the hash (`recorded`: the file at
   * its stored path, when the row has one and it exists), then nothing.
   */
  function ByHash(dir: Dir, codec: Codec<Payload>, hash: string, uploads: seq<Upload>, uploadsCache: seq<Upload>,
                  recorded: Option<DnaFile>, now: int, stamp: string): (f: Found)
    ensures Loaded(dir, codec, hash, "json", now).Some? ==>
      f == Found(Loaded(dir, codec, hash, "json", now), AfterLoad(dir, codec, hash, "json", now))
  {
    var hit := Loaded(dir, codec, hash, "json", now);
    var after := AfterLoad(dir, codec, hash, "json", now);
    if hit.Some? then Found(hit, after)
    else
      var p := Probe(after, codec, hash, Candidates(hash, uploads, uploadsCache), now, stamp);
      if p.data.Some? || recorded.None? then p
      else
        var o := ReadOutcome(p.dir, codec, recorded, true, now, stamp);
        Found(if o.result.Ok? then Some(o.result.value) else None, o.dir)
  }

  /** `DNAService.get_snp_data_by_hash`. */
  method GetSnpDataByHash(store: Store<Payload>, hash: string, uploads: seq<Upload>, uploadsCache: seq<Upload>,
                          recorded: Option<DnaFile>, now: int, stamp: string) returns (r: Option<Value<Payload>>)
    modifies store
    ensures r == ByHash(old(store.files), store.codec, hash, uploads, uploadsCache, recorded, now, stamp).data
    ensures store.files == ByHash(old(store.files), store.codec, hash, uploads, uploadsCache, recorded, now, stamp).dir
  {
    var cached := store.Load(hash, "json", now);
    if cached.Some? {
      return cached;
    }
    var cands := Candidates(hash, uploads, uploadsCache);
    ghost var start := store.files;
    var i := 0;
    while i < |cands|
      invariant 0 <= i <= |cands|
      invariant Probe(store.files, store.codec, hash, cands[i..], now, stamp) == Probe(start, store.codec, hash, cands, now, stamp)
    {
      var f := cands[i];
      assert cands[i..][1..] == cands[i + 1..];
      if f.hash == hash {
        var res := ReadDnaFile(store, Some(f), true, now, stamp);
        if res.Ok? {
          return Some(res.value);
        }
      }
      i := i + 1;
    }
    if recorded.Some? {
      var res := ReadDnaFile(store, recorded, true, now, stamp);
      if res.Ok? {
        return Some(res.value);
      }
    }
    return None;
  }

  /** A candidate with the hash that parses always yields data, so later places are not consulted. */
  lemma {:induction false} ProbeFinds(dir: Dir, codec: Codec<Payload>, hash: string, cands: seq<DnaFile>, now: int, stamp: string, k: nat)
    requires k < |cands| && cands[k].hash == hash && Parsed(Some(cands[k])).Ok?
    ensures Probe(dir, codec, hash, cands, now, stamp).data.Some?
  {
    if cands[0].hash != hash {
      ProbeFinds(dir, codec, hash, cands[1..], now, stamp, k - 1);
    } else if k > 0 {
      var o := ReadOutcome(dir, codec, Some(cands[0]), true, now, stamp);
      if o.result.Err? {
        ProbeFinds(o.dir, codec, hash, cands[1..], now, stamp, k - 1);
      }
    }
  }

  /**
   * The lookup order: with a cache miss, a parsable upload whose digest is the
   * hash wins over the database's file, and no data at all means the cache
   * missed and no candidate with that digest parses.
   */
  lemma ByHashOrder(dir: Dir, codec: Codec<Payload>, hash: string, uploads: seq<Upload>, uploadsCache: seq<Upload>,
                    recorded: Option<DnaFile>, now: int, stamp: string)
    ensures var cands := Candidates(hash, uploads, uploadsCache);
            var f := ByHash(dir, codec, hash, uploads, uploadsCache, recorded, now, stamp);
            var p := Probe(AfterLoad(dir, codec, hash, "json", now), codec, hash, cands, now, stamp);
            (Loaded(dir, codec, hash, "json", now).None? && p.data.Some? ==> f == p) &&
            (f.data.None? ==>
               Loaded(dir, codec, hash, "json", now).None? &&
               forall k :: 0 <= k < |cands| && cands[k].hash == hash ==> Parsed(Some(cands[k])).Err?)
  {
    var cands := Candidates(hash, uploads, uploadsCache);
    var p := Probe(AfterLoad(dir, codec, hash, "json", now), codec, hash, cands, now, stamp);
    forall k | 0 <= k < |cands| && cands[k].hash == hash && Parsed(Some(cands[k])).Ok? ensures p.data.Some? {
      ProbeFinds(AfterLoad(dir, codec, hash, "json", now), codec, hash, cands, now, stamp, k);
    }
  }
}
