// ALGORYTHM/src/dna_validator.py, `validate_dna_analysis` (lines 5-110): the
// genotypes of an AncestryDNA file are read after its header line, the
// reference SNPs with those rsids are fetched, and a report is printed: the
// counts, each SNP's risk status, the SNPs per category, the genotypes with
// bases other than A, T, C and G, and the SNPs per evidence level. The report
// is returned as a value instead of printed; the query's rows are passed in,
// `None` standing for a failed connection or query.
module DnaValidator {
  import opened Wrappers
  import opened Seqs
  import opened PyStr
  import opened Dicts
  import Sorting
  import Reference

  /** The header line after which records are read. */
  const Header: string := "rsid\tchromosome\tposition\tallele1\tallele2"

  // ---------------------------------------------------------------------------
  // dna_data: an insertion-ordered dict from rsid to genotype
  // ---------------------------------------------------------------------------

  type Genotypes = Dict<string, string>

  // ---------------------------------------------------------------------------
  // Reading the file
  // ---------------------------------------------------------------------------

  /** The loop's state: `start_processing` and `dna_data`. */
  datatype Scan = Scan(started: bool, data: Genotypes)

  /** A data line's fields, when it has the five the loop needs. */
  function Fields(line: string): Option<seq<string>> {
    var parts := Split(line, '\t');
    if |parts| >= 5 then Some(parts) else None
  }

  /** One pass of the loop of lines 13-23. */
  function ScanLine(s: Scan, raw: string): Scan {
    var line := Strip(raw);
    if line == Header then Scan(true, s.data)
    else if s.started && line != "" && !StartsWith(line, "#") && Fields(line).Some? then
      var parts := Fields(line).value;
      Scan(true, Put(s.data, parts[0], parts[3] + parts[4]))
    else s
  }

  function ScanLines(lines: seq<string>): Scan {
    if lines == [] then Scan(false, [])
    else ScanLine(ScanLines(lines[..|lines| - 1]), lines[|lines| - 1])
  }

  lemma ScanStep(lines: seq<string>, i: nat)
    requires i < |lines|
    ensures ScanLines(lines[..i + 1]) == ScanLine(ScanLines(lines[..i]), lines[i])
  {
    assert lines[..i + 1][..i] == lines[..i];
  }

  /** The body of the loop of lines 13-23, on one line. */
  method ReadLine(started: bool, data: Genotypes, raw: string) returns (started': bool, data': Genotypes)
    ensures Scan(started', data') == ScanLine(Scan(started, data), raw)
  {
    started', data' := started, data;
    var line := Strip(raw);
    if line == Header {
      started' := true;
    } else if started && line != "" && !StartsWith(line, "#") {
      var parts := Split(line, '\t');
      if |parts| >= 5 {
        data' := Put(data, parts[0], parts[3] + parts[4]);
      }
    }
  }

  /** Lines 9-23. */
  method ReadGenotypes(lines: seq<string>) returns (data: Genotypes)
    ensures data == ScanLines(lines).data
  {
    var started := false;
    data := [];
    var i := 0;
    while i < |lines|
      invariant 0 <= i <= |lines|
      invariant Scan(started, data) == ScanLines(lines[..i])
    {
      ScanStep(lines, i);
      started, data := ReadLine(started, data, lines[i]);
      i := i + 1;
    }
    assert lines[..i] == lines;
  }

  /** Each rsid is read once at most: the dict has distinct keys. */
  lemma {:induction false} ScanDistinct(lines: seq<string>)
    ensures DistinctKeys(ScanLines(lines).data)
  {
    if lines != [] {
      var init := lines[..|lines| - 1];
      ScanDistinct(init);
      var s := ScanLines(init);
      var line := Strip(lines[|lines| - 1]);
      if line != Header && s.started && line != "" && !StartsWith(line, "#") && Fields(line).Some? {
        var parts := Fields(line).value;
        PutDistinct(s.data, parts[0], parts[3] + parts[4]);
      }
    }
  }

  /** Nothing is read until a line is exactly the header. */
  lemma {:induction false} NothingBeforeHeader(lines: seq<string>)
    requires forall i :: 0 <= i < |lines| ==> Strip(lines[i]) != Header
    ensures ScanLines(lines) == Scan(false, [])
  {
    if lines != [] {
      NothingBeforeHeader(lines[..|lines| - 1]);
    }
  }

  /**
   * A data line read after the header sets its rsid's genotype to its two
   * alleles concatenated, overwriting an earlier line's, and leaves every
   * other rsid's genotype alone.
   */
  lemma LaterLineWins(lines: seq<string>, raw: string, q: string)
    requires ScanLines(lines).started
    requires var line := Strip(raw); line != Header && line != "" && !StartsWith(line, "#") && Fields(line).Some?
    ensures var parts := Fields(Strip(raw)).value;
            var after := ScanLines(lines + [raw]).data;
            Get(after, parts[0]) == Some(parts[3] + parts[4]) &&
            (q != parts[0] ==> Get(after, q) == Get(ScanLines(lines).data, q))
  {
    var parts := Fields(Strip(raw)).value;
    assert (lines + [raw])[..|lines|] == lines;
    PutGet(ScanLines(lines).data, parts[0], parts[3] + parts[4], parts[0]);
    PutGet(ScanLines(lines).data, parts[0], parts[3] + parts[4], q);
  }

  // ---------------------------------------------------------------------------
  // The report
  // ---------------------------------------------------------------------------

  /** One SNP of the detailed analysis. */
  datatype SnpStatus = SnpStatus(rsid: string, gene: string, category: string, evidence: string,
                                 genotype: string, riskAllele: string, riskPresent: bool)

  datatype ValidatorReport = ValidatorReport(totalInFile: nat, relevantFound: nat, statuses: seq<SnpStatus>,
                                             categories: seq<(string, nat)>, qualityIssues: seq<string>,
                                             evidenceLevels: seq<(string, nat)>)

  predicate InFile(data: Genotypes, row: Reference.SnpRow) {
    Get(data, row.rsid).Some?
  }

  /** `WHERE rsid = ANY(keys)`, the rows in table order. */
  function Relevant(table: seq<Reference.SnpRow>, data: Genotypes): seq<Reference.SnpRow> {
    Filter(table, row => InFile(data, row))
  }

  /** Lines 57-68: the status is "Risk allele present" exactly when the risk allele occurs in the genotype. */
  function StatusOf(data: Genotypes, row: Reference.SnpRow): SnpStatus
    requires InFile(data, row)
  {
    var genotype := Get(data, row.rsid).value;
    SnpStatus(row.rsid, row.gene, row.category, row.evidenceStrength, genotype, row.riskAllele, Contains(genotype, row.riskAllele))
  }

  predicate IsBase(c: char) {
    c == 'A' || c == 'T' || c == 'C' || c == 'G'
  }

  /** `not all(base in valid_bases for base in genotype)`. */
  predicate HasInvalidBase(entry: (string, string)) {
    exists i :: 0 <= i < |entry.1| && !IsBase(entry.1[i])
  }

  function IssueText(entry: (string, string)): string {
    "Invalid bases in " + entry.0 + ": " + entry.1
  }

  /** The quality issues of lines 82-88: one per genotype with a base outside A, T, C and G, in file order. */
  function Issues(data: Genotypes): seq<string> {
    Map(Filter(data, HasInvalidBase), IssueText)
  }

  function Category(row: Reference.SnpRow): string { row.category }

  function Evidence(row: Reference.SnpRow): string { row.evidenceStrength }

  /** `sorted(d.items())`: by key, as Python compares strings; the keys are distinct. */
  predicate KeyBefore(a: (string, nat), b: (string, nat)) {
    Sorting.LexLess(a.0, b.0)
  }

  function SortedItems(d: seq<(string, nat)>): seq<(string, nat)> {
    Sorting.StableSort(d, KeyBefore)
  }

  /** `validate_dna_analysis` on the lines of the file and the rows the query returns. */
  function Validated(lines: seq<string>, table: Option<seq<Reference.SnpRow>>): Option<ValidatorReport> {
    if table.None? then None
    else
      var data := ScanLines(lines).data;
      var rows := Relevant(table.value, data);
      Some(ValidatorReport(|data|, |rows|,
                           seq(|rows|, i requires 0 <= i < |rows| => StatusOf(data, rows[i])),
                           SortedItems(Counts(Map(rows, Category))),
                           Issues(data),
                           SortedItems(Counts(Map(rows, Evidence)))))
  }

  /** Every relevant row is in the file. */
  lemma RelevantInFile(table: seq<Reference.SnpRow>, data: Genotypes)
    ensures forall i :: 0 <= i < |Relevant(table, data)| ==> InFile(data, Relevant(table, data)[i])
  {
    forall i | 0 <= i < |Relevant(table, data)| ensures InFile(data, Relevant(table, data)[i]) {
      assert Relevant(table, data)[i] in Relevant(table, data);
    }
  }

  /** Lines 54-68. */
  method Statuses(rows: seq<Reference.SnpRow>, data: Genotypes) returns (statuses: seq<SnpStatus>)
    requires forall i :: 0 <= i < |rows| ==> InFile(data, rows[i])
    ensures statuses == seq(|rows|, i requires 0 <= i < |rows| => StatusOf(data, rows[i]))
  {
    statuses := [];
    var i := 0;
    while i < |rows|
      invariant 0 <= i <= |rows|
      invariant statuses == seq(i, k requires 0 <= k < i => StatusOf(data, rows[k]))
    {
      var genotype := Get(data, rows[i].rsid).value;
      var present := Contains(genotype, rows[i].riskAllele);
      statuses := statuses + [SnpStatus(rows[i].rsid, rows[i].gene, rows[i].category, rows[i].evidenceStrength,
                                        genotype, rows[i].riskAllele, present)];
      i := i + 1;
    }
  }

  /** Lines 72-75 and 98-101: `d[key] = d.get(key, 0) + 1` over the rows. */
  method Tally(keys: seq<string>) returns (d: seq<(string, nat)>)
    ensures d == Counts(keys)
  {
    d := [];
    var i := 0;
    while i < |keys|
      invariant 0 <= i <= |keys|
      invariant d == Counts(keys[..i])
    {
      CountsStep(keys, i);
      d := Tick(d, keys[i]);
      i := i + 1;
    }
    assert keys[..i] == keys;
  }

  /** Lines 82-87. */
  method QualityIssues(data: Genotypes) returns (issues: seq<string>)
    ensures issues == Issues(data)
  {
    issues := [];
    var i := 0;
    while i < |data|
      invariant 0 <= i <= |data|
      invariant issues == Map(Filter(data[..i], HasInvalidBase), IssueText)
    {
      var entry := data[i];
      assert data[..i + 1] == data[..i] + [entry];
      FilterAppend(data[..i], [entry], HasInvalidBase);
      assert Filter([entry], HasInvalidBase) == if HasInvalidBase(entry) then [entry] else [];
      if HasInvalidBase(entry) {
        MapAppend(Filter(data[..i], HasInvalidBase), [entry], IssueText);
        issues := issues + [IssueText(entry)];
      }
      i := i + 1;
    }
    assert data[..i] == data;
  }

  /** `validate_dna_analysis`. */
  method ValidateDnaAnalysis(lines: seq<string>, table: Option<seq<Reference.SnpRow>>) returns (r: Option<ValidatorReport>)
    ensures r == Validated(lines, table)
  {
    var data := ReadGenotypes(lines);
    if table.None? {
      return None;
    }
    var rows := Relevant(table.value, data);
    RelevantInFile(table.value, data);
    var statuses := Statuses(rows, data);
    var categories := Tally(Map(rows, Category));
    var issues := QualityIssues(data);
    var levels := Tally(Map(rows, Evidence));
    return Some(ValidatorReport(|data|, |rows|, statuses, SortedItems(categories), issues, SortedItems(levels)));
  }

  lemma KeyBeforeStrictWeak()
    ensures Sorting.StrictWeak(KeyBefore)
  {
    forall a, b | KeyBefore(a, b) ensures !KeyBefore(b, a) {
      Sorting.LexAsymmetric(a.0, b.0);
    }
    forall a, b, c | !KeyBefore(a, b) && !KeyBefore(b, c) ensures !KeyBefore(a, c) {
      if KeyBefore(a, c) {
        Sorting.LexSplit(a.0, b.0, c.0);
      }
    }
  }

  /**
   * The category section: each category of a relevant SNP is listed with the
   * number of relevant SNPs in it, in category order, and the counts add up to
   * the number of relevant SNPs.
   */
  lemma CategoryCounts(lines: seq<string>, table: seq<Reference.SnpRow>, c: string)
    ensures var r := Validated(lines, Some(table)).value;
            var cats := Map(Relevant(table, ScanLines(lines).data), Category);
            multiset(r.categories) == multiset(Counts(cats)) &&
            CountOf(Counts(cats), c) == multiset(cats)[c] &&
            CountTotal(Counts(cats)) == r.relevantFound &&
            forall i, j :: 0 <= i < j < |r.categories| ==> !Sorting.LexLess(r.categories[j].0, r.categories[i].0)
  {
    var cats := Map(Relevant(table, ScanLines(lines).data), Category);
    CountsSpec(cats, c);
    KeyBeforeStrictWeak();
    Sorting.StableSortSorted(Counts(cats), KeyBefore);
  }

  /**
   * The detailed analysis: one status per relevant SNP, whose genotype is the
   * file's for that rsid, marked present exactly when the risk allele occurs
   * in it, case-sensitively.
   */
  lemma StatusesSpec(lines: seq<string>, table: seq<Reference.SnpRow>, i: nat)
    requires i < Validated(lines, Some(table)).value.relevantFound
    ensures var r := Validated(lines, Some(table)).value;
            var data := ScanLines(lines).data;
            var s := r.statuses[i];
            |r.statuses| == r.relevantFound && Get(data, s.rsid) == Some(s.genotype) &&
            (s.riskPresent <==> Contains(s.genotype, s.riskAllele))
  {
    var data := ScanLines(lines).data;
    var rows := Relevant(table, data);
    RelevantInFile(table, data);
    var r := Validated(lines, Some(table)).value;
    assert r.statuses == seq(|rows|, k requires 0 <= k < |rows| => StatusOf(data, rows[k]));
    assert r.statuses[i] == StatusOf(data, rows[i]);
  }

  /** No quality issue is raised exactly when every genotype is made of A, T, C and G only. */
  lemma NoIssuesIffClean(data: Genotypes)
    ensures Issues(data) == [] <==> forall i :: 0 <= i < |data| ==> !HasInvalidBase(data[i])
  {
    if Issues(data) == [] {
      forall i | 0 <= i < |data| ensures !HasInvalidBase(data[i]) {
        assert data[i] in data;
      }
    }
    if forall i :: 0 <= i < |data| ==> !HasInvalidBase(data[i]) {
      var f := Filter(data, HasInvalidBase);
      if f != [] {
        assert f[0] in data && HasInvalidBase(f[0]);
      }
    }
  }
}
