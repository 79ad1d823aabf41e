// Matching a user's parsed SNPs against the reference and assembling the
// report: `AnalysisService.process_snp_data` (batched lookups), process_dna.py
// `assemble_report_data` (one lookup per SNP) and generate_skin_report.py
// `assemble_report_data` (the older version without the risk-allele test).
module Matching {
  import opened Wrappers
  import opened PyStr
  import opened Seqs
  import opened DnaParse
  import opened Reference

  /** One entry of `report['mutations']`; the alleles are the user's, as parsed. */
  datatype Mutation = Mutation(gene: string, rsid: string, allele1: string, allele2: string, riskAllele: string,
                               effect: string, evidenceStrength: string, category: string,
                               characteristics: seq<Characteristic>)

  /** The report dict; `summary` is absent (None) unless the assembler adds it. */
  datatype Report = Report(mutations: seq<Mutation>, prioritize: seq<Beneficial>, caution: seq<Caution>,
                           summary: Option<string>)

  const EmptyReport: Report := Report([], [], [], None)

  /** The sentence used when the summary query fails. */
  const FallbackSummary: string := "Your genes reveal how your skin naturally behaves. This report guides you on how to optimize your skincare based on your genetics."

  /** The user's genotype carries the risk allele: `risk_allele.upper() in [allele1.upper(), allele2.upper()]`. */
  predicate RiskPresent(snp: SnpRecord, d: SnpDetail) {
    Upper(d.riskAllele) == Upper(snp.allele1) || Upper(d.riskAllele) == Upper(snp.allele2)
  }

  /** A parsed SNP together with the reference details found for its rsid. */
  datatype Match = Match(snp: SnpRecord, detail: SnpDetail)

  /** How an assembler finds the details of an rsid. */
  type Lookup = string -> Option<SnpDetail>

  /** The batched lookup: the dictionary returned by `get_batch_snp_details`. */
  function MapLookup(details: map<string, SnpDetail>): Lookup {
    rsid => Reference.Lookup(details, rsid)
  }

  /** The per-SNP lookup: `get_snp_details` on the snp table. */
  function TableLookup(snps: seq<SnpRow>): Lookup {
    rsid => FindSnp(snps, rsid)
  }

  /** The SNPs kept, in input order and with repeats: found in the reference and carrying the risk allele. */
  function Matches(lookup: Lookup, parsed: seq<SnpRecord>): (r: seq<Match>)
    ensures |r| <= |parsed|
  {
    if parsed == [] then []
    else
      var s := parsed[|parsed| - 1];
      Matches(lookup, parsed[..|parsed| - 1]) +
        (if lookup(s.rsid).Some? && RiskPresent(s, lookup(s.rsid).value) then [Match(s, lookup(s.rsid).value)] else [])
  }

  lemma MatchesStep(lookup: Lookup, parsed: seq<SnpRecord>, i: nat)
    requires i < |parsed|
    ensures var s := parsed[i];
      Matches(lookup, parsed[..i + 1]) == Matches(lookup, parsed[..i]) +
        (if lookup(s.rsid).Some? && RiskPresent(s, lookup(s.rsid).value) then [Match(s, lookup(s.rsid).value)] else [])
  {
    assert parsed[..i + 1][..i] == parsed[..i];
  }

  lemma {:induction false} MatchesAppend(lookup: Lookup, a: seq<SnpRecord>, b: seq<SnpRecord>)
    ensures Matches(lookup, a + b) == Matches(lookup, a) + Matches(lookup, b)
    decreases |b|
  {
    if b == [] {
      assert a + b == a;
    } else {
      assert (a + b)[..|a + b| - 1] == a + b[..|b| - 1];
      MatchesAppend(lookup, a, b[..|b| - 1]);
    }
  }

  /**
   * A parsed SNP yields a match iff its rsid is found and its alleles carry
   * the risk allele; with `MatchesAppend` this fixes order and repeats.
   */
  lemma MatchesSingle(lookup: Lookup, s: SnpRecord)
    ensures Matches(lookup, [s]) ==
      if lookup(s.rsid).Some? && RiskPresent(s, lookup(s.rsid).value) then [Match(s, lookup(s.rsid).value)] else []
  {
    assert [s][..0] == [];
  }

  lemma {:induction false} MatchesMember(lookup: Lookup, parsed: seq<SnpRecord>, m: Match)
    ensures m in Matches(lookup, parsed) <==>
      exists i :: 0 <= i < |parsed| && parsed[i] == m.snp && lookup(m.snp.rsid) == Some(m.detail) && RiskPresent(m.snp, m.detail)
  {
    if parsed != [] {
      var init := parsed[..|parsed| - 1];
      MatchesMember(lookup, init, m);
      if exists i :: 0 <= i < |init| && init[i] == m.snp && lookup(m.snp.rsid) == Some(m.detail) && RiskPresent(m.snp, m.detail) {
        var i :| 0 <= i < |init| && init[i] == m.snp && lookup(m.snp.rsid) == Some(m.detail) && RiskPresent(m.snp, m.detail);
        assert parsed[i] == init[i];
      }
      if exists i :: 0 <= i < |parsed| && parsed[i] == m.snp && lookup(m.snp.rsid) == Some(m.detail) && RiskPresent(m.snp, m.detail) {
        var i :| 0 <= i < |parsed| && parsed[i] == m.snp && lookup(m.snp.rsid) == Some(m.detail) && RiskPresent(m.snp, m.detail);
        if i < |init| {
          assert init[i] == parsed[i];
        }
      }
    }
  }

  /** Two lookups that agree on the rsids of the input keep the same matches. */
  lemma {:induction false} MatchesCongruent(l1: Lookup, l2: Lookup, parsed: seq<SnpRecord>)
    requires forall i :: 0 <= i < |parsed| ==> l1(parsed[i].rsid) == l2(parsed[i].rsid)
    ensures Matches(l1, parsed) == Matches(l2, parsed)
  {
    if parsed != [] {
      var init := parsed[..|parsed| - 1];
      assert forall i :: 0 <= i < |init| ==> init[i] == parsed[i];
      MatchesCongruent(l1, l2, init);
    }
  }

  /** The mutation entry built for a match. */
  function MutationOf(m: Match, characteristics: seq<Characteristic>): Mutation {
    Mutation(m.detail.gene, m.snp.rsid, m.snp.allele1, m.snp.allele2, m.detail.riskAllele,
             m.detail.effect, m.detail.evidenceStrength, m.detail.category, characteristics)
  }

  /** One mutation per match, in match order. */
  function Mutations(matches: seq<Match>, characteristics: int -> seq<Characteristic>): (r: seq<Mutation>)
    ensures |r| == |matches|
    ensures forall i :: 0 <= i < |r| ==>
      r[i].gene == matches[i].detail.gene && r[i].rsid == matches[i].snp.rsid &&
      r[i].allele1 == matches[i].snp.allele1 && r[i].allele2 == matches[i].snp.allele2 &&
      r[i].riskAllele == matches[i].detail.riskAllele && r[i].effect == matches[i].detail.effect &&
      r[i].evidenceStrength == matches[i].detail.evidenceStrength && r[i].category == matches[i].detail.category &&
      r[i].characteristics == characteristics(matches[i].detail.snpId)
  {
    if matches == [] then []
    else
      var m := matches[|matches| - 1];
      Mutations(matches[..|matches| - 1], characteristics) + [MutationOf(m, characteristics(m.detail.snpId))]
  }

  /** Every matched SNP's beneficial list appended whole, in match order. */
  function Prioritized(matches: seq<Match>, ingredients: int -> Ingredients): seq<Beneficial> {
    if matches == [] then []
    else Prioritized(matches[..|matches| - 1], ingredients) + ingredients(matches[|matches| - 1].detail.snpId).beneficial
  }

  /** Every matched SNP's caution list appended whole, in match order. */
  function Cautioned(matches: seq<Match>, ingredients: int -> Ingredients): seq<Caution> {
    if matches == [] then []
    else Cautioned(matches[..|matches| - 1], ingredients) + ingredients(matches[|matches| - 1].detail.snpId).caution
  }

  /** The lists are concatenations, with no deduplication: two runs of matches give the two lists joined. */
  lemma IngredientListsAppend(a: seq<Match>, b: seq<Match>, ingredients: int -> Ingredients)
    ensures Prioritized(a + b, ingredients) == Prioritized(a, ingredients) + Prioritized(b, ingredients)
    ensures Cautioned(a + b, ingredients) == Cautioned(a, ingredients) + Cautioned(b, ingredients)
  {
    PrioritizedAppend(a, b, ingredients);
    CautionedAppend(a, b, ingredients);
  }

  lemma {:induction false} PrioritizedAppend(a: seq<Match>, b: seq<Match>, ingredients: int -> Ingredients)
    ensures Prioritized(a + b, ingredients) == Prioritized(a, ingredients) + Prioritized(b, ingredients)
    decreases |b|
  {
    if b == [] {
      assert a + b == a;
    } else {
      var front := b[..|b| - 1];
      var x := b[|b| - 1];
      assert (a + b)[..|a + b| - 1] == a + front;
      assert (a + b)[|a + b| - 1] == x;
      PrioritizedAppend(a, front, ingredients);
      AppendAssoc(Prioritized(a, ingredients), Prioritized(front, ingredients), ingredients(x.detail.snpId).beneficial);
    }
  }

  lemma {:induction false} CautionedAppend(a: seq<Match>, b: seq<Match>, ingredients: int -> Ingredients)
    ensures Cautioned(a + b, ingredients) == Cautioned(a, ingredients) + Cautioned(b, ingredients)
    decreases |b|
  {
    if b == [] {
      assert a + b == a;
    } else {
      var front := b[..|b| - 1];
      var x := b[|b| - 1];
      assert (a + b)[..|a + b| - 1] == a + front;
      assert (a + b)[|a + b| - 1] == x;
      CautionedAppend(a, front, ingredients);
      AppendAssoc(Cautioned(a, ingredients), Cautioned(front, ingredients), ingredients(x.detail.snpId).caution);
    }
  }

  /** The number of prioritised ingredients is the sum of the matched SNPs' list lengths. */
  lemma {:induction false} PrioritizedLength(matches: seq<Match>, ingredients: int -> Ingredients)
    ensures |Prioritized(matches, ingredients)| == Sum(Map(matches, (m: Match) => |ingredients(m.detail.snpId).beneficial|))
  {
    if matches != [] {
      var init := matches[..|matches| - 1];
      var last := matches[|matches| - 1];
      var f := (m: Match) => |ingredients(m.detail.snpId).beneficial|;
      PrioritizedLength(init, ingredients);
      assert matches == init + [last];
      MapAppend(init, [last], f);
      SumAppend(Map(init, f), Map([last], f));
    }
  }

  lemma {:induction false} AssemblyCongruent(matches: seq<Match>, c1: int -> seq<Characteristic>, c2: int -> seq<Characteristic>,
                                             i1: int -> Ingredients, i2: int -> Ingredients)
    requires forall i :: 0 <= i < |matches| ==> c1(matches[i].detail.snpId) == c2(matches[i].detail.snpId)
    requires forall i :: 0 <= i < |matches| ==> i1(matches[i].detail.snpId) == i2(matches[i].detail.snpId)
    ensures Mutations(matches, c1) == Mutations(matches, c2)
    ensures Prioritized(matches, i1) == Prioritized(matches, i2)
    ensures Cautioned(matches, i1) == Cautioned(matches, i2)
  {
    if matches != [] {
      var init := matches[..|matches| - 1];
      assert forall i :: 0 <= i < |init| ==> init[i] == matches[i];
      AssemblyCongruent(init, c1, c2, i1, i2);
    }
  }

  function RecordRsid(s: SnpRecord): string { s.rsid }
  function MatchSnpId(m: Match): int { m.detail.snpId }
  function MutationRsid(m: Mutation): string { m.rsid }

  function Quote(v: string): string { "\"" + v + "\"" }

  /** The text-array literal handed to the summary function: `'{' + ','.join('"' + v + '"') + '}'`. */
  function VariantsStr(rsids: seq<string>): (r: string)
    ensures |r| >= 2 && r[0] == '{' && r[|r| - 1] == '}'
  {
    "{" + Join(Map(rsids, Quote), ",") + "}"
  }

  /** Between the braces, splitting on ',' gives back each rsid quoted, in order, when no rsid holds a ','. */
  lemma VariantsStrRoundTrip(rsids: seq<string>)
    requires |rsids| >= 1
    requires forall i :: 0 <= i < |rsids| ==> ',' !in rsids[i]
    ensures var r := VariantsStr(rsids); Split(r[1..|r| - 1], ',') == Map(rsids, Quote)
  {
    var parts := Map(rsids, Quote);
    forall i | 0 <= i < |parts| ensures ',' !in parts[i] {
      assert parts[i] == "\"" + rsids[i] + "\"";
    }
    SplitJoin(parts, ',');
    var r := VariantsStr(rsids);
    assert r[1..|r| - 1] == Join(parts, ",");
  }

  /** Stand-in for the SQL summary functions: the summary text, or None when the query fails. */
  type Summarizer = string -> Option<string>

  /** AnalysisService `get_dynamic_summary`: the query's text, or the fixed sentence on any failure. */
  function ServiceSummary(summarize: Summarizer, mutations: seq<Mutation>): (r: string)
    ensures summarize(VariantsStr(Map(mutations, MutationRsid))).None? ==> r == FallbackSummary
    ensures summarize(VariantsStr(Map(mutations, MutationRsid))).Some? ==> r == summarize(VariantsStr(Map(mutations, MutationRsid))).value
  {
    summarize(VariantsStr(Map(mutations, MutationRsid))).GetOr(FallbackSummary)
  }

  datatype SummaryError = SummaryQueryFailed

  /** process_dna.py `get_dynamic_summary`: the same argument, but a failure is re-raised. */
  function PerItemSummary(summarize: Summarizer, mutations: seq<Mutation>): (r: Result<string, SummaryError>)
    ensures r.Err? <==> summarize(VariantsStr(Map(mutations, MutationRsid))).None?
    ensures r.Ok? ==> r.value == ServiceSummary(summarize, mutations)
  {
    match summarize(VariantsStr(Map(mutations, MutationRsid)))
    case Some(text) => Ok(text)
    case None => Err(SummaryQueryFailed)
  }

  // ---------------------------------------------------------------------
  // AnalysisService.process_snp_data
  // ---------------------------------------------------------------------

  function CharacteristicsFrom(bySnp: map<int, seq<Characteristic>>): int -> seq<Characteristic> {
    id => if id in bySnp then bySnp[id] else []
  }

  function IngredientsFrom(bySnp: map<int, Ingredients>): int -> Ingredients {
    id => if id in bySnp then bySnp[id] else Ingredients([], [])
  }

  function ServiceMatches(db: Db, parsed: seq<SnpRecord>): seq<Match> {
    Matches(MapLookup(DetailsMap(SnpQuery(db.snps, Map(parsed, RecordRsid)))), parsed)
  }

  /** The report `process_snp_data` returns, from the reference and the summary query. */
  function ServiceReport(db: Db, parsed: seq<SnpRecord>, summarize: Summarizer): Report {
    var matches := ServiceMatches(db, parsed);
    if matches == [] then EmptyReport
    else
      var ids := Map(matches, MatchSnpId);
      var chars := Grouped(LinkQuery(db.characteristicLinks, ids));
      var ings := IngredientsMap(ids, BeneficialQuery(db.snps, db.beneficials, ids), LinkQuery(db.cautionLinks, ids));
      var mutations := Mutations(matches, CharacteristicsFrom(chars));
      Report(mutations, Prioritized(matches, IngredientsFrom(ings)), Cautioned(matches, IngredientsFrom(ings)),
             Some(ServiceSummary(summarize, mutations)))
  }

  /** The filter loop of `process_snp_data`: `matching_snps` and `matching_snp_ids`. */
  method SelectMatches(parsed: seq<SnpRecord>, details: map<string, SnpDetail>) returns (matches: seq<Match>, matchingIds: seq<int>)
    ensures matches == Matches(MapLookup(details), parsed)
    ensures matchingIds == Map(matches, MatchSnpId)
  {
    matches := [];
    matchingIds := [];
    var i := 0;
    while i < |parsed|
      invariant 0 <= i <= |parsed|
      invariant matches == Matches(MapLookup(details), parsed[..i])
      invariant matchingIds == Map(matches, MatchSnpId)
    {
      MatchesStep(MapLookup(details), parsed, i);
      var found := SelectOne(parsed[i], details);
      MapAppend(matches, found, MatchSnpId);
      matches := matches + found;
      matchingIds := matchingIds + Map(found, MatchSnpId);
      i := i + 1;
    }
    assert parsed[..i] == parsed;
  }

  /** One pass of the filter loop: the SNP, when its rsid has details and it carries the risk allele. */
  method SelectOne(snp: SnpRecord, details: map<string, SnpDetail>) returns (found: seq<Match>)
    ensures var d := MapLookup(details)(snp.rsid);
            found == if d.Some? && RiskPresent(snp, d.value) then [Match(snp, d.value)] else []
  {
    assert MapLookup(details)(snp.rsid) == Reference.Lookup(details, snp.rsid);
    found := [];
    if snp.rsid in details {
      var detail := details[snp.rsid];
      if RiskPresent(snp, detail) {
        found := [Match(snp, detail)];
      }
    }
  }

  /** The assembly loop of `process_snp_data`, over the two batch dictionaries. */
  method AssembleMatches(matches: seq<Match>, characteristicsBySnp: map<int, seq<Characteristic>>, ingredientsBySnp: map<int, Ingredients>)
    returns (mutations: seq<Mutation>, prioritize: seq<Beneficial>, caution: seq<Caution>)
    ensures mutations == Mutations(matches, CharacteristicsFrom(characteristicsBySnp))
    ensures prioritize == Prioritized(matches, IngredientsFrom(ingredientsBySnp))
    ensures caution == Cautioned(matches, IngredientsFrom(ingredientsBySnp))
  {
    mutations := [];
    prioritize := [];
    caution := [];
    var j := 0;
    while j < |matches|
      invariant 0 <= j <= |matches|
      invariant mutations == Mutations(matches[..j], CharacteristicsFrom(characteristicsBySnp))
      invariant prioritize == Prioritized(matches[..j], IngredientsFrom(ingredientsBySnp))
      invariant caution == Cautioned(matches[..j], IngredientsFrom(ingredientsBySnp))
    {
      var m := matches[j];
      AssembleStep(matches, j, CharacteristicsFrom(characteristicsBySnp), IngredientsFrom(ingredientsBySnp));
      var snpId := m.detail.snpId;
      var characteristics := if snpId in characteristicsBySnp then characteristicsBySnp[snpId] else [];
      mutations := mutations + [MutationOf(m, characteristics)];
      if snpId in ingredientsBySnp {
        prioritize := prioritize + ingredientsBySnp[snpId].beneficial;
        caution := caution + ingredientsBySnp[snpId].caution;
      }
      j := j + 1;
    }
    assert matches[..j] == matches;
  }

  lemma AssembleStep(matches: seq<Match>, j: nat, characteristics: int -> seq<Characteristic>, ingredients: int -> Ingredients)
    requires j < |matches|
    ensures var id := matches[j].detail.snpId;
            Mutations(matches[..j + 1], characteristics) == Mutations(matches[..j], characteristics) + [MutationOf(matches[j], characteristics(id))] &&
            Prioritized(matches[..j + 1], ingredients) == Prioritized(matches[..j], ingredients) + ingredients(id).beneficial &&
            Cautioned(matches[..j + 1], ingredients) == Cautioned(matches[..j], ingredients) + ingredients(id).caution
  {
    assert matches[..j + 1][..j] == matches[..j];
  }

  /** `process_snp_data`: one batch lookup, the risk-allele filter, two more batch lookups, then assembly. */
  method ProcessSnpData(db: Db, parsed: seq<SnpRecord>, summarize: Summarizer) returns (report: Report)
    ensures report == ServiceReport(db, parsed, summarize)
  {
    var rsids := Map(parsed, RecordRsid);
    var details := BatchSnpDetails(db, rsids);
    var matches, matchingIds := SelectMatches(parsed, details);
    if matches == [] {
      return EmptyReport;
    }
    var characteristicsBySnp := BatchCharacteristics(db, matchingIds);
    var ingredientsBySnp := BatchIngredients(db, matchingIds);
    var mutations, prioritize, caution := AssembleMatches(matches, characteristicsBySnp, ingredientsBySnp);
    report := Report(mutations, prioritize, caution, None);
    if |mutations| > 0 {
      report := report.(summary := Some(ServiceSummary(summarize, mutations)));
    }
  }

  /** With no qualifying SNP the result is the bare skeleton: no mutations, empty lists, no summary. */
  lemma NoMatchReport(db: Db, parsed: seq<SnpRecord>, summarize: Summarizer)
    requires ServiceMatches(db, parsed) == []
    ensures ServiceReport(db, parsed, summarize) == Report([], [], [], None)
  {
  }

  /** A summary is present iff there is at least one mutation, and it is the query's text or the fallback. */
  lemma ServiceSummaryPresent(db: Db, parsed: seq<SnpRecord>, summarize: Summarizer)
    ensures var r := ServiceReport(db, parsed, summarize);
            (r.summary.Some? <==> |r.mutations| > 0) &&
            (r.summary.Some? ==> r.summary.value == ServiceSummary(summarize, r.mutations))
  {
  }

  /** The report's mutations are exactly the qualifying parsed SNPs, in input order. */
  lemma ServiceMutationsAreMatches(db: Db, parsed: seq<SnpRecord>, summarize: Summarizer)
    ensures var r := ServiceReport(db, parsed, summarize);
            var matches := ServiceMatches(db, parsed);
            |r.mutations| == |matches| &&
            forall i :: 0 <= i < |matches| ==>
              (r.mutations[i].rsid == matches[i].snp.rsid &&
               r.mutations[i].allele1 == matches[i].snp.allele1 && r.mutations[i].allele2 == matches[i].snp.allele2)
  {
  }

  /**
   * A parsed SNP's rsid is a key of the batch reference map exactly when
   * the snp table holds that rsid; the map's entry is what the filter tests.
   */
  lemma ServiceLookupFinds(db: Db, parsed: seq<SnpRecord>, i: int)
    requires 0 <= i < |parsed|
    ensures var details := DetailsMap(SnpQuery(db.snps, Map(parsed, RecordRsid)));
            parsed[i].rsid in details <==> exists j :: 0 <= j < |db.snps| && db.snps[j].rsid == parsed[i].rsid
  {
    var rsids := Map(parsed, RecordRsid);
    assert rsids[i] == parsed[i].rsid;
    DetailsMapRestrict(db.snps, rsids, parsed[i].rsid);
    DetailsMapKeys(db.snps, parsed[i].rsid);
  }

  // ---------------------------------------------------------------------
  // process_dna.py assemble_report_data: one lookup per SNP
  // ---------------------------------------------------------------------

  function TableCharacteristics(db: Db): int -> seq<Characteristic> {
    id => RelatedCharacteristics(db, id)
  }

  function TableIngredients(db: Db): int -> Ingredients {
    id => IngredientRecommendations(db, id)
  }

  /** The report `assemble_report_data` returns: the same rule, looked up row by row, never a summary. */
  function PerItemReport(db: Db, parsed: seq<SnpRecord>): Report {
    var matches := Matches(TableLookup(db.snps), parsed);
    Report(Mutations(matches, TableCharacteristics(db)), Prioritized(matches, TableIngredients(db)),
           Cautioned(matches, TableIngredients(db)), None)
  }

  method AssembleReportData(db: Db, parsed: seq<SnpRecord>) returns (report: Report)
    ensures report == PerItemReport(db, parsed)
  {
    ghost var matches: seq<Match> := [];
    var mutations: seq<Mutation> := [];
    var prioritize: seq<Beneficial> := [];
    var caution: seq<Caution> := [];
    var i := 0;
    while i < |parsed|
      invariant 0 <= i <= |parsed|
      invariant matches == Matches(TableLookup(db.snps), parsed[..i])
      invariant mutations == Mutations(matches, TableCharacteristics(db))
      invariant prioritize == Prioritized(matches, TableIngredients(db))
      invariant caution == Cautioned(matches, TableIngredients(db))
    {
      var snp := parsed[i];
      assert parsed[..i + 1][..i] == parsed[..i];
      var detail := FindSnp(db.snps, snp.rsid);
      if detail.Some? && RiskPresent(snp, detail.value) {
        var m := Match(snp, detail.value);
        assert (matches + [m])[..|matches|] == matches;
        matches := matches + [m];
        mutations := mutations + [MutationOf(m, RelatedCharacteristics(db, detail.value.snpId))];
        var ingredients := IngredientRecommendations(db, detail.value.snpId);
        prioritize := prioritize + ingredients.beneficial;
        caution := caution + ingredients.caution;
      }
      i := i + 1;
    }
    assert parsed[..i] == parsed;
    report := Report(mutations, prioritize, caution, None);
  }

  /**
   * The batched service and the per-SNP assembler build the same mutations
   * and the same ingredient lists whenever rsids and snp ids are unique in
   * the snp table; only the service adds a summary.
   */
  lemma BatchEqualsPerItem(db: Db, parsed: seq<SnpRecord>, summarize: Summarizer)
    requires UniqueRsids(db.snps) && UniqueSnpIds(db.snps)
    ensures var s := ServiceReport(db, parsed, summarize);
            var p := PerItemReport(db, parsed);
            s.mutations == p.mutations && s.prioritize == p.prioritize && s.caution == p.caution
  {
    var rsids := Map(parsed, RecordRsid);
    var details := DetailsMap(SnpQuery(db.snps, rsids));
    forall i | 0 <= i < |parsed|
      ensures MapLookup(details)(parsed[i].rsid) == TableLookup(db.snps)(parsed[i].rsid)
    {
      assert rsids[i] == parsed[i].rsid;
      BatchDetailsAgree(db.snps, rsids, parsed[i].rsid);
    }
    MatchesCongruent(MapLookup(details), TableLookup(db.snps), parsed);
    var matches := ServiceMatches(db, parsed);
    if matches != [] {
      var ids := Map(matches, MatchSnpId);
      var chars := Grouped(LinkQuery(db.characteristicLinks, ids));
      var ings := IngredientsMap(ids, BeneficialQuery(db.snps, db.beneficials, ids), LinkQuery(db.cautionLinks, ids));
      forall i | 0 <= i < |matches|
        ensures CharacteristicsFrom(chars)(matches[i].detail.snpId) == TableCharacteristics(db)(matches[i].detail.snpId)
        ensures IngredientsFrom(ings)(matches[i].detail.snpId) == TableIngredients(db)(matches[i].detail.snpId)
      {
        assert ids[i] == matches[i].detail.snpId;
        BatchCharacteristicsAgree(db, ids, ids[i]);
        BatchIngredientsAgree(db, ids, ids[i]);
      }
      AssemblyCongruent(matches, CharacteristicsFrom(chars), TableCharacteristics(db), IngredientsFrom(ings), TableIngredients(db));
    }
  }

  // ---------------------------------------------------------------------
  // generate_skin_report.py assemble_report_data: no risk-allele test
  // ---------------------------------------------------------------------

  /** A mutation of the older report: no allele fields. */
  datatype LegacyMutation = LegacyMutation(gene: string, rsid: string, riskAllele: string, effect: string,
                                           evidenceStrength: string, category: string,
                                           characteristics: seq<Characteristic>)

  /** The older report has exactly the mutations and the two lists; it has no summary field. */
  datatype LegacyReport = LegacyReport(mutations: seq<LegacyMutation>, prioritize: seq<Beneficial>, caution: seq<Caution>)

  /** Every parsed SNP whose rsid is found, whatever the alleles. */
  function Found(lookup: Lookup, parsed: seq<SnpRecord>): (r: seq<Match>)
    ensures |r| <= |parsed|
  {
    if parsed == [] then []
    else
      var s := parsed[|parsed| - 1];
      Found(lookup, parsed[..|parsed| - 1]) + (if lookup(s.rsid).Some? then [Match(s, lookup(s.rsid).value)] else [])
  }

  function LegacyMutationOf(m: Match, characteristics: seq<Characteristic>): LegacyMutation {
    LegacyMutation(m.detail.gene, m.snp.rsid, m.detail.riskAllele, m.detail.effect, m.detail.evidenceStrength,
                   m.detail.category, characteristics)
  }

  function LegacyMutations(found: seq<Match>, db: Db): (r: seq<LegacyMutation>)
    ensures |r| == |found|
    ensures forall i :: 0 <= i < |r| ==>
      (r[i].gene == found[i].detail.gene && r[i].rsid == found[i].snp.rsid &&
       r[i].riskAllele == found[i].detail.riskAllele && r[i].effect == found[i].detail.effect &&
       r[i].evidenceStrength == found[i].detail.evidenceStrength && r[i].category == found[i].detail.category &&
       r[i].characteristics == RelatedCharacteristics(db, found[i].detail.snpId))
  {
    if found == [] then []
    else
      var m := found[|found| - 1];
      LegacyMutations(found[..|found| - 1], db) + [LegacyMutationOf(m, RelatedCharacteristics(db, m.detail.snpId))]
  }

  function LegacyReportOf(db: Db, parsed: seq<SnpRecord>): LegacyReport {
    var found := Found(TableLookup(db.snps), parsed);
    LegacyReport(LegacyMutations(found, db), Prioritized(found, TableIngredients(db)), Cautioned(found, TableIngredients(db)))
  }

  method AssembleLegacyReport(db: Db, parsed: seq<SnpRecord>) returns (report: LegacyReport)
    ensures report == LegacyReportOf(db, parsed)
  {
    ghost var found: seq<Match> := [];
    var mutations: seq<LegacyMutation> := [];
    var prioritize: seq<Beneficial> := [];
    var caution: seq<Caution> := [];
    var i := 0;
    while i < |parsed|
      invariant 0 <= i <= |parsed|
      invariant found == Found(TableLookup(db.snps), parsed[..i])
      invariant mutations == LegacyMutations(found, db)
      invariant prioritize == Prioritized(found, TableIngredients(db))
      invariant caution == Cautioned(found, TableIngredients(db))
    {
      var snp := parsed[i];
      assert parsed[..i + 1][..i] == parsed[..i];
      var detail := FindSnp(db.snps, snp.rsid);
      if detail.Some? {
        var m := Match(snp, detail.value);
        assert (found + [m])[..|found|] == found;
        found := found + [m];
        mutations := mutations + [LegacyMutationOf(m, RelatedCharacteristics(db, detail.value.snpId))];
        var ingredients := IngredientRecommendations(db, detail.value.snpId);
        prioritize := prioritize + ingredients.beneficial;
        caution := caution + ingredients.caution;
      }
      i := i + 1;
    }
    assert parsed[..i] == parsed;
    report := LegacyReport(mutations, prioritize, caution);
  }

  function IsRisky(m: Match): bool { RiskPresent(m.snp, m.detail) }

  /** The risk-allele rule keeps exactly the found SNPs that carry the risk allele, in the same order. */
  lemma {:induction false} MatchesFilterFound(lookup: Lookup, parsed: seq<SnpRecord>)
    ensures Matches(lookup, parsed) == Filter(Found(lookup, parsed), IsRisky)
  {
    if parsed != [] {
      var init := parsed[..|parsed| - 1];
      var s := parsed[|parsed| - 1];
      MatchesFilterFound(lookup, init);
      var tail := if lookup(s.rsid).Some? then [Match(s, lookup(s.rsid).value)] else [];
      assert Found(lookup, parsed) == Found(lookup, init) + tail;
      FilterAppend(Found(lookup, init), tail, IsRisky);
      if tail != [] {
        assert tail[1..] == [];
      }
      assert Filter(tail, IsRisky) ==
             if lookup(s.rsid).Some? && RiskPresent(s, lookup(s.rsid).value) then [Match(s, lookup(s.rsid).value)] else [];
    }
  }

  /** The older assembler ignores the user's alleles: any allele change leaves its report unchanged. */
  lemma {:induction false} LegacyIgnoresAlleles(db: Db, parsed: seq<SnpRecord>, other: seq<SnpRecord>)
    requires |other| == |parsed|
    requires forall i :: 0 <= i < |parsed| ==> other[i].rsid == parsed[i].rsid
    ensures LegacyReportOf(db, other).mutations == LegacyReportOf(db, parsed).mutations
    ensures LegacyReportOf(db, other).prioritize == LegacyReportOf(db, parsed).prioritize
    ensures LegacyReportOf(db, other).caution == LegacyReportOf(db, parsed).caution
  {
    FoundIgnoresAlleles(TableLookup(db.snps), parsed, other);
    var f1 := Found(TableLookup(db.snps), parsed);
    var f2 := Found(TableLookup(db.snps), other);
    LegacyMutationsSameRsids(f1, f2, db);
    PrioritizedSameDetails(f1, f2, TableIngredients(db));
  }

  lemma {:induction false} FoundIgnoresAlleles(lookup: Lookup, parsed: seq<SnpRecord>, other: seq<SnpRecord>)
    requires |other| == |parsed|
    requires forall i :: 0 <= i < |parsed| ==> other[i].rsid == parsed[i].rsid
    ensures var f1 := Found(lookup, parsed); var f2 := Found(lookup, other);
            |f1| == |f2| && forall i :: 0 <= i < |f1| ==> (f1[i].snp.rsid == f2[i].snp.rsid && f1[i].detail == f2[i].detail)
  {
    if parsed != [] {
      var n := |parsed| - 1;
      assert forall i :: 0 <= i < n ==> other[..n][i].rsid == parsed[..n][i].rsid;
      FoundIgnoresAlleles(lookup, parsed[..n], other[..n]);
      var s1, s2 := parsed[n], other[n];
      var t1 := if lookup(s1.rsid).Some? then [Match(s1, lookup(s1.rsid).value)] else [];
      var t2 := if lookup(s2.rsid).Some? then [Match(s2, lookup(s2.rsid).value)] else [];
      SameMatchesAppend(Found(lookup, parsed[..n]), Found(lookup, other[..n]), t1, t2);
    }
  }

  /** Lists that agree on each match's rsID and detail still agree after each is extended by agreeing lists. */
  lemma SameMatchesAppend(a1: seq<Match>, a2: seq<Match>, b1: seq<Match>, b2: seq<Match>)
    requires |a1| == |a2| && forall i :: 0 <= i < |a1| ==> a1[i].snp.rsid == a2[i].snp.rsid && a1[i].detail == a2[i].detail
    requires |b1| == |b2| && forall i :: 0 <= i < |b1| ==> b1[i].snp.rsid == b2[i].snp.rsid && b1[i].detail == b2[i].detail
    ensures forall i :: 0 <= i < |a1 + b1| ==>
              (a1 + b1)[i].snp.rsid == (a2 + b2)[i].snp.rsid && (a1 + b1)[i].detail == (a2 + b2)[i].detail
  {
  }

  lemma {:induction false} LegacyMutationsSameRsids(f1: seq<Match>, f2: seq<Match>, db: Db)
    requires |f1| == |f2| && forall i :: 0 <= i < |f1| ==> f1[i].snp.rsid == f2[i].snp.rsid && f1[i].detail == f2[i].detail
    ensures LegacyMutations(f1, db) == LegacyMutations(f2, db)
  {
    if f1 != [] {
      var n := |f1| - 1;
      LegacyMutationsSameRsids(f1[..n], f2[..n], db);
    }
  }

  lemma {:induction false} PrioritizedSameDetails(f1: seq<Match>, f2: seq<Match>, ingredients: int -> Ingredients)
    requires |f1| == |f2| && forall i :: 0 <= i < |f1| ==> f1[i].detail == f2[i].detail
    ensures Prioritized(f1, ingredients) == Prioritized(f2, ingredients)
    ensures Cautioned(f1, ingredients) == Cautioned(f2, ingredients)
  {
    if f1 != [] {
      var n := |f1| - 1;
      PrioritizedSameDetails(f1[..n], f2[..n], ingredients);
    }
  }
}
