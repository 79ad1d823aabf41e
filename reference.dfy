// The reference tables the analysis reads (snp, the characteristic links
// joined with SkinCharacteristic, the snp_beneficial_ingredients view and
// the caution links joined with IngredientCaution), the three batch map
// builders of AnalysisService and the per-SNP lookups of process_dna.py.
//
// Every query result is the table's rows that satisfy the WHERE clause, in
// table order; the batch and the per-SNP code read the same order.
module Reference {
  import opened Wrappers
  import Seqs

  /** A row of the `snp` table; `snp_id` is the primary key, `rsid` is only indexed. */
  datatype SnpRow = SnpRow(snpId: int, rsid: string, gene: string, riskAllele: string,
                           effect: string, evidenceStrength: string, category: string)

  /** The details both lookups return for an rsid. */
  datatype SnpDetail = SnpDetail(snpId: int, gene: string, riskAllele: string,
                                 effect: string, evidenceStrength: string, category: string)

  function Detail(r: SnpRow): SnpDetail {
    SnpDetail(r.snpId, r.gene, r.riskAllele, r.effect, r.evidenceStrength, r.category)
  }

  datatype Characteristic = Characteristic(name: string, description: string, effectDirection: string, evidenceStrength: string)

  datatype Beneficial = Beneficial(ingredientName: string, ingredientMechanism: string, benefitMechanism: string,
                                   recommendationStrength: string, evidenceLevel: string)

  datatype Caution = Caution(ingredientName: string, riskMechanism: string, alternativeIngredients: string)

  /** A row that attaches an item to a key: a snp_id for link tables, an rsid for the beneficial view. */
  datatype Link<K, T> = Link(key: K, item: T)

  datatype Db = Db(snps: seq<SnpRow>,
                   characteristicLinks: seq<Link<int, Characteristic>>,
                   beneficials: seq<Link<string, Beneficial>>,
                   cautionLinks: seq<Link<int, Caution>>)

  predicate UniqueRsids(snps: seq<SnpRow>) {
    forall i, j :: 0 <= i < j < |snps| ==> snps[i].rsid != snps[j].rsid
  }

  predicate UniqueSnpIds(snps: seq<SnpRow>) {
    forall i, j :: 0 <= i < j < |snps| ==> snps[i].snpId != snps[j].snpId
  }

  function Lookup<K, V>(m: map<K, V>, k: K): Option<V> {
    if k in m then Some(m[k]) else None
  }

  // ---------------------------------------------------------------------
  // SNP details
  // ---------------------------------------------------------------------

  /** `SELECT ... FROM snp WHERE rsid = ANY(:rsids)`. */
  function SnpQuery(snps: seq<SnpRow>, rsids: seq<string>): (r: seq<SnpRow>)
    ensures |r| <= |snps|
  {
    if snps == [] then []
    else SnpQuery(snps[..|snps| - 1], rsids) + (if snps[|snps| - 1].rsid in rsids then [snps[|snps| - 1]] else [])
  }

  /** The dictionary built from result rows: each row overwrites the entry of its rsid. */
  function DetailsMap(rows: seq<SnpRow>): map<string, SnpDetail> {
    if rows == [] then map[]
    else DetailsMap(rows[..|rows| - 1])[rows[|rows| - 1].rsid := Detail(rows[|rows| - 1])]
  }

  /** `get_batch_snp_details`. */
  method BatchSnpDetails(db: Db, rsids: seq<string>) returns (details: map<string, SnpDetail>)
    ensures details == DetailsMap(SnpQuery(db.snps, rsids))
  {
    if rsids == [] {
      NoRsidsNoDetails(db.snps);
      return map[];
    }
    var results := SnpQuery(db.snps, rsids);
    details := map[];
    var i := 0;
    while i < |results|
      invariant 0 <= i <= |results|
      invariant details == DetailsMap(results[..i])
    {
      assert results[..i + 1][..i] == results[..i];
      details := details[results[i].rsid := Detail(results[i])];
      i := i + 1;
    }
    assert results[..i] == results;
  }

  lemma {:induction false} NoRsidsNoDetails(snps: seq<SnpRow>)
    ensures SnpQuery(snps, []) == []
    ensures DetailsMap(SnpQuery(snps, [])) == map[]
  {
    if snps != [] {
      NoRsidsNoDetails(snps[..|snps| - 1]);
    }
  }

  /** An rsid has an entry exactly when some row carries it, and the entry is that of its last row. */
  lemma {:induction false} DetailsMapLastWins(rows: seq<SnpRow>, i: int)
    requires 0 <= i < |rows|
    requires forall j :: i < j < |rows| ==> rows[j].rsid != rows[i].rsid
    ensures rows[i].rsid in DetailsMap(rows) && DetailsMap(rows)[rows[i].rsid] == Detail(rows[i])
  {
    if i < |rows| - 1 {
      DetailsMapLastWins(rows[..|rows| - 1], i);
    }
  }

  lemma {:induction false} DetailsMapKeys(rows: seq<SnpRow>, k: string)
    ensures k in DetailsMap(rows) <==> exists i :: 0 <= i < |rows| && rows[i].rsid == k
  {
    if rows != [] {
      var init := rows[..|rows| - 1];
      DetailsMapKeys(init, k);
      if k in DetailsMap(init) {
        var i :| 0 <= i < |init| && init[i].rsid == k;
        assert rows[i].rsid == k;
      }
      if exists i :: 0 <= i < |rows| && rows[i].rsid == k {
        var i :| 0 <= i < |rows| && rows[i].rsid == k;
        if i < |init| {
          assert init[i].rsid == k;
        }
      }
    }
  }

  /** `get_snp_details` of process_dna.py: the first row with the rsid (`iloc[0]`), or None. */
  function FindSnp(snps: seq<SnpRow>, rsid: string): (r: Option<SnpDetail>)
    ensures r.None? <==> forall i :: 0 <= i < |snps| ==> snps[i].rsid != rsid
    ensures r.Some? ==> exists i :: 0 <= i < |snps| && snps[i].rsid == rsid && r.value == Detail(snps[i]) &&
                                    forall j :: 0 <= j < i ==> snps[j].rsid != rsid
  {
    if snps == [] then None
    else if snps[0].rsid == rsid then Some(Detail(snps[0]))
    else
      var r := FindSnp(snps[1..], rsid);
      assert forall i :: 1 <= i < |snps| ==> snps[i] == snps[1..][i - 1];
      r
  }

  /** Filtering by the requested rsids does not change the entry of a requested rsid. */
  lemma {:induction false} DetailsMapRestrict(snps: seq<SnpRow>, rsids: seq<string>, k: string)
    requires k in rsids
    ensures Lookup(DetailsMap(SnpQuery(snps, rsids)), k) == Lookup(DetailsMap(snps), k)
  {
    if snps != [] {
      var init := snps[..|snps| - 1];
      var last := snps[|snps| - 1];
      DetailsMapRestrict(init, rsids, k);
      if last.rsid in rsids {
        var q := SnpQuery(init, rsids) + [last];
        assert q[..|q| - 1] == SnpQuery(init, rsids);
      } else {
        assert SnpQuery(snps, rsids) == SnpQuery(init, rsids);
      }
    }
  }

  /** With unique rsids the last row of an rsid is its first, so the two lookups agree on every rsid. */
  lemma {:induction false} DetailsMapIsFirst(snps: seq<SnpRow>, k: string)
    requires UniqueRsids(snps)
    ensures Lookup(DetailsMap(snps), k) == FindSnp(snps, k)
  {
    if snps != [] {
      var init := snps[..|snps| - 1];
      var last := snps[|snps| - 1];
      assert UniqueRsids(init);
      DetailsMapIsFirst(init, k);
      FindSnpSnoc(init, last, k);
      if k == last.rsid {
        assert forall i :: 0 <= i < |init| ==> init[i].rsid != k;
      }
    }
  }

  lemma FindSnpSnoc(snps: seq<SnpRow>, x: SnpRow, k: string)
    ensures FindSnp(snps + [x], k) == if FindSnp(snps, k).Some? then FindSnp(snps, k)
                                     else if x.rsid == k then Some(Detail(x)) else None
  {
    var r := FindSnp(snps + [x], k);
    var s := snps + [x];
    if FindSnp(snps, k).Some? {
      var i :| 0 <= i < |snps| && snps[i].rsid == k && FindSnp(snps, k).value == Detail(snps[i]) &&
               forall j :: 0 <= j < i ==> snps[j].rsid != k;
      assert s[i] == snps[i];
      var i' :| 0 <= i' < |s| && s[i'].rsid == k && r.value == Detail(s[i']) && forall j :: 0 <= j < i' ==> s[j].rsid != k;
      assert i == i';
    } else if x.rsid == k {
      assert s[|snps|].rsid == k;
      var i' :| 0 <= i' < |s| && s[i'].rsid == k && r.value == Detail(s[i']) && forall j :: 0 <= j < i' ==> s[j].rsid != k;
      assert i' == |snps|;
    } else {
      assert forall i :: 0 <= i < |s| ==> s[i].rsid != k;
    }
  }

  /**
   * The batch dictionary and the per-SNP lookup agree on every requested
   * rsid, provided no two snp rows share an rsid.
   */
  lemma BatchDetailsAgree(snps: seq<SnpRow>, rsids: seq<string>, k: string)
    requires UniqueRsids(snps)
    requires k in rsids
    ensures Lookup(DetailsMap(SnpQuery(snps, rsids)), k) == FindSnp(snps, k)
  {
    DetailsMapRestrict(snps, rsids, k);
    DetailsMapIsFirst(snps, k);
  }

  /** Without unique rsids the two lookups disagree: the batch keeps the last row, the per-SNP lookup the first. */
  lemma DuplicateRsidsDisagree()
    ensures var snps := [SnpRow(1, "rs1805007", "MC1R", "T", "", "", "Pigmentation"),
                         SnpRow(2, "rs1805007", "MC1R", "C", "", "", "Pigmentation")];
            Lookup(DetailsMap(SnpQuery(snps, ["rs1805007"])), "rs1805007") != FindSnp(snps, "rs1805007")
  {
    var snps := [SnpRow(1, "rs1805007", "MC1R", "T", "", "", "Pigmentation"),
                 SnpRow(2, "rs1805007", "MC1R", "C", "", "", "Pigmentation")];
    assert snps[..1] == [snps[0]];
    assert SnpQuery(snps, ["rs1805007"]) == snps;
  }

  // ---------------------------------------------------------------------
  // Rows attached to a key: characteristics, cautions and beneficials
  // ---------------------------------------------------------------------

  /** The items of the rows with key `k`, in row order. */
  function ItemsOf<K(==), T>(rows: seq<Link<K, T>>, k: K): (r: seq<T>)
    ensures |r| <= |rows|
  {
    if rows == [] then []
    else ItemsOf(rows[..|rows| - 1], k) + (if rows[|rows| - 1].key == k then [rows[|rows| - 1].item] else [])
  }

  lemma {:induction false} ItemsOfEmpty<K, T>(rows: seq<Link<K, T>>, k: K)
    ensures ItemsOf(rows, k) == [] <==> forall i :: 0 <= i < |rows| ==> rows[i].key != k
  {
    if rows != [] {
      ItemsOfEmpty(rows[..|rows| - 1], k);
      assert forall i :: 0 <= i < |rows| - 1 ==> rows[..|rows| - 1][i] == rows[i];
    }
  }

  lemma {:induction false} ItemsOfAppend<K, T>(a: seq<Link<K, T>>, b: seq<Link<K, T>>, k: K)
    ensures ItemsOf(a + b, k) == ItemsOf(a, k) + ItemsOf(b, k)
    decreases |b|
  {
    if b == [] {
      assert a + b == a;
    } else {
      assert (a + b)[..|a + b| - 1] == a + b[..|b| - 1];
      ItemsOfAppend(a, b[..|b| - 1], k);
    }
  }

  /** `... WHERE snp_id = ANY(:snp_ids)` over a link table. */
  function LinkQuery<T>(rows: seq<Link<int, T>>, ids: seq<int>): (r: seq<Link<int, T>>)
    ensures |r| <= |rows|
    ensures forall i :: 0 <= i < |r| ==> r[i].key in ids
  {
    if rows == [] then []
    else LinkQuery(rows[..|rows| - 1], ids) + (if rows[|rows| - 1].key in ids then [rows[|rows| - 1]] else [])
  }

  /** The query keeps all the rows of a requested id and none of any other. */
  lemma {:induction false} LinkQueryItems<T>(rows: seq<Link<int, T>>, ids: seq<int>, k: int)
    ensures ItemsOf(LinkQuery(rows, ids), k) == if k in ids then ItemsOf(rows, k) else []
  {
    if rows != [] {
      var init := rows[..|rows| - 1];
      var last := rows[|rows| - 1];
      LinkQueryItems(init, ids, k);
      ItemsOfAppend(LinkQuery(init, ids), if last.key in ids then [last] else [], k);
    }
  }

  /** The group-by loop: an id gets a list on its first row and every row appends to its id's list. */
  function Grouped<T>(rows: seq<Link<int, T>>): map<int, seq<T>> {
    if rows == [] then map[]
    else
      var g := Grouped(rows[..|rows| - 1]);
      var last := rows[|rows| - 1];
      g[last.key := (if last.key in g then g[last.key] else []) + [last.item]]
  }

  /** An id has a group exactly when it has rows, and its group is its rows' items in order. */
  lemma {:induction false} GroupedSpec<T>(rows: seq<Link<int, T>>, k: int)
    ensures k in Grouped(rows) <==> ItemsOf(rows, k) != []
    ensures k in Grouped(rows) ==> Grouped(rows)[k] == ItemsOf(rows, k)
  {
    if rows != [] {
      GroupedSpec(rows[..|rows| - 1], k);
    }
  }

  /** `get_batch_characteristics`. */
  method BatchCharacteristics(db: Db, snpIds: seq<int>) returns (bySnp: map<int, seq<Characteristic>>)
    ensures bySnp == Grouped(LinkQuery(db.characteristicLinks, snpIds))
  {
    if snpIds == [] {
      NoIdsNoRows(db.characteristicLinks);
      return map[];
    }
    var results := LinkQuery(db.characteristicLinks, snpIds);
    bySnp := map[];
    var i := 0;
    while i < |results|
      invariant 0 <= i <= |results|
      invariant bySnp == Grouped(results[..i])
    {
      assert results[..i + 1][..i] == results[..i];
      var id := results[i].key;
      if id !in bySnp {
        bySnp := bySnp[id := []];
      }
      bySnp := bySnp[id := bySnp[id] + [results[i].item]];
      i := i + 1;
    }
    assert results[..i] == results;
  }

  lemma {:induction false} NoIdsNoRows<T>(rows: seq<Link<int, T>>)
    ensures LinkQuery(rows, []) == []
    ensures Grouped(LinkQuery(rows, [])) == map[]
  {
    if rows != [] {
      NoIdsNoRows(rows[..|rows| - 1]);
    }
  }

  /** `get_related_skin_characteristics`: the linked characteristics of one SNP, in query order. */
  function RelatedCharacteristics(db: Db, snpId: int): (r: seq<Characteristic>)
    ensures |r| <= |db.characteristicLinks|
  {
    ItemsOf(db.characteristicLinks, snpId)
  }

  /** The batch `characteristics_by_snp.get(snp_id, [])` is the per-SNP lookup for every requested id. */
  lemma BatchCharacteristicsAgree(db: Db, snpIds: seq<int>, k: int)
    requires k in snpIds
    ensures (var g := Grouped(LinkQuery(db.characteristicLinks, snpIds));
             if k in g then g[k] else []) == RelatedCharacteristics(db, k)
  {
    GroupedSpec(LinkQuery(db.characteristicLinks, snpIds), k);
    LinkQueryItems(db.characteristicLinks, snpIds, k);
  }

  /** The rsid of the snp row with a given id (the sub-select of the per-SNP beneficial query). */
  function RsidOf(snps: seq<SnpRow>, snpId: int): (r: Option<string>)
    ensures r.None? <==> forall i :: 0 <= i < |snps| ==> snps[i].snpId != snpId
    ensures r.Some? ==> exists i :: 0 <= i < |snps| && snps[i].snpId == snpId && snps[i].rsid == r.value
  {
    if snps == [] then None
    else if snps[0].snpId == snpId then Some(snps[0].rsid)
    else
      assert forall i :: 1 <= i < |snps| ==> snps[i] == snps[1..][i - 1];
      RsidOf(snps[1..], snpId)
  }

  function Tagged<T>(k: int, items: seq<T>): (r: seq<Link<int, T>>)
    ensures |r| == |items|
    ensures forall i :: 0 <= i < |r| ==> r[i] == Link(k, items[i])
  {
    if items == [] then [] else Tagged(k, items[..|items| - 1]) + [Link(k, items[|items| - 1])]
  }

  lemma {:induction false} ItemsOfTagged<T>(k: int, items: seq<T>, q: int)
    ensures ItemsOf(Tagged(k, items), q) == if k == q then items else []
  {
    if items != [] {
      ItemsOfTagged(k, items[..|items| - 1], q);
      assert Tagged(k, items)[..|items| - 1] == Tagged(k, items[..|items| - 1]);
    }
  }

  /**
   * `snp s JOIN snp_beneficial_ingredients bi ON s.rsid = bi.rsid WHERE s.snp_id = ANY(:snp_ids)`:
   * for each requested snp row, its rsid's beneficial rows, tagged with its snp_id.
   */
  function BeneficialQuery(snps: seq<SnpRow>, beneficials: seq<Link<string, Beneficial>>, ids: seq<int>): (r: seq<Link<int, Beneficial>>)
    ensures forall i :: 0 <= i < |r| ==> r[i].key in ids
  {
    if snps == [] then []
    else
      var s := snps[|snps| - 1];
      BeneficialQuery(snps[..|snps| - 1], beneficials, ids) +
        (if s.snpId in ids then Tagged(s.snpId, ItemsOf(beneficials, s.rsid)) else [])
  }

  function BeneficialsFor(snps: seq<SnpRow>, beneficials: seq<Link<string, Beneficial>>, snpId: int): seq<Beneficial> {
    match RsidOf(snps, snpId)
    case Some(rsid) => ItemsOf(beneficials, rsid)
    case None => []
  }

  /** The joined rows of one requested id are the beneficial rows of that snp's rsid. */
  lemma {:induction false} BeneficialQueryItems(snps: seq<SnpRow>, beneficials: seq<Link<string, Beneficial>>, ids: seq<int>, k: int)
    requires UniqueSnpIds(snps)
    requires k in ids
    ensures ItemsOf(BeneficialQuery(snps, beneficials, ids), k) == BeneficialsFor(snps, beneficials, k)
  {
    if snps != [] {
      var init := snps[..|snps| - 1];
      assert UniqueSnpIds(init);
      BeneficialQueryItems(init, beneficials, ids, k);
      BeneficialQueryStep(snps, beneficials, ids, k);
      BeneficialsForSnoc(snps, beneficials, k);
    }
  }

  lemma BeneficialQueryStep(snps: seq<SnpRow>, beneficials: seq<Link<string, Beneficial>>, ids: seq<int>, k: int)
    requires snps != []
    ensures var s := snps[|snps| - 1];
            ItemsOf(BeneficialQuery(snps, beneficials, ids), k) ==
            ItemsOf(BeneficialQuery(snps[..|snps| - 1], beneficials, ids), k) +
            (if s.snpId == k && k in ids then ItemsOf(beneficials, s.rsid) else [])
  {
    var init := snps[..|snps| - 1];
    var s := snps[|snps| - 1];
    var block := if s.snpId in ids then Tagged(s.snpId, ItemsOf(beneficials, s.rsid)) else [];
    assert BeneficialQuery(snps, beneficials, ids) == BeneficialQuery(init, beneficials, ids) + block;
    ItemsOfAppend(BeneficialQuery(init, beneficials, ids), block, k);
    ItemsOfTagged(s.snpId, ItemsOf(beneficials, s.rsid), k);
  }

  lemma BeneficialsForSnoc(snps: seq<SnpRow>, beneficials: seq<Link<string, Beneficial>>, k: int)
    requires snps != [] && UniqueSnpIds(snps)
    ensures var s := snps[|snps| - 1];
            BeneficialsFor(snps, beneficials, k) ==
            if s.snpId == k then ItemsOf(beneficials, s.rsid) else BeneficialsFor(snps[..|snps| - 1], beneficials, k)
    ensures snps[|snps| - 1].snpId == k ==> BeneficialsFor(snps[..|snps| - 1], beneficials, k) == []
  {
    var init := snps[..|snps| - 1];
    var s := snps[|snps| - 1];
    Seqs.InitLast(snps);
    RsidOfSnoc(init, s, k);
    if s.snpId == k {
      forall i | 0 <= i < |init| ensures init[i].snpId != k {
        assert snps[i] == init[i];
      }
      assert RsidOf(init, k) == None;
    }
  }

  lemma RsidOfSnoc(snps: seq<SnpRow>, x: SnpRow, k: int)
    ensures RsidOf(snps + [x], k) == if RsidOf(snps, k).Some? then RsidOf(snps, k)
                                     else if x.snpId == k then Some(x.rsid) else None
    decreases |snps|
  {
    if snps != [] {
      assert (snps + [x])[1..] == snps[1..] + [x];
      RsidOfSnoc(snps[1..], x, k);
    }
  }

  /** What each requested id maps to: its (beneficial, caution) pair. */
  datatype Ingredients = Ingredients(beneficial: seq<Beneficial>, caution: seq<Caution>)

  function IngredientsMap(ids: seq<int>, beneficialRows: seq<Link<int, Beneficial>>, cautionRows: seq<Link<int, Caution>>): map<int, Ingredients> {
    map k | k in ids :: Ingredients(ItemsOf(beneficialRows, k), ItemsOf(cautionRows, k))
  }

  /** `get_batch_ingredients`: every requested id starts with two empty lists, then the rows are appended. */
  method BatchIngredients(db: Db, snpIds: seq<int>) returns (bySnp: map<int, Ingredients>)
    ensures bySnp == IngredientsMap(snpIds, BeneficialQuery(db.snps, db.beneficials, snpIds), LinkQuery(db.cautionLinks, snpIds))
  {
    if snpIds == [] {
      return map[];
    }
    var beneficialRows := BeneficialQuery(db.snps, db.beneficials, snpIds);
    var cautionRows := LinkQuery(db.cautionLinks, snpIds);
    bySnp := map k | k in snpIds :: Ingredients([], []);
    assert beneficialRows[..0] == [];
    assert bySnp == IngredientsMap(snpIds, [], []) by {
      var m := IngredientsMap(snpIds, [], []);
      assert forall k :: k in m ==> m[k] == Ingredients([], []);
    }
    var i := 0;
    while i < |beneficialRows|
      invariant 0 <= i <= |beneficialRows|
      invariant bySnp == IngredientsMap(snpIds, beneficialRows[..i], [])
    {
      assert beneficialRows[..i + 1][..i] == beneficialRows[..i];
      var row := beneficialRows[i];
      var entry := bySnp[row.key];
      bySnp := bySnp[row.key := Ingredients(entry.beneficial + [row.item], entry.caution)];
      IngredientsMapBeneficialStep(snpIds, beneficialRows[..i], row);
      assert beneficialRows[..i + 1] == beneficialRows[..i] + [row];
      i := i + 1;
    }
    assert beneficialRows[..i] == beneficialRows;
    var j := 0;
    while j < |cautionRows|
      invariant 0 <= j <= |cautionRows|
      invariant bySnp == IngredientsMap(snpIds, beneficialRows, cautionRows[..j])
    {
      assert cautionRows[..j + 1][..j] == cautionRows[..j];
      var row := cautionRows[j];
      var entry := bySnp[row.key];
      bySnp := bySnp[row.key := Ingredients(entry.beneficial, entry.caution + [row.item])];
      IngredientsMapCautionStep(snpIds, beneficialRows, cautionRows[..j], row);
      assert cautionRows[..j + 1] == cautionRows[..j] + [row];
      j := j + 1;
    }
    assert cautionRows[..j] == cautionRows;
  }

  lemma IngredientsMapBeneficialStep(ids: seq<int>, rows: seq<Link<int, Beneficial>>, row: Link<int, Beneficial>)
    requires row.key in ids
    ensures var m := IngredientsMap(ids, rows, []);
            IngredientsMap(ids, rows + [row], []) ==
              m[row.key := Ingredients(m[row.key].beneficial + [row.item], m[row.key].caution)]
  {
    var m := IngredientsMap(ids, rows, []);
    var m' := IngredientsMap(ids, rows + [row], []);
    assert (rows + [row])[..|rows|] == rows;
    forall k | k in m'
      ensures m'[k] == m[row.key := Ingredients(m[row.key].beneficial + [row.item], m[row.key].caution)][k]
    {
    }
  }

  lemma IngredientsMapCautionStep(ids: seq<int>, bens: seq<Link<int, Beneficial>>, rows: seq<Link<int, Caution>>, row: Link<int, Caution>)
    requires row.key in ids
    ensures var m := IngredientsMap(ids, bens, rows);
            IngredientsMap(ids, bens, rows + [row]) ==
              m[row.key := Ingredients(m[row.key].beneficial, m[row.key].caution + [row.item])]
  {
    var m := IngredientsMap(ids, bens, rows);
    var m' := IngredientsMap(ids, bens, rows + [row]);
    assert (rows + [row])[..|rows|] == rows;
    forall k | k in m'
      ensures m'[k] == m[row.key := Ingredients(m[row.key].beneficial, m[row.key].caution + [row.item])][k]
    {
    }
  }

  /** `get_ingredient_recommendations` of process_dna.py: one snp_id's beneficial and caution lists. */
  function IngredientRecommendations(db: Db, snpId: int): (r: Ingredients)
    ensures r.caution == [] <==> forall i :: 0 <= i < |db.cautionLinks| ==> db.cautionLinks[i].key != snpId
  {
    ItemsOfEmpty(db.cautionLinks, snpId);
    Ingredients(BeneficialsFor(db.snps, db.beneficials, snpId), ItemsOf(db.cautionLinks, snpId))
  }

  /** Every requested id has an entry in the batch result, and it is the per-SNP pair when snp ids are unique. */
  lemma BatchIngredientsAgree(db: Db, snpIds: seq<int>, k: int)
    requires UniqueSnpIds(db.snps)
    requires k in snpIds
    ensures var m := IngredientsMap(snpIds, BeneficialQuery(db.snps, db.beneficials, snpIds), LinkQuery(db.cautionLinks, snpIds));
            k in m && m[k] == IngredientRecommendations(db, k)
  {
    BeneficialQueryItems(db.snps, db.beneficials, snpIds, k);
    LinkQueryItems(db.cautionLinks, snpIds, k);
  }
}
