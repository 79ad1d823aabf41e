// fastapi_migration/database/seed.py: the reference tables seeded from the CSV
// files of seed_data/csv. Each `seed_*` function leaves a table that already
// has rows alone, skips an empty or missing CSV, and otherwise adds one row
// per CSV row and commits; the link tables resolve the names in their CSV rows
// to rows of the tables they join, skipping rows whose names do not resolve.
//
// The database is a map from table name to rows. A row's id is its position
// in its table; the entity rows keep the columns of the CSV row they were
// built from. A `KeyError` from a CSV without a column the loop reads, or an
// `IntegrityError` from two links with the same (source, target) primary key,
// escapes `seed_all`; the rows added but not committed in that call are
// discarded.
module Seed {
  import opened Wrappers
  import opened Seqs
  import opened CsvRows
  import SeedUtils

  datatype Row = Entity(columns: DictRow) | Link(source: nat, target: nat, attributes: seq<Option<string>>)

  type Db = map<string, seq<Row>>

  /** The rows of a table; a table that is not in the map has none. */
  function Rows(db: Db, table: string): seq<Row> {
    if table in db then db[table] else []
  }

  /** The CSV files and the directory that holds seed_utils.py. */
  datatype Env = Env(files: SeedUtils.CsvFiles, moduleDir: string)

  function Data(env: Env, csv: string): seq<DictRow> {
    SeedUtils.CsvData(env.files, env.moduleDir, csv)
  }

  /** A reference of a link row: the CSV column with the name, the table it names a row of, and that table's name column. */
  datatype Ref = Ref(key: string, table: string, column: string)

  /** The two references of a link table and the CSV columns copied into each link. */
  datatype LinkSpec = LinkSpec(source: Ref, target: Ref, attributes: seq<string>)

  /** One `seed_*` function. */
  datatype Step =
    | SeedCore(table: string, csv: string)
    | SeedLinks(table: string, csv: string, spec: LinkSpec)

  // ---------------------------------------------------------------------------
  // Resolving names (seed.py:188-211 and its four copies)
  // ---------------------------------------------------------------------------

  /**
   * `T.column == name` holds for a row. SQLAlchemy compiles a comparison with
   * `None` to `IS NULL`, so a missing name finds a row whose column is NULL.
   */
  predicate Matches(row: Row, column: string, name: Option<string>) {
    row.Entity? && Value(row.columns, column) == name
  }

  /** `session.query(T).filter(T.column == name).first()`, as a position in `rows`. */
  function Find(rows: seq<Row>, column: string, name: Option<string>): (r: Option<nat>)
    ensures r.Some? ==> r.value < |rows| && Matches(rows[r.value], column, name) &&
                        forall k :: 0 <= k < r.value ==> !Matches(rows[k], column, name)
    ensures r.None? ==> forall k :: 0 <= k < |rows| ==> !Matches(rows[k], column, name)
  {
    if rows == [] then None
    else if Matches(rows[0], column, name) then Some(0)
    else
      var r := Find(rows[1..], column, name);
      if r.Some? then Some(r.value + 1) else None
  }

  /** `[row[key] for key in keys]`, or the first key the row lacks. */
  function Attributes(row: DictRow, keys: seq<string>): (r: Result<seq<Option<string>>, string>)
    ensures r.Ok? ==> |r.value| == |keys|
  {
    if keys == [] then Ok([])
    else
      var v := Get(row, keys[0]);
      if v.None? then Err(keys[0])
      else
        var rest := Attributes(row, keys[1..]);
        if rest.Err? then rest else Ok([v.value] + rest.value)
  }

  datatype LinkResult = KeyMissing(key: string) | Unresolved | Resolved(link: Row)

  /**
   * One iteration of a link loop: read both names (a missing column raises),
   * find both rows (either missing skips the CSV row), then read the copied
   * columns (a missing one raises) and build the link.
   */
  function LinkOf(source: seq<Row>, target: seq<Row>, spec: LinkSpec, row: DictRow): LinkResult {
    var sourceName := Get(row, spec.source.key);
    var targetName := Get(row, spec.target.key);
    if sourceName.None? then KeyMissing(spec.source.key)
    else if targetName.None? then KeyMissing(spec.target.key)
    else
      var i := Find(source, spec.source.column, sourceName.value);
      var j := Find(target, spec.target.column, targetName.value);
      if i.None? || j.None? then Unresolved
      else
        var attributes := Attributes(row, spec.attributes);
        if attributes.Err? then KeyMissing(attributes.error)
        else Resolved(Link(i.value, j.value, attributes.value))
  }

  /** The links the loop adds for `data`, or the key of the `KeyError` that ends it. */
  function Resolve(source: seq<Row>, target: seq<Row>, spec: LinkSpec, data: seq<DictRow>): Result<seq<Row>, string> {
    if data == [] then Ok([])
    else
      var prev := Resolve(source, target, spec, data[..|data| - 1]);
      if prev.Err? then prev
      else
        match LinkOf(source, target, spec, data[|data| - 1])
        case KeyMissing(key) => Err(key)
        case Unresolved => prev
        case Resolved(link) => Ok(prev.value + [link])
  }

  lemma ResolveStep(source: seq<Row>, target: seq<Row>, spec: LinkSpec, data: seq<DictRow>, i: nat)
    requires i < |data|
    ensures Resolve(source, target, spec, data[..i + 1]) ==
            var prev := Resolve(source, target, spec, data[..i]);
            if prev.Err? then prev
            else
              match LinkOf(source, target, spec, data[i])
              case KeyMissing(key) => Err(key)
              case Unresolved => prev
              case Resolved(link) => Ok(prev.value + [link])
  {
    assert data[..i + 1][..i] == data[..i];
  }

  /** A CSV row has every column the loop reads from it. */
  predicate HasColumns(spec: LinkSpec, row: DictRow) {
    Get(row, spec.source.key).Some? && Get(row, spec.target.key).Some? &&
    Attributes(row, spec.attributes).Ok?
  }

  /** Both names of a CSV row name existing rows. */
  predicate Resolvable(source: seq<Row>, target: seq<Row>, spec: LinkSpec, row: DictRow) {
    Find(source, spec.source.column, Value(row, spec.source.key)).Some? &&
    Find(target, spec.target.column, Value(row, spec.target.key)).Some?
  }

  /** The link a resolvable row gives: the first rows holding its names, and its copied columns. */
  function LinkFor(source: seq<Row>, target: seq<Row>, spec: LinkSpec, row: DictRow): Row
    requires Resolvable(source, target, spec, row) && Attributes(row, spec.attributes).Ok?
  {
    Link(Find(source, spec.source.column, Value(row, spec.source.key)).value,
         Find(target, spec.target.column, Value(row, spec.target.key)).value,
         Attributes(row, spec.attributes).value)
  }

  /** The links of the resolvable rows (with all their copied columns), in CSV order; the others contribute nothing. */
  function ResolvableLinks(source: seq<Row>, target: seq<Row>, spec: LinkSpec, data: seq<DictRow>): seq<Row> {
    if data == [] then []
    else
      (if Resolvable(source, target, spec, data[0]) && Attributes(data[0], spec.attributes).Ok?
       then [LinkFor(source, target, spec, data[0])] else []) +
      ResolvableLinks(source, target, spec, data[1..])
  }

  lemma {:induction false} ResolvableLinksAppend(source: seq<Row>, target: seq<Row>, spec: LinkSpec, a: seq<DictRow>, b: seq<DictRow>)
    ensures ResolvableLinks(source, target, spec, a + b) ==
            ResolvableLinks(source, target, spec, a) + ResolvableLinks(source, target, spec, b)
    decreases |a|
  {
    if a == [] {
      assert a + b == b;
    } else {
      assert (a + b)[1..] == a[1..] + b;
      ResolvableLinksAppend(source, target, spec, a[1..], b);
      AppendAssoc(if Resolvable(source, target, spec, a[0]) && Attributes(a[0], spec.attributes).Ok?
                  then [LinkFor(source, target, spec, a[0])] else [],
                  ResolvableLinks(source, target, spec, a[1..]), ResolvableLinks(source, target, spec, b));
    }
  }

  /**
   * When every CSV row has its columns, the loop adds exactly one link per row
   * whose two names resolve, pointing at the first rows with those names, in
   * CSV order; a row that does not resolve is skipped and the others are still
   * linked.
   */
  lemma {:induction false} ResolveSpec(source: seq<Row>, target: seq<Row>, spec: LinkSpec, data: seq<DictRow>)
    requires forall k :: 0 <= k < |data| ==> HasColumns(spec, data[k])
    ensures Resolve(source, target, spec, data) == Ok(ResolvableLinks(source, target, spec, data))
    decreases |data|
  {
    if data != [] {
      var init := data[..|data| - 1];
      var last := data[|data| - 1];
      InitLast(data);
      HasColumnsPrefix(spec, data, init);
      ResolveSpec(source, target, spec, init);
      ResolvableLinksAppend(source, target, spec, init, [last]);
      LinkOfHasColumns(source, target, spec, last);
      ResolvableLinksOne(source, target, spec, last);
      ResolveStep(source, target, spec, data, |data| - 1);
      TakeAll(data);
      var before := ResolvableLinks(source, target, spec, init);
      assert ResolvableLinks(source, target, spec, data) == before + ResolvableLinks(source, target, spec, [last]);
      if Resolvable(source, target, spec, last) {
        assert Resolve(source, target, spec, data) == Ok(before + [LinkFor(source, target, spec, last)]);
      } else {
        assert Resolve(source, target, spec, data) == Ok(before);
        assert before + [] == before;
      }
    }
  }

  lemma HasColumnsPrefix(spec: LinkSpec, data: seq<DictRow>, init: seq<DictRow>)
    requires data != [] && init == data[..|data| - 1]
    requires forall k :: 0 <= k < |data| ==> HasColumns(spec, data[k])
    ensures forall k :: 0 <= k < |init| ==> HasColumns(spec, init[k])
    ensures HasColumns(spec, data[|data| - 1])
  {
    assert forall k :: 0 <= k < |init| ==> init[k] == data[k];
  }

  lemma ResolvableLinksOne(source: seq<Row>, target: seq<Row>, spec: LinkSpec, row: DictRow)
    requires HasColumns(spec, row)
    ensures ResolvableLinks(source, target, spec, [row]) ==
            if Resolvable(source, target, spec, row) then [LinkFor(source, target, spec, row)] else []
  {
    assert [row][1..] == [];
  }

  /** A CSV row without the source name column makes the loop raise. */
  lemma {:induction false} ResolveRaises(source: seq<Row>, target: seq<Row>, spec: LinkSpec, data: seq<DictRow>, k: nat)
    requires k < |data| && Get(data[k], spec.source.key).None?
    ensures Resolve(source, target, spec, data).Err?
  {
    ResolveStep(source, target, spec, data, k);
    ResolveStaysFailed(source, target, spec, data, k + 1);
  }

  lemma LinkOfHasColumns(source: seq<Row>, target: seq<Row>, spec: LinkSpec, row: DictRow)
    requires HasColumns(spec, row)
    ensures Resolvable(source, target, spec, row) ==> LinkOf(source, target, spec, row) == Resolved(LinkFor(source, target, spec, row))
    ensures !Resolvable(source, target, spec, row) ==> LinkOf(source, target, spec, row) == Unresolved
  {
  }

  // ---------------------------------------------------------------------------
  // One seed function (seed.py:28-411)
  // ---------------------------------------------------------------------------

  function EntityOf(columns: DictRow): Row {
    Entity(columns)
  }

  /** What a `seed_*` call raises: a `KeyError` from the loop, or the commit's `IntegrityError`. */
  datatype Raise = KeyError(key: string) | IntegrityError

  /** The (source, target) pair of a link: every link table's composite primary key. */
  function PairOf(row: Row): (nat, nat) {
    if row.Link? then (row.source, row.target) else (0, 0)
  }

  /** No two links of the batch share a primary key. */
  predicate DistinctPairs(rows: seq<Row>) {
    forall i, j :: 0 <= i < j < |rows| ==> PairOf(rows[i]) != PairOf(rows[j])
  }

  /**
   * What a `seed_*` call does to its table: nothing (`Ok(None)`), replace its
   * rows (`Ok(Some(rows))`), or raise (`Err`): a `KeyError` in the loop, or,
   * for links, an `IntegrityError` at the commit when two CSV rows resolve to
   * the same pair.
   */
  function Effect(env: Env, db: Db, step: Step): Result<Option<seq<Row>>, Raise> {
    if |Rows(db, step.table)| > 0 then Ok(None)
    else
      var data := Data(env, step.csv);
      if data == [] then Ok(None)
      else
        match step
        case SeedCore(_, _) => Ok(Some(Map(data, EntityOf)))
        case SeedLinks(_, _, spec) =>
          var r := Resolve(Rows(db, spec.source.table), Rows(db, spec.target.table), spec, data);
          if r.Err? then Err(KeyError(r.error))
          else if !DistinctPairs(r.value) then Err(IntegrityError)
          else Ok(Some(r.value))
  }

  /** The database after a `seed_*` call, or the error it raises (nothing of that call is committed). */
  function Apply(env: Env, db: Db, step: Step): Result<Db, Raise> {
    match Effect(env, db, step)
    case Err(e) => Err(e)
    case Ok(None) => Ok(db)
    case Ok(Some(rows)) => Ok(db[step.table := rows])
  }

  /** The tables a step reads: its own (the row-count guard) and the tables its links refer to. */
  function Reads(step: Step): set<string> {
    match step
    case SeedCore(table, _) => {table}
    case SeedLinks(table, _, spec) => {table, spec.source.table, spec.target.table}
  }

  /** A link table is not one of the tables it links. */
  predicate WellFormed(step: Step) {
    step.SeedLinks? ==> step.table != step.spec.source.table && step.table != step.spec.target.table
  }

  /**
   * A `seed_*` function guards itself: a table that already has rows is left
   * alone, an empty or missing CSV changes nothing, and otherwise a core table
   * gets one entity per CSV row, in order.
   */
  lemma GuardedInsert(env: Env, db: Db, step: Step)
    ensures |Rows(db, step.table)| > 0 ==> Apply(env, db, step) == Ok(db)
    ensures Data(env, step.csv) == [] ==> Apply(env, db, step) == Ok(db)
    ensures step.SeedCore? && |Rows(db, step.table)| == 0 && Data(env, step.csv) != [] ==>
              Apply(env, db, step) == Ok(db[step.table := Map(Data(env, step.csv), EntityOf)]) &&
              |Map(Data(env, step.csv), EntityOf)| == |Data(env, step.csv)| > 0
  {
  }

  /**
   * Two CSV rows of a link `seed_*` call that resolve to the same (source,
   * target) pair collide on the link table's primary key: the commit raises
   * an `IntegrityError` and the database keeps none of the call's rows.
   */
  lemma DuplicatePairRaises(env: Env, db: Db, step: Step, i: nat, j: nat)
    requires step.SeedLinks? && |Rows(db, step.table)| == 0 && Data(env, step.csv) != []
    requires var r := Resolve(Rows(db, step.spec.source.table), Rows(db, step.spec.target.table), step.spec, Data(env, step.csv));
             r.Ok? && i < j < |r.value| && PairOf(r.value[i]) == PairOf(r.value[j])
    ensures Apply(env, db, step) == Err(IntegrityError)
  {
  }

  /** A successful link call that wrote anything left only distinct pairs. */
  lemma SeededLinksDistinct(env: Env, db: Db, step: Step)
    requires step.SeedLinks? && Apply(env, db, step).Ok?
    ensures DistinctPairs(Rows(Apply(env, db, step).value, step.table)) || Apply(env, db, step) == Ok(db)
  {
  }

  /** A second call of the same `seed_*` function right after a successful one writes nothing new. */
  lemma ApplyStable(env: Env, db: Db, step: Step)
    requires WellFormed(step) && Apply(env, db, step).Ok?
    ensures var after := Apply(env, db, step).value;
            Effect(env, after, step) == Ok(None) || Effect(env, after, step) == Ok(Some(Rows(after, step.table)))
  {
    var after := Apply(env, db, step).value;
    var e := Effect(env, db, step);
    if e.Ok? && e.value.Some? && e.value.value == [] {
      assert step.SeedLinks?;
      forall t | t in Reads(step) ensures Rows(after, t) == Rows(db, t) {
      }
      EffectFrame(env, db, after, step);
    }
  }

  /** A step's effect depends only on the tables it reads. */
  lemma EffectFrame(env: Env, a: Db, b: Db, step: Step)
    requires forall t :: t in Reads(step) ==> Rows(a, t) == Rows(b, t)
    ensures Effect(env, a, step) == Effect(env, b, step)
  {
    assert step.table in Reads(step);
    if step.SeedLinks? {
      assert step.spec.source.table in Reads(step) && step.spec.target.table in Reads(step);
    }
  }

  // ---------------------------------------------------------------------------
  // seed_all (seed.py:413-436)
  // ---------------------------------------------------------------------------

  const Snp: string := "snp"
  const Characteristic: string := "skincharacteristic"
  const Condition: string := "skincondition"
  const IngredientTable: string := "ingredient"
  const Caution: string := "ingredientcaution"
  const SnpCharacteristic: string := "snp_characteristic_link"
  const CharacteristicCondition: string := "characteristic_condition_link"
  const ConditionIngredient: string := "condition_ingredient_link"
  const SnpIngredient: string := "snp_ingredient_link"
  const SnpCaution: string := "snp_ingredientcaution_link"

  /** The calls of `seed_all`, in order: the five core tables, then the five link tables. */
  const SeedSteps: seq<Step> := [
    SeedCore(Snp, "snps.csv"),
    SeedCore(Characteristic, "skin_characteristics.csv"),
    SeedCore(Condition, "skin_conditions.csv"),
    SeedCore(IngredientTable, "ingredients.csv"),
    SeedCore(Caution, "ingredient_cautions.csv"),
    SeedLinks(SnpCharacteristic, "snp_characteristic_links.csv",
              LinkSpec(Ref("snp_rsid", Snp, "rsid"), Ref("characteristic_name", Characteristic, "name"),
                       ["effect_direction", "evidence_strength"])),
    SeedLinks(CharacteristicCondition, "characteristic_condition_links.csv",
              LinkSpec(Ref("characteristic_name", Characteristic, "name"), Ref("condition_name", Condition, "name"),
                       ["relationship_type"])),
    SeedLinks(ConditionIngredient, "condition_ingredient_links.csv",
              LinkSpec(Ref("condition_name", Condition, "name"), Ref("ingredient_name", IngredientTable, "name"),
                       ["recommendation_strength", "guidance_notes"])),
    SeedLinks(SnpIngredient, "snp_ingredient_links.csv",
              LinkSpec(Ref("snp_rsid", Snp, "rsid"), Ref("ingredient_name", IngredientTable, "name"),
                       ["benefit_mechanism", "recommendation_strength", "evidence_level"])),
    SeedLinks(SnpCaution, "snp_ingredient_caution_links.csv",
              LinkSpec(Ref("snp_rsid", Snp, "rsid"), Ref("ingredient_name", Caution, "ingredient_name"),
                       ["evidence_level", "notes"]))
  ]

  datatype Outcome = Outcome(ok: bool, db: Db)

  /** The steps in order; the first that raises ends the run with the database as it was before that step. */
  function Run(env: Env, db: Db, steps: seq<Step>): Outcome
    decreases |steps|
  {
    if steps == [] then Outcome(true, db)
    else
      match Apply(env, db, steps[0])
      case Err(_) => Outcome(false, db)
      case Ok(next) => Run(env, next, steps[1..])
  }

  /** No step writes a table that an earlier step reads, and every step is well formed. */
  predicate Ordered(steps: seq<Step>) {
    (forall i :: 0 <= i < |steps| ==> WellFormed(steps[i])) &&
    (forall i, k :: 0 <= i < k < |steps| ==> steps[k].table !in Reads(steps[i]))
  }

  ghost predicate SameTables(a: Db, b: Db) {
    forall t :: Rows(a, t) == Rows(b, t)
  }

  /** Tables no step writes keep their rows. */
  lemma {:induction false} RunFrame(env: Env, db: Db, steps: seq<Step>, t: string)
    requires forall k :: 0 <= k < |steps| ==> steps[k].table != t
    ensures Rows(Run(env, db, steps).db, t) == Rows(db, t)
    decreases |steps|
  {
    if steps != [] {
      match Apply(env, db, steps[0])
      case Err(_) =>
      case Ok(next) =>
        ApplyFrame(env, db, steps[0], t);
        var rest := steps[1..];
        forall k | 0 <= k < |rest| ensures rest[k].table != t {
          assert rest[k] == steps[k + 1];
        }
        RunFrame(env, next, rest, t);
    }
  }

  /** A step changes no table but its own. */
  lemma ApplyFrame(env: Env, db: Db, step: Step, t: string)
    requires Apply(env, db, step).Ok? && step.table != t
    ensures Rows(Apply(env, db, step).value, t) == Rows(db, t)
  {
  }

  /** Runs from databases with the same tables end the same way. */
  lemma {:induction false} RunCongruent(env: Env, a: Db, b: Db, steps: seq<Step>)
    requires SameTables(a, b)
    ensures Run(env, a, steps).ok == Run(env, b, steps).ok
    ensures SameTables(Run(env, a, steps).db, Run(env, b, steps).db)
    decreases |steps|
  {
    if steps != [] {
      EffectFrame(env, a, b, steps[0]);
      var ra := Apply(env, a, steps[0]);
      var rb := Apply(env, b, steps[0]);
      if ra.Ok? {
        assert SameTables(ra.value, rb.value) by {
          forall t ensures Rows(ra.value, t) == Rows(rb.value, t) {
            assert Rows(a, t) == Rows(b, t);
          }
        }
        RunCongruent(env, ra.value, rb.value, steps[1..]);
      }
    }
  }

  /**
   * Running the steps twice leaves the tables as one run does, and the second
   * run ends the same way as the first.
   */
  lemma {:induction false} RunIdempotent(env: Env, db: Db, steps: seq<Step>)
    requires Ordered(steps)
    ensures var once := Run(env, db, steps);
            var twice := Run(env, once.db, steps);
            twice.ok == once.ok && SameTables(twice.db, once.db)
    decreases |steps|
  {
    var once := Run(env, db, steps);
    if steps != [] {
      var first := Apply(env, db, steps[0]);
      if first.Ok? {
        var next := first.value;
        var rest := steps[1..];
        assert forall k :: 0 <= k < |rest| ==> rest[k] == steps[k + 1];
        assert WellFormed(steps[0]);
        RunIdempotent(env, next, rest);
        forall t | t in Reads(steps[0]) ensures Rows(once.db, t) == Rows(next, t) {
          forall k | 0 <= k < |rest| ensures rest[k].table != t {
            assert rest[k] == steps[k + 1];
          }
          RunFrame(env, next, rest, t);
        }
        ReapplyFixed(env, db, once.db, steps[0]);
        RunCongruent(env, Apply(env, once.db, steps[0]).value, once.db, rest);
      }
    }
  }

  /** A step applied again to a database that agrees with its own result on what it reads changes nothing. */
  lemma ReapplyFixed(env: Env, db: Db, later: Db, step: Step)
    requires WellFormed(step) && Apply(env, db, step).Ok?
    requires forall t :: t in Reads(step) ==> Rows(later, t) == Rows(Apply(env, db, step).value, t)
    ensures Apply(env, later, step).Ok? && SameTables(Apply(env, later, step).value, later)
  {
    EffectFrame(env, later, Apply(env, db, step).value, step);
    ApplyStable(env, db, step);
    var again := Apply(env, later, step);
    forall t ensures Rows(again.value, t) == Rows(later, t) {
      assert step.table in Reads(step);
    }
  }

  /** The ten tables have names of ten different lengths, which is what tells them apart below. */
  lemma SeedStepsOrdered()
    ensures Ordered(SeedSteps)
  {
    assert |Snp| == 3 && |Characteristic| == 18 && |Condition| == 13 && |IngredientTable| == 10 && |Caution| == 17;
    assert |SnpCharacteristic| == 23 && |CharacteristicCondition| == 29 && |ConditionIngredient| == 25;
    assert |SnpIngredient| == 19 && |SnpCaution| == 26;
  }

  /** `seed_all` run twice leaves the tables as after one run. */
  lemma SeedAllIdempotent(env: Env, db: Db)
    ensures var once := Run(env, db, SeedSteps);
            var twice := Run(env, once.db, SeedSteps);
            twice.ok == once.ok && SameTables(twice.db, once.db)
  {
    SeedStepsOrdered();
    RunIdempotent(env, db, SeedSteps);
  }

  /** Every core table is seeded before any link table, and every table a link refers to is a core table seeded earlier. */
  lemma CoreBeforeLinks()
    ensures forall i, j :: 0 <= i < j < |SeedSteps| ==> !(SeedSteps[i].SeedLinks? && SeedSteps[j].SeedCore?)
    ensures forall i :: 0 <= i < |SeedSteps| && SeedSteps[i].SeedLinks? ==>
              exists j, k :: 0 <= j < i && 0 <= k < i &&
                             SeedSteps[j] == SeedCore(SeedSteps[i].spec.source.table, SeedSteps[j].csv) &&
                             SeedSteps[k] == SeedCore(SeedSteps[i].spec.target.table, SeedSteps[k].csv)
  {
    var s := SeedSteps;
    assert s[5].spec.source.table == s[0].table && s[5].spec.target.table == s[1].table;
    assert s[6].spec.source.table == s[1].table && s[6].spec.target.table == s[2].table;
    assert s[7].spec.source.table == s[2].table && s[7].spec.target.table == s[3].table;
    assert s[8].spec.source.table == s[0].table && s[8].spec.target.table == s[3].table;
    assert s[9].spec.source.table == s[0].table && s[9].spec.target.table == s[4].table;
  }

  // ---------------------------------------------------------------------------
  // truncate_all (seed.py:438-461)
  // ---------------------------------------------------------------------------

  /** The `TRUNCATE ... CASCADE` statements, in order. */
  const TruncateOrder: seq<string> := [
    SnpCaution, SnpIngredient, ConditionIngredient, CharacteristicCondition, SnpCharacteristic,
    IngredientTable, Caution, Condition, Characteristic, Snp
  ]

  /** Each link table is truncated before the tables it refers to. */
  lemma TruncateLinksFirst()
    ensures forall i, j :: 0 <= i < |SeedSteps| && SeedSteps[i].SeedLinks? && 0 <= j < |TruncateOrder| &&
                           TruncateOrder[j] in {SeedSteps[i].spec.source.table, SeedSteps[i].spec.target.table} ==>
              exists k :: 0 <= k < j && TruncateOrder[k] == SeedSteps[i].table
  {
    var s := SeedSteps;
    var t := TruncateOrder;
    assert t[0] == s[9].table && t[1] == s[8].table && t[2] == s[7].table && t[3] == s[6].table && t[4] == s[5].table;
  }

  /** The loop of a core table's `seed_*`: one `Model(**row)` per CSV row, in order. */
  method Entities(data: seq<DictRow>) returns (added: seq<Row>)
    ensures added == Map(data, EntityOf)
  {
    added := [];
    var i := 0;
    while i < |data|
      invariant i <= |data|
      invariant added == Map(data[..i], EntityOf)
    {
      MapStep(data, i, EntityOf);
      added := added + [Entity(data[i])];
      i := i + 1;
    }
    TakeAll(data);
  }

  /** The seeding session: the database `seed_all` and `truncate_all` change. */
  class SeedSession {
    const env: Env
    var tables: Db

    constructor (env: Env, tables: Db)
      ensures this.env == env && this.tables == tables
    {
      this.env := env;
      this.tables := tables;
    }

    /** The loop of a link `seed_*` function: the links to add, or the key of the `KeyError`. */
    static method ResolveLinks(source: seq<Row>, target: seq<Row>, spec: LinkSpec, data: seq<DictRow>)
      returns (r: Result<seq<Row>, string>)
      ensures r == Resolve(source, target, spec, data)
    {
      var added := [];
      var i := 0;
      while i < |data|
        invariant i <= |data|
        invariant Resolve(source, target, spec, data[..i]) == Ok(added)
      {
        ResolveStep(source, target, spec, data, i);
        var link := LinkOf(source, target, spec, data[i]);
        if link.KeyMissing? {
          ResolveStaysFailed(source, target, spec, data, i + 1);
          return Err(link.key);
        }
        if link.Resolved? {
          added := added + [link.link];
        }
        i := i + 1;
      }
      assert data[..i] == data;
      r := Ok(added);
    }

    /** One `seed_*` function; `ok` false is the `KeyError` or `IntegrityError` it raises. */
    method SeedTable(step: Step) returns (ok: bool)
      modifies this
      ensures ok == Apply(env, old(tables), step).Ok?
      ensures ok ==> tables == Apply(env, old(tables), step).value
      ensures !ok ==> tables == old(tables)
    {
      if |Rows(tables, step.table)| > 0 {
        return true;
      }
      var data := SeedUtils.LoadCsvData(env.files, env.moduleDir, step.csv);
      if data == [] {
        return true;
      }
      match step
      case SeedCore(table, _) =>
        var added := Entities(data);
        assert Effect(env, old(tables), step) == Ok(Some(added));
        tables := tables[table := added];
        ok := true;
      case SeedLinks(table, _, spec) =>
        var r := ResolveLinks(Rows(tables, spec.source.table), Rows(tables, spec.target.table), spec, data);
        if r.Err? || !DistinctPairs(r.value) {
          return false;
        }
        assert Effect(env, old(tables), step) == Ok(Some(r.value));
        tables := tables[table := r.value];
        ok := true;
    }

    /** `seed_all`: the ten `seed_*` calls in order, until one raises. */
    method SeedAll() returns (ok: bool)
      modifies this
      ensures Outcome(ok, tables) == Run(env, old(tables), SeedSteps)
    {
      var i := 0;
      while i < |SeedSteps|
        invariant i <= |SeedSteps|
        invariant Run(env, old(tables), SeedSteps) == Run(env, tables, SeedSteps[i..])
      {
        assert SeedSteps[i..][1..] == SeedSteps[i + 1..];
        ok := SeedTable(SeedSteps[i]);
        if !ok {
          return;
        }
        i := i + 1;
      }
      ok := true;
    }

    /** `truncate_all`: every seeded table emptied; other tables keep their rows. */
    method TruncateAll()
      modifies this
      ensures forall t :: t in TruncateOrder ==> Rows(tables, t) == []
      ensures forall t :: t !in TruncateOrder ==> Rows(tables, t) == Rows(old(tables), t)
    {
      var i := 0;
      while i < |TruncateOrder|
        invariant i <= |TruncateOrder|
        invariant forall t :: t in TruncateOrder[..i] ==> Rows(tables, t) == []
        invariant forall t :: t !in TruncateOrder[..i] ==> Rows(tables, t) == Rows(old(tables), t)
      {
        assert TruncateOrder[..i + 1] == TruncateOrder[..i] + [TruncateOrder[i]];
        tables := tables[TruncateOrder[i] := []];
        i := i + 1;
      }
      assert TruncateOrder[..i] == TruncateOrder;
    }
  }

  /** Once the loop has raised, the remaining rows change nothing. */
  lemma {:induction false} ResolveStaysFailed(source: seq<Row>, target: seq<Row>, spec: LinkSpec, data: seq<DictRow>, k: nat)
    requires k <= |data| && Resolve(source, target, spec, data[..k]).Err?
    ensures Resolve(source, target, spec, data) == Resolve(source, target, spec, data[..k])
    decreases |data| - k
  {
    if k < |data| {
      ResolveStep(source, target, spec, data, k);
      ResolveStaysFailed(source, target, spec, data, k + 1);
    } else {
      assert data[..k] == data;
    }
  }
}
