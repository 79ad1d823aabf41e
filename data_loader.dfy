// DataLoader, in zando/database/db_migrations/utils/data_loader.py: CSV files
// of a data directory loaded into database tables. Rows are read with
// `csv.DictReader` and cleaned into records; records are inserted with
// `INSERT ... ON CONFLICT DO NOTHING`; `load_all_data` walks a fixed list of
// "file:table" pairs and stops inserting once anything has failed.
//
// The files are a map from path to contents: rows, or a file that cannot be
// read (opening or decoding raises). The database is a map from table name to
// records, a table's unique key is a parameter, and whether the database
// rejects an insert for another reason (types, foreign keys) is a parameter.
module DataLoader {
  import opened Wrappers
  import opened Seqs
  import opened PyStr
  import opened CsvRows
  import Dicts

  /** A cleaned row, a dict from column name to value, `None` standing for NULL. */
  type Record = Dicts.Dict<string, Option<string>>

  // ---------------------------------------------------------------------------
  // _read_csv (data_loader.py:135-159)
  // ---------------------------------------------------------------------------

  /** `None if value == '' else value`. */
  function NullIfEmpty(value: Option<string>): Option<string> {
    if value == Some("") then None else value
  }

  /**
   * The inner loop of data_loader.py:152-155 over a row's named columns: empty
   * names are skipped, the others stripped (two names that strip alike share
   * one entry, the later value winning). The surplus values, stored under the
   * key `None`, are skipped too.
   */
  function CleanFields(fields: seq<(string, Option<string>)>): Record {
    if fields == [] then []
    else
      var record := CleanFields(fields[..|fields| - 1]);
      var (key, value) := fields[|fields| - 1];
      if key == "" then record else Dicts.Put(record, Strip(key), NullIfEmpty(value))
  }

  function CleanRecord(row: DictRow): Record {
    CleanFields(row.fields)
  }

  lemma CleanFieldsStep(fields: seq<(string, Option<string>)>, i: nat)
    requires i < |fields|
    ensures CleanFields(fields[..i + 1]) ==
            if fields[i].0 == "" then CleanFields(fields[..i])
            else Dicts.Put(CleanFields(fields[..i]), Strip(fields[i].0), NullIfEmpty(fields[i].1))
  {
    assert fields[..i + 1][..i] == fields[..i];
  }

  /** A cleaned record never repeats a name. */
  lemma {:induction false} CleanFieldsDistinct(fields: seq<(string, Option<string>)>)
    ensures Dicts.DistinctKeys(CleanFields(fields))
    decreases |fields|
  {
    if fields != [] {
      var (key, value) := fields[|fields| - 1];
      CleanFieldsDistinct(fields[..|fields| - 1]);
      if key != "" {
        Dicts.PutDistinct(CleanFields(fields[..|fields| - 1]), Strip(key), NullIfEmpty(value));
      }
    }
  }

  /** The header's non-empty column names, stripped, in order (repeats kept). */
  function StrippedNames(fields: seq<(string, Option<string>)>): seq<string> {
    if fields == [] then []
    else
      var key := fields[|fields| - 1].0;
      StrippedNames(fields[..|fields| - 1]) + if key == "" then [] else [Strip(key)]
  }

  /** The names of a cleaned record are exactly the stripped non-empty column names of the row. */
  lemma {:induction false} CleanFieldsNames(fields: seq<(string, Option<string>)>)
    ensures forall k :: k in Dicts.Keys(CleanFields(fields)) <==> k in StrippedNames(fields)
    decreases |fields|
  {
    if fields != [] {
      var (key, value) := fields[|fields| - 1];
      CleanFieldsNames(fields[..|fields| - 1]);
      if key != "" {
        Dicts.PutKeys(CleanFields(fields[..|fields| - 1]), Strip(key), NullIfEmpty(value));
      }
    }
  }

  /** No value of a cleaned record is the empty string: '' has become NULL. */
  lemma {:induction false} CleanFieldsNoEmpty(fields: seq<(string, Option<string>)>)
    ensures forall i :: 0 <= i < |CleanFields(fields)| ==> CleanFields(fields)[i].1 != Some("")
    decreases |fields|
  {
    if fields != [] {
      var (key, value) := fields[|fields| - 1];
      CleanFieldsNoEmpty(fields[..|fields| - 1]);
    }
  }

  /** A header whose names are non-empty, already stripped and distinct is kept as it is; only '' values become NULL. */
  lemma {:induction false} CleanHeaderKept(fields: seq<(string, Option<string>)>)
    requires forall i :: 0 <= i < |fields| ==> fields[i].0 != "" && Strip(fields[i].0) == fields[i].0
    requires forall i, j :: 0 <= i < j < |fields| ==> fields[i].0 != fields[j].0
    ensures CleanFields(fields) == Map(fields, NullField)
    decreases |fields|
  {
    if fields != [] {
      var init := fields[..|fields| - 1];
      var last := fields[|fields| - 1];
      forall i | 0 <= i < |init| ensures init[i] == fields[i] { }
      CleanHeaderKept(init);
      var record := CleanFields(init);
      forall i | 0 <= i < |record| ensures record[i].0 != last.0 {
        assert record[i] == NullField(init[i]);
      }
      Dicts.PutAbsent(record, last.0, NullIfEmpty(last.1));
      assert Strip(last.0) == last.0;
      MapStep(fields, |fields| - 1, NullField);
      TakeAll(fields);
    }
  }

  function NullField(field: (string, Option<string>)): (string, Option<string>) {
    (field.0, NullIfEmpty(field.1))
  }

  /** Two header names that strip alike give one column, holding the later value. */
  lemma StrippedNamesMerge(first: string, second: string, v1: Option<string>, v2: Option<string>)
    requires first != "" && second != "" && Strip(first) == Strip(second)
    ensures CleanFields([(first, v1), (second, v2)]) == [(Strip(second), NullIfEmpty(v2))]
  {
    var fields := [(first, v1), (second, v2)];
    CleanFieldsStep(fields, 0);
    CleanFieldsStep(fields, 1);
    assert fields[..0] == [] && fields[..2] == fields;
    assert CleanFields(fields[..1]) == [(Strip(first), NullIfEmpty(v1))];
  }

  // ---------------------------------------------------------------------------
  // _insert_data (data_loader.py:161-196)
  // ---------------------------------------------------------------------------

  /** The value of a column in a record; a missing column is NULL. */
  function Lookup(r: Record, column: string): Option<string> {
    match Dicts.Get(r, column)
    case Some(v) => v
    case None => None
  }

  /** The values of a unique key, or `None` when one of them is NULL (NULLs never conflict). */
  function KeyOf(r: Record, columns: seq<string>): Option<seq<string>> {
    if columns == [] then Some([])
    else
      var v := Lookup(r, columns[0]);
      var rest := KeyOf(r, columns[1..]);
      if v.None? || rest.None? then None else Some([v.value] + rest.value)
  }

  /** A table's unique key, if it has one. */
  datatype Unique = NoKey | Key(columns: seq<string>)

  predicate Conflicts(unique: Unique, a: Record, b: Record) {
    unique.Key? && KeyOf(a, unique.columns).Some? && KeyOf(a, unique.columns) == KeyOf(b, unique.columns)
  }

  predicate ConflictsWithAny(unique: Unique, rows: seq<Record>, r: Record) {
    exists i :: 0 <= i < |rows| && Conflicts(unique, rows[i], r)
  }

  /** `INSERT ... VALUES records ON CONFLICT DO NOTHING`: each record in turn, skipped when it clashes with a row already there. */
  function Inserted(unique: Unique, rows: seq<Record>, records: seq<Record>): seq<Record>
    decreases |records|
  {
    if records == [] then rows
    else
      var before := Inserted(unique, rows, records[..|records| - 1]);
      var r := records[|records| - 1];
      if ConflictsWithAny(unique, before, r) then before else before + [r]
  }

  lemma {:induction false} InsertedKeepsRows(unique: Unique, rows: seq<Record>, records: seq<Record>)
    ensures |rows| <= |Inserted(unique, rows, records)| && Inserted(unique, rows, records)[..|rows|] == rows
    decreases |records|
  {
    if records != [] {
      InsertedKeepsRows(unique, rows, records[..|records| - 1]);
    }
  }

  /** After the insert, every keyed record clashes with some row: it is there, or a row with its key was. */
  lemma {:induction false} InsertedCovers(unique: Unique, rows: seq<Record>, records: seq<Record>, k: nat)
    requires unique.Key? && k < |records| && KeyOf(records[k], unique.columns).Some?
    ensures ConflictsWithAny(unique, Inserted(unique, rows, records), records[k])
    decreases |records|
  {
    var init := records[..|records| - 1];
    var before := Inserted(unique, rows, init);
    var r := records[|records| - 1];
    if k < |init| {
      assert init[k] == records[k];
      InsertedCovers(unique, rows, init, k);
      var i :| 0 <= i < |before| && Conflicts(unique, before[i], records[k]);
      InsertedKeepsRows(unique, before, [r]);
      assert Inserted(unique, rows, records) == if ConflictsWithAny(unique, before, r) then before else before + [r];
      assert Inserted(unique, rows, records)[i] == before[i];
    } else if !ConflictsWithAny(unique, before, r) {
      var after := before + [r];
      assert after[|before|] == r;
      assert Conflicts(unique, after[|before|], records[k]);
    }
  }

  /** Inserting records that all clash with rows already there adds nothing. */
  lemma {:induction false} InsertedAllConflict(unique: Unique, rows: seq<Record>, records: seq<Record>)
    requires forall k :: 0 <= k < |records| ==> ConflictsWithAny(unique, rows, records[k])
    ensures Inserted(unique, rows, records) == rows
    decreases |records|
  {
    if records != [] {
      InsertedAllConflict(unique, rows, records[..|records| - 1]);
    }
  }

  /**
   * ON CONFLICT DO NOTHING makes a repeated load harmless: inserting the same
   * keyed records a second time adds nothing.
   */
  lemma InsertIdempotent(unique: Unique, rows: seq<Record>, records: seq<Record>)
    requires unique.Key? && forall k :: 0 <= k < |records| ==> KeyOf(records[k], unique.columns).Some?
    ensures Inserted(unique, Inserted(unique, rows, records), records) == Inserted(unique, rows, records)
  {
    forall k | 0 <= k < |records| ensures ConflictsWithAny(unique, Inserted(unique, rows, records), records[k]) {
      InsertedCovers(unique, rows, records, k);
    }
    InsertedAllConflict(unique, Inserted(unique, rows, records), records);
  }

  /** Without a unique key nothing conflicts, and every record is appended. */
  lemma {:induction false} InsertedNoKey(rows: seq<Record>, records: seq<Record>)
    ensures Inserted(NoKey, rows, records) == rows + records
    decreases |records|
  {
    if records == [] {
      assert rows + records == rows;
    } else {
      var init := records[..|records| - 1];
      InsertedNoKey(rows, init);
      assert records == init + [records[|records| - 1]];
    }
  }

  // ---------------------------------------------------------------------------
  // The loader's environment
  // ---------------------------------------------------------------------------

  datatype CsvFile = Readable(rows: seq<DictRow>) | Unreadable

  /**
   * The data directory, its files, each table's unique key and whether the
   * database rejects an insert for a reason other than a key conflict.
   */
  datatype Env = Env(dataDir: string, files: map<string, CsvFile>, unique: map<string, Unique>,
                     rejects: (string, seq<Record>) -> bool)

  type Tables = map<string, seq<Record>>

  function UniqueOf(env: Env, table: string): Unique {
    if table in env.unique then env.unique[table] else NoKey
  }

  /** `self.data_dir / name`. */
  function InDataDir(env: Env, name: string): string {
    env.dataDir + "/" + name
  }

  /** `_insert_data(table, records)`: `Err` is the re-raised error after the rollback. */
  function Insert(env: Env, tables: Tables, table: string, records: seq<Record>): Result<Tables, string> {
    if records == [] then Ok(tables)
    else if table !in tables then Err("no such table")
    else if env.rejects(table, records) then Err("rejected")
    else Ok(tables[table := Inserted(UniqueOf(env, table), tables[table], records)])
  }

  /** The records `_read_csv` returns for a readable file. */
  function Records(rows: seq<DictRow>): seq<Record> {
    Map(rows, CleanRecord)
  }

  // ---------------------------------------------------------------------------
  // load_all_data (data_loader.py:37-85)
  // ---------------------------------------------------------------------------

  /** The tables `load_all_data` loads, in its order: core tables before the link tables referring to them. */
  const LoadOrder: seq<string> := [
    "snp", "skincharacteristic", "snp_characteristic_link", "skincondition", "characteristic_condition_link",
    "ingredient", "ingredientcaution", "snp_ingredient_link", "snp_ingredientcaution_link",
    "condition_ingredient_link"
  ]

  /** Every entry of the list is written `<table>.csv:<table>`. */
  function PairOf(table: string): string {
    table + ".csv" + ":" + table
  }

  const TableOrder: seq<string> := Map(LoadOrder, PairOf)

  datatype LoadState = LoadState(success: bool, tables: Tables)

  /**
   * One pass of the loop: a pair that does not split into two parts, or whose
   * file is missing, is skipped; a file that cannot be read fails; records are
   * inserted only while nothing has failed (`success and ...`), and a raising
   * insert fails.
   */
  function LoadPair(env: Env, st: LoadState, pair: string): LoadState {
    var parts := Split(pair, ':');
    if |parts| != 2 then st
    else
      var path := InDataDir(env, parts[0]);
      if path !in env.files then st
      else
        match env.files[path]
        case Unreadable => LoadState(false, st.tables)
        case Readable(rows) =>
          var records := Records(rows);
          if records == [] || !st.success then st
          else
            match Insert(env, st.tables, parts[1], records)
            case Ok(tables) => LoadState(true, tables)
            case Err(_) => LoadState(false, st.tables)
  }

  function LoadAll(env: Env, st: LoadState, pairs: seq<string>): LoadState {
    if pairs == [] then st
    else LoadPair(env, LoadAll(env, st, pairs[..|pairs| - 1]), pairs[|pairs| - 1])
  }

  lemma LoadAllStep(env: Env, st: LoadState, pairs: seq<string>, i: nat)
    requires i < |pairs|
    ensures LoadAll(env, st, pairs[..i + 1]) == LoadPair(env, LoadAll(env, st, pairs[..i]), pairs[i])
  {
    assert pairs[..i + 1][..i] == pairs[..i];
  }

  lemma {:induction false} LoadAllAppend(env: Env, st: LoadState, a: seq<string>, b: seq<string>)
    ensures LoadAll(env, st, a + b) == LoadAll(env, LoadAll(env, st, a), b)
    decreases |b|
  {
    if b == [] {
      assert a + b == a;
    } else {
      assert (a + b)[..|a + b| - 1] == a + b[..|b| - 1];
      LoadAllAppend(env, st, a, b[..|b| - 1]);
    }
  }

  /** A malformed pair and a missing file are skipped without marking failure. */
  lemma SkipsMalformedAndMissing(env: Env, st: LoadState, pair: string)
    ensures |Split(pair, ':')| != 2 ==> LoadPair(env, st, pair) == st
    ensures |Split(pair, ':')| == 2 && InDataDir(env, Split(pair, ':')[0]) !in env.files ==> LoadPair(env, st, pair) == st
  {
  }

  /** Once `success` is False it stays False, and no later pair changes a table. */
  lemma {:induction false} FailureFreezes(env: Env, st: LoadState, pairs: seq<string>)
    requires !st.success
    ensures LoadAll(env, st, pairs) == st
    decreases |pairs|
  {
    if pairs != [] {
      FailureFreezes(env, st, pairs[..|pairs| - 1]);
    }
  }

  /** After the first failure, the rest of the list inserts nothing and the result stays False. */
  lemma NothingAfterFirstFailure(env: Env, st: LoadState, pairs: seq<string>, k: nat)
    requires k <= |pairs| && !LoadAll(env, st, pairs[..k]).success
    ensures LoadAll(env, st, pairs) == LoadAll(env, st, pairs[..k])
  {
    assert pairs == pairs[..k] + pairs[k..];
    LoadAllAppend(env, st, pairs[..k], pairs[k..]);
    FailureFreezes(env, LoadAll(env, st, pairs[..k]), pairs[k..]);
  }

  /** A pair whose table name holds no ':' splits into the file and the table. */
  lemma PairSplits(table: string)
    requires ':' !in table
    ensures Split(PairOf(table), ':') == [table + ".csv", table]
  {
    assert ':' !in table + ".csv";
    assert PairOf(table) == table + ".csv" + [':'] + table;
    SplitCons(table + ".csv", ':', table);
  }

  /** Every pair of the fixed order names the file `<table>.csv` and the table. */
  lemma TableOrderWellFormed()
    ensures forall i :: 0 <= i < |TableOrder| ==> Split(TableOrder[i], ':') == [LoadOrder[i] + ".csv", LoadOrder[i]]
  {
    forall i | 0 <= i < |LoadOrder| ensures ':' !in LoadOrder[i] {
      NoColon(i);
    }
    forall i | 0 <= i < |TableOrder| ensures Split(TableOrder[i], ':') == [LoadOrder[i] + ".csv", LoadOrder[i]] {
      PairSplits(LoadOrder[i]);
    }
  }

  lemma NoColon(i: nat)
    requires i < |LoadOrder|
    ensures ':' !in LoadOrder[i]
  {
    if i < 5 { NoColonFirst(i); } else { NoColonLast(i); }
  }

  lemma NoColonFirst(i: nat)
    requires i < 5
    ensures ':' !in LoadOrder[i]
  {
    if i == 0 { assert ':' !in LoadOrder[0]; }
    else if i == 1 { assert ':' !in LoadOrder[1]; }
    else if i == 2 { assert ':' !in LoadOrder[2]; }
    else if i == 3 { assert ':' !in LoadOrder[3]; }
    else { assert ':' !in LoadOrder[4]; }
  }

  lemma NoColonLast(i: nat)
    requires 5 <= i < |LoadOrder|
    ensures ':' !in LoadOrder[i]
  {
    if i == 5 { assert ':' !in LoadOrder[5]; }
    else if i == 6 { assert ':' !in LoadOrder[6]; }
    else if i == 7 { assert ':' !in LoadOrder[7]; }
    else if i == 8 { assert ':' !in LoadOrder[8]; }
    else { assert ':' !in LoadOrder[9]; }
  }

  /** The position of a table in the fixed order. */
  function Position(table: string): nat {
    if table == "snp" then 0
    else if table == "skincharacteristic" then 1
    else if table == "snp_characteristic_link" then 2
    else if table == "skincondition" then 3
    else if table == "characteristic_condition_link" then 4
    else if table == "ingredient" then 5
    else if table == "ingredientcaution" then 6
    else if table == "snp_ingredient_link" then 7
    else if table == "snp_ingredientcaution_link" then 8
    else 9
  }

  /** Each link table and a table it refers to. */
  const References: seq<(string, string)> := [
    ("snp_characteristic_link", "snp"), ("snp_characteristic_link", "skincharacteristic"),
    ("characteristic_condition_link", "skincharacteristic"), ("characteristic_condition_link", "skincondition"),
    ("snp_ingredient_link", "snp"), ("snp_ingredient_link", "ingredient"),
    ("snp_ingredientcaution_link", "snp"), ("snp_ingredientcaution_link", "ingredientcaution"),
    ("condition_ingredient_link", "skincondition"), ("condition_ingredient_link", "ingredient")
  ]

  /** The fixed order loads every table before the link tables that refer to it. */
  lemma ReferencedTablesFirst()
    ensures forall i :: 0 <= i < |References| ==>
              Position(References[i].1) < Position(References[i].0) &&
              LoadOrder[Position(References[i].1)] == References[i].1 &&
              LoadOrder[Position(References[i].0)] == References[i].0
  {
  }

  // ---------------------------------------------------------------------------
  // load_table_data (data_loader.py:87-133)
  // ---------------------------------------------------------------------------

  const FileOfTable: map<string, string> := map[
    "snp" := "snps.csv",
    "skincharacteristic" := "characteristics.csv",
    "skincondition" := "skin_conditions.csv",
    "ingredient" := "ingredients.csv",
    "ingredientcaution" := "ingredient_cautions.csv",
    "snp_characteristic_link" := "relationships/snp_characteristic.csv",
    "characteristic_condition_link" := "relationships/characteristic_condition.csv",
    "snp_ingredient_link" := "relationships/snp_ingredient.csv",
    "snp_ingredientcaution_link" := "relationships/snp_ingredientcaution.csv",
    "condition_ingredient_link" := "relationships/condition_ingredient.csv"
  ]

  /** The file `load_table_data` reads: the one given (an empty path counts as none), the mapped one, or `<table>.csv`. */
  function TablePath(env: Env, table: string, filePath: Option<string>): string {
    if filePath.Some? && filePath.value != "" then filePath.value
    else if table in FileOfTable then InDataDir(env, FileOfTable[table])
    else InDataDir(env, table + ".csv")
  }

  /** A known table reads its mapped file; any other name falls back to `<table>.csv` in the data directory. */
  lemma TablePathSpec(env: Env, table: string)
    ensures table in FileOfTable ==> TablePath(env, table, None) == env.dataDir + "/" + FileOfTable[table]
    ensures table !in FileOfTable ==> TablePath(env, table, None) == env.dataDir + "/" + table + ".csv"
    ensures TablePath(env, table, Some("")) == TablePath(env, table, None)
  {
  }

  /**
   * `load_table_data("snp")` reads `snps.csv`, not the `snp.csv` of
   * `load_all_data`; a table outside the mapping reads `<table>.csv`.
   */
  lemma TablePathExamples(env: Env)
    ensures TablePath(env, "snp", None) == env.dataDir + "/snps.csv"
    ensures TablePath(env, "user", None) == env.dataDir + "/user.csv"
  {
    assert "user" !in FileOfTable;
  }

  /** `load_table_data`: whether it loaded, and the tables after it. */
  function LoadTable(env: Env, tables: Tables, table: string, filePath: Option<string>): (bool, Tables) {
    var path := TablePath(env, table, filePath);
    if path !in env.files then (false, tables)
    else
      match env.files[path]
      case Unreadable => (false, tables)
      case Readable(rows) =>
        var records := Records(rows);
        if records == [] then (false, tables)
        else
          match Insert(env, tables, table, records)
          case Ok(after) => (true, after)
          case Err(_) => (false, tables)
  }

  /** A missing file, an unreadable one and one without records all give False and change nothing. */
  lemma LoadTableFalseCases(env: Env, tables: Tables, table: string, filePath: Option<string>)
    ensures var path := TablePath(env, table, filePath);
            (path !in env.files || env.files[path].Unreadable? || Records(env.files[path].rows) == []) ==>
              LoadTable(env, tables, table, filePath) == (false, tables)
    ensures LoadTable(env, tables, table, filePath).0 ==>
              var path := TablePath(env, table, filePath);
              path in env.files && env.files[path].Readable? && Records(env.files[path].rows) != [] &&
              Insert(env, tables, table, Records(env.files[path].rows)) == Ok(LoadTable(env, tables, table, filePath).1)
  {
  }

  // ---------------------------------------------------------------------------
  // The loader itself
  // ---------------------------------------------------------------------------

  /** A row cleaned as the loop of data_loader.py:151-155 does it. */
  method CleanRow(row: DictRow) returns (record: Record)
    ensures record == CleanRecord(row)
  {
    record := [];
    var i := 0;
    while i < |row.fields|
      invariant i <= |row.fields|
      invariant record == CleanFields(row.fields[..i])
    {
      CleanFieldsStep(row.fields, i);
      var (key, value) := row.fields[i];
      if key != "" {
        record := Dicts.Put(record, Strip(key), NullIfEmpty(value));
      }
      i := i + 1;
    }
    assert row.fields[..i] == row.fields;
  }

  /** `_read_csv` on a readable file. */
  method ReadCsv(rows: seq<DictRow>) returns (records: seq<Record>)
    ensures records == Records(rows)
  {
    records := [];
    var i := 0;
    while i < |rows|
      invariant i <= |rows|
      invariant records == Map(rows[..i], CleanRecord)
    {
      MapStep(rows, i, CleanRecord);
      var record := CleanRow(rows[i]);
      records := records + [record];
      i := i + 1;
    }
    assert rows[..i] == rows;
  }

  class Loader {
    const env: Env
    var tables: Tables

    constructor (env: Env, tables: Tables)
      ensures this.env == env && this.tables == tables
    {
      this.env := env;
      this.tables := tables;
    }

    /** `_insert_data`; `ok` false is the error it re-raises after the rollback. */
    method InsertData(table: string, records: seq<Record>) returns (ok: bool)
      modifies this
      ensures ok == Insert(env, old(tables), table, records).Ok?
      ensures tables == if ok then Insert(env, old(tables), table, records).value else old(tables)
    {
      if records == [] {
        return true;
      }
      if table !in tables || env.rejects(table, records) {
        return false;
      }
      tables := tables[table := Inserted(UniqueOf(env, table), tables[table], records)];
      ok := true;
    }

    /** `load_all_data`: the loop over the fixed order. */
    method LoadAllData() returns (success: bool)
      modifies this
      ensures LoadState(success, tables) == LoadAll(env, LoadState(true, old(tables)), TableOrder)
    {
      success := LoadPairs(TableOrder);
    }

    /** The loop of `load_all_data` over any list of pairs, starting from `success = True`. */
    method LoadPairs(pairs: seq<string>) returns (success: bool)
      modifies this
      ensures LoadState(success, tables) == LoadAll(env, LoadState(true, old(tables)), pairs)
    {
      success := true;
      var i := 0;
      while i < |pairs|
        invariant i <= |pairs|
        invariant LoadState(success, tables) == LoadAll(env, LoadState(true, old(tables)), pairs[..i])
      {
        LoadAllStep(env, LoadState(true, old(tables)), pairs, i);
        success := LoadOne(success, pairs[i]);
        i := i + 1;
      }
      assert pairs[..i] == pairs;
    }

    /** One pass of the loop of `load_all_data`. */
    method LoadOne(success: bool, pair: string) returns (success': bool)
      modifies this
      ensures LoadState(success', tables) == LoadPair(env, LoadState(success, old(tables)), pair)
    {
      success' := success;
      var parts := Split(pair, ':');
      if |parts| != 2 {
        return;
      }
      var path := InDataDir(env, parts[0]);
      if path !in env.files {
        return;
      }
      match env.files[path]
      case Unreadable =>
        success' := false;
      case Readable(rows) =>
        var records := ReadCsv(rows);
        if records != [] && success {
          success' := InsertData(parts[1], records);
        }
    }

    /** `load_table_data(table, file_path)`. */
    method LoadTableData(table: string, filePath: Option<string>) returns (ok: bool)
      modifies this
      ensures (ok, tables) == LoadTable(env, old(tables), table, filePath)
    {
      var path := TablePath(env, table, filePath);
      if path !in env.files {
        return false;
      }
      match env.files[path]
      case Unreadable =>
        return false;
      case Readable(rows) =>
        var records := ReadCsv(rows);
        if records == [] {
          return false;
        }
        ok := InsertData(table, records);
    }
  }
}
