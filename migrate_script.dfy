// The stand-alone migration script db/scripts/migrate.py: every directory
// under `migrations/` is a version, applied in sorted order unless the
// `schema_migrations` table already records it. Within a version the SQL
// files run one after another on one connection; an error in a file is
// logged and the next file runs, and the version is recorded whatever the
// files did. Only an error of the recording insert escapes: the transaction
// is rolled back and the run stops.
//
// The database is the `schema_migrations` rows plus the scripts whose effects
// it has committed. Whether a script executes and whether the recording insert
// raises (besides the primary-key clash, which is modelled) are parameters, as
// is the file system (`MigrationManager.Fs`).
module MigrateScript {
  import opened Seqs
  import opened PyStr
  import Sorting
  import MM = MigrationManager

  /** The two versions that get special handling (migrate.py:54, 362). */
  const DataVersion: string := "0002_populate_core_data"
  const FunctionsVersion: string := "0004_database_functions"

  // ---------------------------------------------------------------------------
  // Description (migrate.py:50)
  // ---------------------------------------------------------------------------

  /** `version.split('_', 1)[1] if '_' in version else version`. */
  function Description(version: string): (d: string)
    ensures |d| <= |version|
  {
    if '_' in version then version[FirstIndex(version, '_') + 1..] else version
  }

  /**
   * The description is what follows the first underscore: the version is an
   * underscore-free prefix, one underscore and the description; without an
   * underscore it is the whole version.
   */
  lemma DescriptionSpec(version: string)
    ensures '_' !in version ==> Description(version) == version
    ensures '_' in version ==>
              var d := Description(version);
              var prefix := version[..|version| - |d| - 1];
              |d| < |version| && '_' !in prefix && version == prefix + "_" + d
  {
    if '_' in version {
      var i := FirstIndex(version, '_');
      assert version == version[..i] + "_" + version[i + 1..];
    }
  }

  /** Later underscores stay in the description. */
  lemma DescriptionExample()
    ensures Description("0001_initial_schema") == "initial_schema"
    ensures Description("0003") == "0003"
  {
    assert "0001_initial_schema"[4] == '_';
    assert '_' !in "0001_initial_schema"[..4];
    assert FirstIndex("0001_initial_schema", '_') == 4;
  }

  // ---------------------------------------------------------------------------
  // File selection (migrate.py:58-59, 366-379, 393-400)
  // ---------------------------------------------------------------------------

  /** The names `os.listdir` would give; none for a path that is not a directory. */
  function Listing(fs: MM.Fs, dir: string): seq<string> {
    if dir in fs.dirs then fs.dirs[dir] else []
  }

  /** `glob` does not match names that start with a dot against `*`. */
  predicate Visible(name: string) {
    !StartsWith(name, ".")
  }

  /** The names `*.sql` matches. */
  predicate IsSqlName(name: string) {
    Visible(name) && EndsWith(name, ".sql")
  }

  /** `glob(os.path.join(dir, '*.sql'))`, in listing order. */
  function GlobSql(fs: MM.Fs, dir: string): seq<string> {
    MM.DirectoryPaths(dir, Filter(Listing(fs, dir), IsSqlName))
  }

  /** The filter of migrate.py:399, on the full path. */
  predicate NotDown(path: string) {
    !EndsWith(path, "down.sql")
  }

  function SortPaths(paths: seq<string>): seq<string> {
    Sorting.StableSort(paths, Sorting.LexLess)
  }

  function UpPath(dir: string): string {
    MM.PathJoin(dir, "up.sql")
  }

  function FunctionsDir(dir: string): string {
    MM.PathJoin(dir, "functions")
  }

  /** A normal migration: `up.sql` alone when it exists, else the sorted `.sql` files except those ending in `down.sql`. */
  function NormalFiles(fs: MM.Fs, dir: string): seq<string> {
    if MM.Exists(fs, UpPath(dir)) then [UpPath(dir)]
    else SortPaths(Filter(GlobSql(fs, dir), NotDown))
  }

  /** The optional `up.sql` the two special migrations run first. */
  function UpIfPresent(fs: MM.Fs, dir: string): seq<string> {
    if MM.Exists(fs, UpPath(dir)) then [UpPath(dir)] else []
  }

  /** The functions migration: `up.sql`, then the `.sql` files under `functions` sorted, when `functions` is a directory. */
  function FunctionFiles(fs: MM.Fs, dir: string): seq<string> {
    UpIfPresent(fs, dir) + (if FunctionsDir(dir) in fs.dirs then SortPaths(GlobSql(fs, FunctionsDir(dir))) else [])
  }

  /** The SQL files `apply_migration` runs for a version in `dir`. */
  function Files(fs: MM.Fs, dir: string, version: string): seq<string> {
    if version == DataVersion then UpIfPresent(fs, dir)
    else if version == FunctionsVersion then FunctionFiles(fs, dir)
    else NormalFiles(fs, dir)
  }

  lemma SortPathsSpec(paths: seq<string>)
    ensures Sorting.SortedBy(SortPaths(paths), Sorting.LexLess)
    ensures multiset(SortPaths(paths)) == multiset(paths)
  {
    MM.LexLessStrictWeak();
    Sorting.StableSortSorted(paths, Sorting.LexLess);
  }

  /** Every path `GlobSql` gives is a visible `.sql` name in the directory. */
  lemma GlobSqlSpec(fs: MM.Fs, dir: string, path: string)
    ensures path in GlobSql(fs, dir) <==>
            exists name :: name in Listing(fs, dir) && IsSqlName(name) && path == MM.PathJoin(dir, name)
  {
    var names := Filter(Listing(fs, dir), IsSqlName);
    if path in GlobSql(fs, dir) {
      var i :| 0 <= i < |names| && GlobSql(fs, dir)[i] == path;
      assert names[i] in Listing(fs, dir);
    }
    if exists name :: name in Listing(fs, dir) && IsSqlName(name) && path == MM.PathJoin(dir, name) {
      var name :| name in Listing(fs, dir) && IsSqlName(name) && path == MM.PathJoin(dir, name);
      var j :| 0 <= j < |Listing(fs, dir)| && Listing(fs, dir)[j] == name;
      assert name in names;
      var i :| 0 <= i < |names| && names[i] == name;
      assert GlobSql(fs, dir)[i] == path;
    }
  }

  /**
   * A normal migration runs `up.sql` alone when it exists; otherwise it runs,
   * sorted, exactly the `.sql` files of the directory whose path does not end in
   * "down.sql" (so a `teardown.sql` is skipped too).
   */
  lemma NormalFilesSpec(fs: MM.Fs, dir: string)
    ensures MM.Exists(fs, UpPath(dir)) ==> NormalFiles(fs, dir) == [UpPath(dir)]
    ensures !MM.Exists(fs, UpPath(dir)) ==>
              Sorting.SortedBy(NormalFiles(fs, dir), Sorting.LexLess) &&
              forall path :: path in NormalFiles(fs, dir) <==> path in GlobSql(fs, dir) && NotDown(path)
  {
    if !MM.Exists(fs, UpPath(dir)) {
      var kept := Filter(GlobSql(fs, dir), NotDown);
      SortPathsSpec(kept);
      forall path ensures path in NormalFiles(fs, dir) <==> path in GlobSql(fs, dir) && NotDown(path) {
        assert path in NormalFiles(fs, dir) <==> path in multiset(kept);
        if path in GlobSql(fs, dir) && NotDown(path) {
          var i :| 0 <= i < |GlobSql(fs, dir)| && GlobSql(fs, dir)[i] == path;
          assert path in kept;
        }
      }
    }
  }

  /** The functions migration runs `up.sql` (when present) before the `.sql` files under `functions`, in sorted order. */
  lemma FunctionFilesSpec(fs: MM.Fs, dir: string)
    ensures var files := FunctionFiles(fs, dir);
            var first := if MM.Exists(fs, UpPath(dir)) then 1 else 0;
            first <= |files| &&
            (first == 1 ==> files[0] == UpPath(dir)) &&
            Sorting.SortedBy(files[first..], Sorting.LexLess) &&
            (FunctionsDir(dir) in fs.dirs ==> multiset(files[first..]) == multiset(GlobSql(fs, FunctionsDir(dir)))) &&
            (FunctionsDir(dir) !in fs.dirs ==> files[first..] == [])
  {
    var files := FunctionFiles(fs, dir);
    var up := UpIfPresent(fs, dir);
    assert files[|up|..] == (if FunctionsDir(dir) in fs.dirs then SortPaths(GlobSql(fs, FunctionsDir(dir))) else []);
    SortPathsSpec(GlobSql(fs, FunctionsDir(dir)));
  }

  // ---------------------------------------------------------------------------
  // Running the files of one version (migrate.py:60-64, 368-372, 382-388, 403-409)
  // ---------------------------------------------------------------------------

  /** The scripts that took effect: each file that opens and executes, in order; the others are logged. */
  function Ran(fs: MM.Fs, runs: MM.SqlRunner, paths: seq<string>): (r: seq<string>)
    ensures |r| <= |paths|
  {
    if paths == [] then []
    else
      var p := paths[|paths| - 1];
      Ran(fs, runs, paths[..|paths| - 1]) + (if MM.Executes(fs, runs, p) then [MM.Read(fs, p)] else [])
  }

  lemma RanStep(fs: MM.Fs, runs: MM.SqlRunner, paths: seq<string>, i: nat)
    requires i < |paths|
    ensures Ran(fs, runs, paths[..i + 1]) ==
            Ran(fs, runs, paths[..i]) + (if MM.Executes(fs, runs, paths[i]) then [MM.Read(fs, paths[i])] else [])
  {
    assert paths[..i + 1][..i] == paths[..i];
  }

  lemma {:induction false} RanAppend(fs: MM.Fs, runs: MM.SqlRunner, a: seq<string>, b: seq<string>)
    ensures Ran(fs, runs, a + b) == Ran(fs, runs, a) + Ran(fs, runs, b)
    decreases |b|
  {
    if b == [] {
      assert a + b == a;
    } else {
      var init := b[..|b| - 1];
      assert (a + b)[..|a + b| - 1] == a + init;
      RanAppend(fs, runs, a, init);
      AppendAssoc(Ran(fs, runs, a), Ran(fs, runs, init),
                  if MM.Executes(fs, runs, b[|b| - 1]) then [MM.Read(fs, b[|b| - 1])] else []);
    }
  }

  /**
   * A failing file is skipped and the files after it still run, unlike the
   * migration manager, which stops there.
   */
  lemma ContinuesPastErrors(fs: MM.Fs, runs: MM.SqlRunner, before: seq<string>, failed: string, after: seq<string>)
    requires !MM.Executes(fs, runs, failed)
    ensures Ran(fs, runs, before + [failed] + after) == Ran(fs, runs, before) + Ran(fs, runs, after)
  {
    var upTo := before + [failed];
    assert upTo[..|upTo| - 1] == before;
    assert Ran(fs, runs, upTo) == Ran(fs, runs, before);
    RanAppend(fs, runs, upTo, after);
  }

  /** When every file executes, every file's script takes effect, as in the manager's sweep. */
  lemma {:induction false} RanAllExecute(fs: MM.Fs, runs: MM.SqlRunner, paths: seq<string>)
    requires forall i :: 0 <= i < |paths| ==> MM.Executes(fs, runs, paths[i])
    ensures Ran(fs, runs, paths) == MM.Scripts(fs, paths)
  {
    if paths != [] {
      RanAllExecute(fs, runs, paths[..|paths| - 1]);
    }
  }

  // ---------------------------------------------------------------------------
  // The schema_migrations table and one version (migrate.py:47-421)
  // ---------------------------------------------------------------------------

  /** A `schema_migrations` row; `applied_at` is left to the database clock. */
  datatype Row = Row(version: string, description: string)

  function VersionOf(row: Row): string {
    row.version
  }

  /** `get_applied_migrations` (migrate.py:41-45): the recorded versions. */
  function Versions(rows: seq<Row>): seq<string> {
    Map(rows, VersionOf)
  }

  /** The row `apply_migration` inserts for a version. */
  function Record(version: string): Row {
    Row(version, Description(version))
  }

  /**
   * Everything the database and the file system supply: the files, which
   * scripts execute, which recording inserts raise for a reason other than the
   * primary key, and the `migrations` directory.
   */
  datatype Env = Env(fs: MM.Fs, runs: MM.SqlRunner, insertFails: string -> bool, migrationsPath: string)

  /** The recording insert raises: the version is already a key, or the database refuses it. */
  predicate RecordFails(env: Env, rows: seq<Row>, version: string) {
    version in Versions(rows) || env.insertFails(version)
  }

  datatype Outcome = Outcome(ok: bool, rows: seq<Row>, committed: seq<string>)

  /**
   * `apply_migration` for `migrationsPath/name`: the selected files run in one
   * transaction, then the version is recorded and the transaction committed; when
   * the insert raises the transaction is rolled back and `ok` is false (the
   * re-raise).
   */
  function Apply(env: Env, rows: seq<Row>, committed: seq<string>, name: string): Outcome {
    var dir := MM.PathJoin(env.migrationsPath, name);
    if RecordFails(env, rows, name) then Outcome(false, rows, committed)
    else Outcome(true, rows + [Record(name)], committed + Ran(env.fs, env.runs, Files(env.fs, dir, name)))
  }

  /**
   * The version is recorded whatever its SQL files did: two runs differing only
   * in which scripts execute record the same rows, and a raising insert leaves
   * the database as it was.
   */
  lemma RecordedRegardless(env: Env, runs: MM.SqlRunner, rows: seq<Row>, committed: seq<string>, name: string)
    ensures var o := Apply(env, rows, committed, name);
            var o' := Apply(env.(runs := runs), rows, committed, name);
            o.ok == o'.ok && o.rows == o'.rows
    ensures var o := Apply(env, rows, committed, name);
            (o.ok <==> !RecordFails(env, rows, name)) &&
            (o.ok ==> o.rows == rows + [Row(name, Description(name))]) &&
            (!o.ok ==> o.rows == rows && o.committed == committed)
  {
  }

  // ---------------------------------------------------------------------------
  // run_migrations (migrate.py:423-446)
  // ---------------------------------------------------------------------------

  /** The sorted entries of the `migrations` directory, as the sorted glob of every entry gives them. */
  function MigrationNames(env: Env): seq<string> {
    SortPaths(Filter(Listing(env.fs, env.migrationsPath), Visible))
  }

  /** Sorting the joined paths orders them as their names: they share the directory prefix. */
  lemma {:induction false} JoinedOrder(dir: string, a: string, b: string)
    ensures Sorting.LexLess(MM.PathJoin(dir, a), MM.PathJoin(dir, b)) <==> Sorting.LexLess(a, b)
  {
    PrefixOrder(dir + "/", a, b);
  }

  lemma {:induction false} PrefixOrder(p: string, a: string, b: string)
    ensures Sorting.LexLess(p + a, p + b) <==> Sorting.LexLess(a, b)
    decreases |p|
  {
    if p != [] {
      assert (p + a)[1..] == p[1..] + a && (p + b)[1..] == p[1..] + b;
      PrefixOrder(p[1..], a, b);
    } else {
      assert p + a == a && p + b == b;
    }
  }

  /** The names of `names` not in `applied`, in order. */
  function Pending(applied: seq<string>, names: seq<string>): seq<string> {
    Filter(names, name => name !in applied)
  }

  /**
   * The loop of migrate.py:440-443 over `names`, with `applied` read once
   * before it: a version already applied is skipped, any other is applied, and
   * the first one that raises ends the run.
   */
  function Run(env: Env, applied: seq<string>, rows: seq<Row>, committed: seq<string>, names: seq<string>): Outcome {
    if names == [] then Outcome(true, rows, committed)
    else
      var o := Run(env, applied, rows, committed, names[..|names| - 1]);
      var name := names[|names| - 1];
      if !o.ok || name in applied then o else Apply(env, o.rows, o.committed, name)
  }

  lemma RunStep(env: Env, applied: seq<string>, rows: seq<Row>, committed: seq<string>, names: seq<string>, i: nat)
    requires i < |names|
    ensures Run(env, applied, rows, committed, names[..i + 1]) ==
            var o := Run(env, applied, rows, committed, names[..i]);
            if !o.ok || names[i] in applied then o else Apply(env, o.rows, o.committed, names[i])
  {
    assert names[..i + 1][..i] == names[..i];
  }

  /** After a version raises, the remaining names change nothing. */
  lemma {:induction false} RunStopsAfterFailure(env: Env, applied: seq<string>, rows: seq<Row>, committed: seq<string>, names: seq<string>, k: nat)
    requires k <= |names| && !Run(env, applied, rows, committed, names[..k]).ok
    ensures Run(env, applied, rows, committed, names) == Run(env, applied, rows, committed, names[..k])
    decreases |names| - k
  {
    if k < |names| {
      RunStep(env, applied, rows, committed, names, k);
      RunStopsAfterFailure(env, applied, rows, committed, names, k + 1);
    } else {
      assert names[..k] == names;
    }
  }

  lemma PendingStep(applied: seq<string>, names: seq<string>)
    requires names != []
    ensures var last := names[|names| - 1];
            Pending(applied, names) ==
            Pending(applied, names[..|names| - 1]) + (if last !in applied then [last] else [])
  {
    var init := names[..|names| - 1];
    var last := names[|names| - 1];
    assert names == init + [last];
    FilterAppend(init, [last], name => name !in applied);
  }

  /**
   * The run records exactly the pending versions, in sorted-directory order, as
   * far as it gets: a prefix of them, all of them exactly when it succeeds.
   */
  lemma {:induction false} RunRecordsPending(env: Env, applied: seq<string>, rows: seq<Row>, committed: seq<string>, names: seq<string>)
    ensures RecordsPrefix(rows, Run(env, applied, rows, committed, names), Pending(applied, names))
    decreases |names|
  {
    var o := Run(env, applied, rows, committed, names);
    var p := Pending(applied, names);
    if names == [] {
      assert p == [] && o.rows == rows;
      assert rows + Map(p[..0], Record) == rows;
    } else {
      var init := names[..|names| - 1];
      var last := names[|names| - 1];
      var prev := Run(env, applied, rows, committed, init);
      RunRecordsPending(env, applied, rows, committed, init);
      PendingStep(applied, names);
      var q := Pending(applied, init);
      assert p[..|q|] == q;
      if !prev.ok {
        assert o == prev;
        PrefixExtends(rows, o, q, p);
      } else if last in applied {
        assert o == prev && p == q;
      } else {
        var a := Apply(env, prev.rows, prev.committed, last);
        assert o == a;
        if a.ok {
          RecordsAll(rows, prev, q, last, o);
        } else {
          assert a.rows == prev.rows && p == q + [last];
          FailsAtLast(rows, prev, q, last, o);
        }
      }
    }
  }

  /**
   * The rows after a run, from `rows`, over the pending versions `p`: a prefix
   * of `p` recorded in order, and all of it exactly when the run succeeded.
   */
  predicate RecordsPrefix(rows: seq<Row>, o: Outcome, p: seq<string>) {
    |rows| <= |o.rows| <= |rows| + |p| &&
    o.rows == rows + Map(p[..|o.rows| - |rows|], Record) &&
    (o.ok <==> |o.rows| == |rows| + |p|)
  }

  lemma PrefixExtends(rows: seq<Row>, o: Outcome, q: seq<string>, p: seq<string>)
    requires RecordsPrefix(rows, o, q) && !o.ok && |q| <= |p| && p[..|q|] == q
    ensures RecordsPrefix(rows, o, p)
  {
    var j := |o.rows| - |rows|;
    assert p[..j] == q[..j];
  }

  lemma FailsAtLast(rows: seq<Row>, prev: Outcome, q: seq<string>, last: string, o: Outcome)
    requires RecordsPrefix(rows, prev, q) && prev.ok
    requires !o.ok && o.rows == prev.rows
    ensures RecordsPrefix(rows, o, q + [last])
  {
    assert (q + [last])[..|q|] == q == q[..|q|];
  }

  lemma RecordsAll(rows: seq<Row>, prev: Outcome, q: seq<string>, last: string, o: Outcome)
    requires RecordsPrefix(rows, prev, q) && prev.ok
    requires o.ok && o.rows == prev.rows + [Record(last)]
    ensures RecordsPrefix(rows, o, q + [last])
  {
    var p := q + [last];
    assert q[..|q|] == q && p[..|p|] == p;
    MapAppend(q, [last], Record);
    assert Map([last], Record) == [Record(last)];
  }

  /** Versions are the table's primary key: a run never records a version twice. */
  lemma {:induction false} RunKeepsVersionsUnique(env: Env, applied: seq<string>, rows: seq<Row>, committed: seq<string>, names: seq<string>)
    requires Unique(Versions(rows))
    ensures Unique(Versions(Run(env, applied, rows, committed, names).rows))
    decreases |names|
  {
    if names != [] {
      var init := names[..|names| - 1];
      var last := names[|names| - 1];
      RunKeepsVersionsUnique(env, applied, rows, committed, init);
      var prev := Run(env, applied, rows, committed, init);
      if prev.ok && last !in applied && !RecordFails(env, prev.rows, last) {
        var vs := Versions(prev.rows + [Record(last)]);
        MapAppend(prev.rows, [Record(last)], VersionOf);
        assert vs == Versions(prev.rows) + [last];
      }
    }
  }

  predicate Unique(s: seq<string>) {
    forall i, j :: 0 <= i < j < |s| ==> s[i] != s[j]
  }

  /** The sweep of one version's files, without any database state. */
  method RunFiles(fs: MM.Fs, runs: MM.SqlRunner, paths: seq<string>) returns (scripts: seq<string>)
    ensures scripts == Ran(fs, runs, paths)
  {
    scripts := [];
    var i := 0;
    while i < |paths|
      invariant i <= |paths|
      invariant scripts == Ran(fs, runs, paths[..i])
    {
      RanStep(fs, runs, paths, i);
      if MM.Executes(fs, runs, paths[i]) {
        scripts := scripts + [MM.Read(fs, paths[i])];
      }
      i := i + 1;
    }
    assert paths[..i] == paths;
  }

  /** The connection of migrate.py: the `schema_migrations` rows and the committed scripts. */
  class MigrationDatabase {
    const env: Env
    var rows: seq<Row>
    var committed: seq<string>

    constructor (env: Env, rows: seq<Row>, committed: seq<string>)
      ensures this.env == env && this.rows == rows && this.committed == committed
    {
      this.env := env;
      this.rows := rows;
      this.committed := committed;
    }

    /** `apply_migration(conn, migrations/name)`; `ok` false is the re-raised insert error. */
    method ApplyMigration(name: string) returns (ok: bool)
      modifies this
      ensures Outcome(ok, rows, committed) == Apply(env, old(rows), old(committed), name)
    {
      var dir := MM.PathJoin(env.migrationsPath, name);
      var transaction := RunFiles(env.fs, env.runs, Files(env.fs, dir, name));
      if RecordFails(env, rows, name) {
        ok := false;
      } else {
        rows := rows + [Record(name)];
        committed := committed + transaction;
        ok := true;
      }
    }

    /** `run_migrations`: every pending version in sorted order, until one raises. */
    method RunMigrations() returns (ok: bool)
      modifies this
      ensures Outcome(ok, rows, committed) ==
              Run(env, Versions(old(rows)), old(rows), old(committed), MigrationNames(env))
    {
      var applied := Versions(rows);
      var names := MigrationNames(env);
      ghost var rows0, committed0 := rows, committed;
      ok := true;
      var i := 0;
      while i < |names|
        invariant i <= |names| && applied == Versions(rows0)
        invariant Outcome(true, rows, committed) == Run(env, applied, rows0, committed0, names[..i])
      {
        RunStep(env, applied, rows0, committed0, names, i);
        if names[i] !in applied {
          ok := ApplyMigration(names[i]);
          if !ok {
            RunStopsAfterFailure(env, applied, rows0, committed0, names, i + 1);
            return;
          }
        }
        i := i + 1;
      }
      assert names[..i] == names;
    }
  }
}
