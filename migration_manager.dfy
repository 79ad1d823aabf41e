// SqlMigrationManager, in fastapi_migration/database/db_migrations/core/manager.py
// and in its earlier copy zando/database/_Archive/POC/migrations.py: SQL
// files per schema component, applied in dependency order (or its reverse),
// stopping at the first file that fails.
//
// The database is the sequence of SQL scripts it has committed. Whether a
// script executes without error is a parameter (`SqlRunner`), as is the file
// system: the files with their contents and the directories with their
// listings, in `os.listdir` order.
module MigrationManager {
  import opened Wrappers
  import opened Seqs
  import opened PyStr
  import Sorting

  datatype Fs = Fs(files: map<string, string>, dirs: map<string, seq<string>>)

  /** Whether the database executes a script without raising. */
  type SqlRunner = string -> bool

  /** `os.path.exists`. */
  predicate Exists(fs: Fs, path: string) {
    path in fs.files || path in fs.dirs
  }

  /**
   * `_execute_sql_file` succeeds: the file opens (a directory does not) and its
   * SQL executes; on an execution error the session is rolled back and the
   * error re-raised.
   */
  predicate Executes(fs: Fs, runs: SqlRunner, path: string) {
    path in fs.files && runs(fs.files[path])
  }

  /** The contents of a file; only called on files. */
  function Read(fs: Fs, path: string): string {
    if path in fs.files then fs.files[path] else ""
  }

  /** `os.path.join` of a directory and a relative name. */
  function PathJoin(dir: string, name: string): string {
    dir + "/" + name
  }

  /**
   * Where the two copies look for files: `sql_dir/<component>/<file>` in the
   * core manager and `<module dir>/sql/<component>/<file>` in the earlier copy;
   * directory migrations are resolved against `sql_dir` in the former and the
   * module directory in the latter.
   */
  datatype Layout = Layout(componentRoot: string, directoryRoot: string)

  /** The core manager (manager.py:43, 73, 132, 158, 182). */
  function CoreLayout(sqlDir: string): Layout {
    Layout(sqlDir, sqlDir)
  }

  /** The earlier copy (migrations.py:49, 82, 108, 132). */
  function PocLayout(moduleDir: string): Layout {
    Layout(PathJoin(moduleDir, "sql"), moduleDir)
  }

  function ComponentPath(layout: Layout, component: string, file: string): string {
    PathJoin(PathJoin(layout.componentRoot, component), file)
  }

  // ---------------------------------------------------------------------------
  // Component order (manager.py:234-257, migrations.py:184-207)
  // ---------------------------------------------------------------------------

  const ComponentOrder: seq<string> := ["config", "types", "tables", "sequences", "functions", "views"]

  function Reversed<T>(s: seq<T>): (r: seq<T>)
    ensures |r| == |s| && forall i :: 0 <= i < |s| ==> r[i] == s[|s| - 1 - i]
  {
    if s == [] then [] else Reversed(s[1..]) + [s[0]]
  }

  /** `_get_components_in_order(component_type, reverse)`; `Err` is the ValueError it raises. */
  function ComponentsInOrder(componentType: Option<string>, reverse: bool): Result<seq<string>, string> {
    var chosen :=
      if componentType == None || componentType == Some("all") then Ok(ComponentOrder)
      else if componentType.value in ComponentOrder then Ok([componentType.value])
      else Err("Unknown component type: " + componentType.value);
    if chosen.Ok? && reverse then Ok(Reversed(chosen.value)) else chosen
  }

  // ---------------------------------------------------------------------------
  // Running a list of files, stopping at the first failure
  // ---------------------------------------------------------------------------

  datatype SweepResult = SweepResult(ok: bool, sql: seq<string>)

  /**
   * The loops of `migrate_up`, `migrate_down` and `apply_directory_migrations`:
   * each file is executed in turn (skipped when `checkExists` and it does not
   * exist); the first failure sets `success = False` and breaks. `sql` is what
   * the database committed.
   */
  function Sweep(fs: Fs, runs: SqlRunner, paths: seq<string>, checkExists: bool): SweepResult {
    if paths == [] then SweepResult(true, [])
    else
      var prev := Sweep(fs, runs, paths[..|paths| - 1], checkExists);
      var p := paths[|paths| - 1];
      if !prev.ok || (checkExists && !Exists(fs, p)) then prev
      else if Executes(fs, runs, p) then SweepResult(true, prev.sql + [Read(fs, p)])
      else SweepResult(false, prev.sql)
  }

  /** The files that exist, in order. */
  function ExistingFiles(fs: Fs, paths: seq<string>): (r: seq<string>)
    ensures forall i :: 0 <= i < |r| ==> Exists(fs, r[i])
  {
    if paths == [] then []
    else
      var p := paths[|paths| - 1];
      ExistingFiles(fs, paths[..|paths| - 1]) + (if Exists(fs, p) then [p] else [])
  }

  /** The scripts of the files, in order. */
  function Scripts(fs: Fs, paths: seq<string>): (r: seq<string>)
    ensures |r| == |paths|
  {
    if paths == [] then [] else Scripts(fs, paths[..|paths| - 1]) + [Read(fs, paths[|paths| - 1])]
  }

  /** The index of the first file that fails to execute, or the length when none does. */
  function FirstFailure(fs: Fs, runs: SqlRunner, paths: seq<string>): (k: nat)
    ensures k <= |paths|
    ensures forall i :: 0 <= i < k ==> Executes(fs, runs, paths[i])
    ensures k < |paths| ==> !Executes(fs, runs, paths[k])
  {
    if paths == [] || !Executes(fs, runs, paths[0]) then 0 else 1 + FirstFailure(fs, runs, paths[1..])
  }

  /** Those conditions pin the index down. */
  lemma FirstFailureUnique(fs: Fs, runs: SqlRunner, paths: seq<string>, k: nat)
    requires k <= |paths|
    requires forall i :: 0 <= i < k ==> Executes(fs, runs, paths[i])
    requires k < |paths| ==> !Executes(fs, runs, paths[k])
    ensures FirstFailure(fs, runs, paths) == k
  {
  }

  lemma SweepStep(fs: Fs, runs: SqlRunner, paths: seq<string>, i: nat, checkExists: bool)
    requires i < |paths|
    ensures Sweep(fs, runs, paths[..i + 1], checkExists) ==
            var prev := Sweep(fs, runs, paths[..i], checkExists);
            if !prev.ok || (checkExists && !Exists(fs, paths[i])) then prev
            else if Executes(fs, runs, paths[i]) then SweepResult(true, prev.sql + [Read(fs, paths[i])])
            else SweepResult(false, prev.sql)
  {
    assert paths[..i + 1][..i] == paths[..i];
  }

  /** Once a file has failed, the rest of the list changes nothing. */
  lemma {:induction false} FailureSticks(fs: Fs, runs: SqlRunner, paths: seq<string>, k: nat, checkExists: bool)
    requires k <= |paths| && !Sweep(fs, runs, paths[..k], checkExists).ok
    ensures Sweep(fs, runs, paths, checkExists) == Sweep(fs, runs, paths[..k], checkExists)
    decreases |paths| - k
  {
    if k < |paths| {
      SweepStep(fs, runs, paths, k, checkExists);
      FailureSticks(fs, runs, paths, k + 1, checkExists);
    } else {
      assert paths[..k] == paths;
    }
  }

  /** Checking existence first is running the existing files only. */
  lemma {:induction false} SkipMissing(fs: Fs, runs: SqlRunner, paths: seq<string>)
    ensures Sweep(fs, runs, paths, true) == Sweep(fs, runs, ExistingFiles(fs, paths), false)
  {
    if paths != [] {
      var init := paths[..|paths| - 1];
      var p := paths[|paths| - 1];
      SkipMissing(fs, runs, init);
      var a := ExistingFiles(fs, init);
      if Exists(fs, p) {
        assert ExistingFiles(fs, paths) == a + [p];
        SweepSnoc(fs, runs, a, p);
      } else {
        assert ExistingFiles(fs, paths) == a;
      }
    }
  }

  /** Sweeping one more file without existence checks. */
  lemma SweepSnoc(fs: Fs, runs: SqlRunner, a: seq<string>, p: string)
    ensures var prev := Sweep(fs, runs, a, false);
            Sweep(fs, runs, a + [p], false) ==
              if !prev.ok then prev
              else if Executes(fs, runs, p) then SweepResult(true, prev.sql + [Read(fs, p)])
              else SweepResult(false, prev.sql)
  {
    assert (a + [p])[..|a|] == a;
  }

  /**
   * Run without existence checks, the loop succeeds exactly when every file
   * executes; the database then holds all their scripts, in order. Otherwise
   * it holds the scripts of the files before the first failing one, and
   * nothing after it.
   */
  lemma {:induction false} SweepStopsAtFirstFailure(fs: Fs, runs: SqlRunner, paths: seq<string>)
    ensures var k := FirstFailure(fs, runs, paths);
            Sweep(fs, runs, paths, false) == SweepResult(k == |paths|, Scripts(fs, paths[..k]))
  {
    if paths != [] {
      var init := paths[..|paths| - 1];
      var p := paths[|paths| - 1];
      SweepStopsAtFirstFailure(fs, runs, init);
      var k := FirstFailure(fs, runs, init);
      assert forall i :: 0 <= i < |init| ==> paths[i] == init[i];
      if k < |init| {
        FirstFailureUnique(fs, runs, paths, k);
        assert paths[..k] == init[..k];
      } else if Executes(fs, runs, p) {
        FirstFailureUnique(fs, runs, paths, k + 1);
        assert paths[..k + 1] == init[..k] + [p];
        assert (init[..k] + [p])[..k] == init[..k];
      } else {
        FirstFailureUnique(fs, runs, paths, k);
        assert paths[..k] == init[..k];
      }
    }
  }

  // ---------------------------------------------------------------------------
  // The operations, as values
  // ---------------------------------------------------------------------------

  function ComponentPaths(layout: Layout, components: seq<string>, file: string): seq<string> {
    Map(components, c => ComponentPath(layout, c, file))
  }

  /** `migrate_up` (`down` false) or `migrate_down` (`down` true): the result and the scripts committed. */
  function Migration(layout: Layout, fs: Fs, runs: SqlRunner, componentType: Option<string>, down: bool): (Result<bool, string>, seq<string>) {
    var plan := ComponentsInOrder(componentType, down);
    if plan.Err? then (Err(plan.error), [])
    else
      var s := Sweep(fs, runs, ComponentPaths(layout, plan.value, if down then "down.sql" else "up.sql"), true);
      (Ok(s.ok), s.sql)
  }

  /** The files `apply_directory_migrations` runs: the ".sql" entries, sorted by name. */
  function DirectoryFiles(listing: seq<string>): seq<string> {
    Sorting.StableSort(Filter(listing, name => EndsWith(name, ".sql")), Sorting.LexLess)
  }

  /** `os.path.join(dir_path, sql_file)` for each file. */
  function DirectoryPaths(dirPath: string, names: seq<string>): seq<string> {
    Map(names, name => PathJoin(dirPath, name))
  }

  /** `apply_directory_migrations(directory)`: the result and the scripts committed. */
  function DirectoryMigration(layout: Layout, fs: Fs, runs: SqlRunner, directory: string): (bool, seq<string>) {
    var dirPath := PathJoin(layout.directoryRoot, directory);
    if dirPath !in fs.dirs then (false, [])
    else
      var s := Sweep(fs, runs, DirectoryPaths(dirPath, DirectoryFiles(fs.dirs[dirPath])), false);
      (s.ok, s.sql)
  }

  // ---------------------------------------------------------------------------
  // Configuration (manager.py:259-289, migrations.py:209-239)
  // ---------------------------------------------------------------------------

  datatype ComponentEntry = ComponentEntry(name: string, order: nat, directory: string)
  datatype Config = Config(defaultSchema: string, components: seq<ComponentEntry>)

  function DefaultConfig(): Config {
    Config("public", [ComponentEntry("config", 1, "sql/config"), ComponentEntry("types", 2, "sql/types"),
                      ComponentEntry("tables", 3, "sql/tables"), ComponentEntry("sequences", 4, "sql/sequences"),
                      ComponentEntry("functions", 5, "sql/functions"), ComponentEntry("views", 6, "sql/views")])
  }

  /**
   * `_load_config`: the parsed file when it exists (YAML parsing is a
   * parameter), the defaults otherwise; `None` when the path is a directory,
   * which `open` refuses.
   */
  function LoadConfig(fs: Fs, path: string, parse: string -> Config): Option<Config> {
    if path in fs.files then Some(parse(fs.files[path]))
    else if path in fs.dirs then None
    else Some(DefaultConfig())
  }

  // ---------------------------------------------------------------------------
  // The manager
  // ---------------------------------------------------------------------------

  class SqlMigrationManager {
    const layout: Layout
    const fs: Fs
    const runs: SqlRunner
    /** The scripts the database has committed, oldest first. */
    var committed: seq<string>

    constructor (layout: Layout, fs: Fs, runs: SqlRunner, history: seq<string>)
      ensures this.layout == layout && this.fs == fs && this.runs == runs && committed == history
    {
      this.layout := layout;
      this.fs := fs;
      this.runs := runs;
      committed := history;
    }

    /** `_execute_sql_file`: `false` stands for the exception it raises, after which nothing is committed. */
    method ExecuteSqlFile(path: string) returns (ok: bool)
      modifies this
      ensures ok == Executes(fs, runs, path)
      ensures committed == old(committed) + (if ok then [Read(fs, path)] else [])
    {
      if path !in fs.files {
        return false;
      }
      var sql := fs.files[path];
      if runs(sql) {
        committed := committed + [sql];
        return true;
      }
      return false;
    }

    /** The success-flag loop with `break`, over a list of files. */
    method RunFiles(paths: seq<string>, checkExists: bool) returns (success: bool)
      modifies this
      ensures success == Sweep(fs, runs, paths, checkExists).ok
      ensures committed == old(committed) + Sweep(fs, runs, paths, checkExists).sql
    {
      success := true;
      var i := 0;
      while i < |paths|
        invariant 0 <= i <= |paths|
        invariant Sweep(fs, runs, paths[..i], checkExists).ok
        invariant committed == old(committed) + Sweep(fs, runs, paths[..i], checkExists).sql
      {
        SweepStep(fs, runs, paths, i, checkExists);
        var path := paths[i];
        if !checkExists || Exists(fs, path) {
          var ok := ExecuteSqlFile(path);
          if !ok {
            FailureSticks(fs, runs, paths, i + 1, checkExists);
            success := false;
            break;
          }
        }
        i := i + 1;
      }
      if success {
        assert paths[..i] == paths;
      }
    }

    /** `migrate_up(component_type)`; `Err` is the ValueError for an unknown component. */
    method MigrateUp(componentType: Option<string>) returns (r: Result<bool, string>)
      modifies this
      ensures r == Migration(layout, fs, runs, componentType, false).0
      ensures committed == old(committed) + Migration(layout, fs, runs, componentType, false).1
    {
      var components := ComponentsInOrder(componentType, false);
      if components.Err? {
        return Err(components.error);
      }
      var success := RunFiles(ComponentPaths(layout, components.value, "up.sql"), true);
      return Ok(success);
    }

    /** `migrate_down(component_type)`. */
    method MigrateDown(componentType: Option<string>) returns (r: Result<bool, string>)
      modifies this
      ensures r == Migration(layout, fs, runs, componentType, true).0
      ensures committed == old(committed) + Migration(layout, fs, runs, componentType, true).1
    {
      var components := ComponentsInOrder(componentType, true);
      if components.Err? {
        return Err(components.error);
      }
      var success := RunFiles(ComponentPaths(layout, components.value, "down.sql"), true);
      return Ok(success);
    }

    /** `apply_specific_migration`: true exactly when the file exists and executes. */
    method ApplySpecificMigration(componentType: string, filename: string) returns (ok: bool)
      modifies this
      ensures var path := ComponentPath(layout, componentType, filename);
              ok == (Exists(fs, path) && Executes(fs, runs, path)) &&
              committed == old(committed) + (if ok then [Read(fs, path)] else [])
    {
      var path := ComponentPath(layout, componentType, filename);
      if !Exists(fs, path) {
        return false;
      }
      ok := ExecuteSqlFile(path);
    }

    /** `apply_directory_migrations`. */
    method ApplyDirectoryMigrations(directory: string) returns (ok: bool)
      modifies this
      ensures ok == DirectoryMigration(layout, fs, runs, directory).0
      ensures committed == old(committed) + DirectoryMigration(layout, fs, runs, directory).1
    {
      var dirPath := PathJoin(layout.directoryRoot, directory);
      if dirPath !in fs.dirs {
        return false;
      }
      var sqlFiles := DirectoryFiles(fs.dirs[dirPath]);
      ok := RunFiles(DirectoryPaths(dirPath, sqlFiles), false);
    }
  }

  // ---------------------------------------------------------------------------
  // Properties
  // ---------------------------------------------------------------------------

  /**
   * "all" or no component gives the dependency order, a known component
   * itself alone, anything else the ValueError; the down order is the up order
   * reversed.
   */
  lemma ComponentsInOrderSpec(componentType: Option<string>)
    ensures componentType == None || componentType == Some("all") ==>
              ComponentsInOrder(componentType, false) == Ok(ComponentOrder)
    ensures componentType.Some? && componentType.value != "all" && componentType.value in ComponentOrder ==>
              ComponentsInOrder(componentType, false) == Ok([componentType.value])
    ensures componentType.Some? && componentType.value != "all" && componentType.value !in ComponentOrder ==>
              ComponentsInOrder(componentType, false).Err? && ComponentsInOrder(componentType, true).Err?
    ensures ComponentsInOrder(componentType, false).Ok? ==>
              ComponentsInOrder(componentType, true) == Ok(Reversed(ComponentsInOrder(componentType, false).value))
  {
  }

  /** Rolling everything back visits the components from views down to config. */
  lemma DownOrderIsReversed()
    ensures ComponentsInOrder(None, true) == Ok(["views", "functions", "sequences", "tables", "types", "config"])
  {
    var r := Reversed(ComponentOrder);
    assert |r| == 6;
    assert r[0] == ComponentOrder[5] && r[1] == ComponentOrder[4] && r[2] == ComponentOrder[3];
    assert r[3] == ComponentOrder[2] && r[4] == ComponentOrder[1] && r[5] == ComponentOrder[0];
    assert r == ["views", "functions", "sequences", "tables", "types", "config"];
  }

  /**
   * `migrate_up` on a known component list succeeds exactly when every
   * existing `up.sql` executes; missing files are skipped and do not count
   * against success; on failure nothing after the failing file is committed.
   */
  lemma MigrationStopsAtFirstFailure(layout: Layout, fs: Fs, runs: SqlRunner, componentType: Option<string>, down: bool)
    requires ComponentsInOrder(componentType, down).Ok?
    ensures var paths := ComponentPaths(layout, ComponentsInOrder(componentType, down).value, if down then "down.sql" else "up.sql");
            var present := ExistingFiles(fs, paths);
            var k := FirstFailure(fs, runs, present);
            var m := Migration(layout, fs, runs, componentType, down);
            (m.0 == Ok(true) <==> forall i :: 0 <= i < |present| ==> Executes(fs, runs, present[i])) &&
            m.1 == Scripts(fs, present[..k])
  {
    var paths := ComponentPaths(layout, ComponentsInOrder(componentType, down).value, if down then "down.sql" else "up.sql");
    SkipMissing(fs, runs, paths);
    SweepStopsAtFirstFailure(fs, runs, ExistingFiles(fs, paths));
  }

  /** A directory that does not exist gives `False` and runs nothing. */
  lemma MissingDirectoryFails(layout: Layout, fs: Fs, runs: SqlRunner, directory: string)
    requires PathJoin(layout.directoryRoot, directory) !in fs.dirs
    ensures DirectoryMigration(layout, fs, runs, directory) == (false, [])
  {
  }

  /**
   * In an existing directory, every sorted ".sql" file is run until one fails:
   * the result is true exactly when all of them execute, and nothing after
   * the failing one is committed.
   */
  lemma DirectoryStopsAtFirstFailure(layout: Layout, fs: Fs, runs: SqlRunner, directory: string)
    requires PathJoin(layout.directoryRoot, directory) in fs.dirs
    ensures var dirPath := PathJoin(layout.directoryRoot, directory);
            var paths := DirectoryPaths(dirPath, DirectoryFiles(fs.dirs[dirPath]));
            var k := FirstFailure(fs, runs, paths);
            var m := DirectoryMigration(layout, fs, runs, directory);
            (m.0 <==> forall i :: 0 <= i < |paths| ==> Executes(fs, runs, paths[i])) && m.1 == Scripts(fs, paths[..k])
  {
    var dirPath := PathJoin(layout.directoryRoot, directory);
    SweepStopsAtFirstFailure(fs, runs, DirectoryPaths(dirPath, DirectoryFiles(fs.dirs[dirPath])));
  }

  lemma LexLessStrictWeak()
    ensures Sorting.StrictWeak(Sorting.LexLess)
  {
    forall a, b | Sorting.LexLess(a, b) ensures !Sorting.LexLess(b, a) {
      Sorting.LexAsymmetric(a, b);
    }
    forall a, b, c | !Sorting.LexLess(a, b) && !Sorting.LexLess(b, c) ensures !Sorting.LexLess(a, c) {
      if Sorting.LexLess(a, c) {
        Sorting.LexSplit(a, b, c);
      }
    }
  }

  /** The directory's files are run in name order, every ".sql" entry and nothing else. */
  lemma DirectoryFilesSorted(listing: seq<string>)
    ensures Sorting.SortedBy(DirectoryFiles(listing), Sorting.LexLess)
    ensures multiset(DirectoryFiles(listing)) == multiset(Filter(listing, name => EndsWith(name, ".sql")))
    ensures forall i :: 0 <= i < |DirectoryFiles(listing)| ==> EndsWith(DirectoryFiles(listing)[i], ".sql")
  {
    var sqlFiles := Filter(listing, name => EndsWith(name, ".sql"));
    LexLessStrictWeak();
    Sorting.StableSortSorted(sqlFiles, Sorting.LexLess);
    forall i | 0 <= i < |DirectoryFiles(listing)| ensures EndsWith(DirectoryFiles(listing)[i], ".sql") {
      assert DirectoryFiles(listing)[i] in multiset(sqlFiles);
    }
  }

  /** The default configuration lists the components in the order the manager runs them, numbered from 1. */
  lemma DefaultConfigAgrees()
    ensures var cs := DefaultConfig().components;
            |cs| == |ComponentOrder| &&
            forall i :: 0 <= i < |cs| ==> cs[i].name == ComponentOrder[i] && cs[i].order == i + 1 &&
                                          cs[i].directory == "sql/" + ComponentOrder[i]
  {
  }

  /** Both copies resolve a component's files to the same place below the module's `sql` directory. */
  lemma LayoutsAgree(moduleDir: string, component: string, file: string)
    ensures ComponentPath(PocLayout(moduleDir), component, file) == ComponentPath(CoreLayout(PathJoin(moduleDir, "sql")), component, file)
    ensures ComponentPath(PocLayout(moduleDir), component, file) == moduleDir + "/sql/" + component + "/" + file
  {
  }
}
