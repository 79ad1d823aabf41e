# A verified model of the skin-genetics analysis core

The system reads a person's raw DNA file (AncestryDNA or 23andMe text), matches
the variant calls against a curated reference of SNPs, and assembles a report:
the mutations found, the skin characteristics they affect, and ingredients to
prioritise or avoid. Every expensive stage sits behind a file cache keyed by a
content hash, with a seven-day expiry. This project models that core in Dafny
and proves properties of the model. It also covers the tooling around it: the
migration, seeding and CSV-loading tools and the CSV and DNA-file validators.

One module per source component; each module names the source file it models:

- `Wrappers`, `Seqs`, `PyStr`, `Dicts`, `Sorting`, `JsonModel`, `Tables`, `CsvRows`:
  the Python value semantics the rest relies on: `Option`/`Result`, string
  strip/split/startswith, an insertion-ordered dict, the stable `sorted`,
  JSON documents and their `sort_keys` form, first-row queries, and
  `csv.DictReader` rows.
- `DnaParse`: DNA text-file parsing and column-set sniffing
  (`read_dna_file`, `verify_dna_file_format`, `try.py`).
- `Reference`, `Matching`, `Dedup`: the batched reference lookups and their
  per-item equivalents, the risk-allele matching that builds a report, and
  the first-occurrence ingredient dedup.
- `CacheStore`, `CacheService`, `ReportService`: the cache directory as a
  class holding a map from file name to entry, with an injected clock; the
  cache listing, statistics and bulk deletion; the rendered-report cache key.
- `AnalysisStore`, `DnaService`, `Markdown`: the analysis records, the DNA
  service's validation and hash lookup, and markdown report generation and
  parsing.
- `AnalysisEndpoint`, `ReportsEndpoint`, `DnaEndpoint`: the request state
  machines of the three routers.
- `CsvValidation`, `DnaValidator`: the CSV schema validator and the DNA
  analysis validator.
- `MigrationManager`, `MigrateScript`, `Seed`, `SeedUtils`, `DataLoader`: the
  ordering, stop-on-first-failure and idempotence rules of the database tools.

Hashing (sha256, md5), pickling, float parsing and the summary service are
function-typed parameters. Where a proof needs a hash to be injective, that
is a `requires` of the lemma that uses it. Database tables are sequences of
typed rows, and the clock is an integer number of seconds. The zando copies of `services/cache_service.py` and `endpoints/analysis.py`
are byte-for-byte identical to the fastapi_migration ones. They share one
model, and the rows below cite the fastapi_migration paths.

## Model

| member | source | states |
|---|---|---|
| SeedUtils.WithExtension | fastapi_migration/database/seed_data/seed_utils.py:26-27 | the normalised name always ends with ".csv" |
| SeedUtils.WithExtensionSpec | fastapi_migration/database/seed_data/seed_utils.py:26-27 | a name ending in ".csv" is kept, any other gains exactly ".csv"; normalising twice equals normalising once |
| SeedUtils.CsvPathExample | fastapi_migration/database/seed_data/seed_utils.py:15-35 | "snps" and "snps.csv" resolve to the same path: the module directory, then `csv`, then "snps.csv" |
| SeedUtils.LoadCsvData | fastapi_migration/database/seed_data/seed_utils.py:37-67 | the loop returns [] when the path is absent and otherwise one cleaned row per CSV row, in order (`CsvData`) |
| SeedUtils.CleanRowSpec | fastapi_migration/database/seed_data/seed_utils.py:62-63 | cleaning keeps the columns, their order and the surplus values; string values are stripped, missing values stay missing; cleaning is idempotent |
| SeedUtils.CsvDataSpec | fastapi_migration/database/seed_data/seed_utils.py:49-51 | a missing file gives []; an existing file gives exactly one cleaned row per row |
| CsvRows.Get | fastapi_migration/database/seed.py:189-190 | `row[key]` is missing (the KeyError) exactly when no column has that name; otherwise it is a value the row holds under that name |
| Seed.Find | fastapi_migration/database/seed.py:193-197 | `.filter(column == name).first()` finds the first matching row, and nothing exactly when no row matches; a missing name compares as `IS NULL` and finds a row whose column is NULL |
| Seed.Attributes | fastapi_migration/database/seed.py:206-209 | the copied columns come out one per requested key, or the lookup fails on a missing key |
| Seed.ResolveStep | fastapi_migration/database/seed.py:187-211 | one pass of the link loop: a KeyError ends the loop, an unresolved name skips the row, otherwise the link is appended |
| Seed.ResolvableLinksAppend | fastapi_migration/database/seed.py:187-211 | the reference list of links of a concatenation is the concatenation of the lists |
| Seed.ResolveSpec | fastapi_migration/database/seed.py:187-211 | when every row has its columns, the loop adds exactly one link per row whose two names resolve, pointing at the first matching rows, in CSV order; unresolvable rows are skipped |
| Seed.ResolveRaises | fastapi_migration/database/seed.py:189 | a row lacking the source-name column makes the loop raise |
| Seed.ResolveStaysFailed | fastapi_migration/database/seed.py:187-211 | once the loop has raised, the remaining rows change nothing |
| Seed.LinkOfHasColumns | fastapi_migration/database/seed.py:193-210 | for a row with its columns, a link is built iff both names resolve; otherwise the row is skipped |
| Seed.GuardedInsert | fastapi_migration/database/seed.py:36-53 | a table with rows is left alone; an empty or missing CSV changes nothing; otherwise a core table gets one entity per CSV row, in order |
| Seed.DuplicatePairRaises | fastapi_migration/database/seed.py:188-214 | a link call whose resolved rows repeat a (source, target) pair violates the link table's composite primary key: it raises an IntegrityError and commits nothing |
| Seed.SeededLinksDistinct | fastapi_migration/database/seed.py:188-214 | a link call that succeeded and wrote its table left no two links with the same primary key |
| Seed.ApplyStable | fastapi_migration/database/seed.py:36-39 | right after a successful `seed_*` call, calling it again writes nothing new |
| Seed.EffectFrame | fastapi_migration/database/seed.py:36-211 | a `seed_*` function's effect depends only on its own table and the tables its links read |
| Seed.ApplyFrame | fastapi_migration/database/seed.py:48-53 | a `seed_*` function changes no table but its own |
| Seed.RunFrame | fastapi_migration/database/seed.py:413-436 | tables no step writes keep their rows through `seed_all` |
| Seed.RunCongruent | fastapi_migration/database/seed.py:413-436 | runs from databases with the same tables end the same way, with the same tables |
| Seed.ReapplyFixed | fastapi_migration/database/seed.py:36-39 | a step reapplied to a database that agrees with its result on what it reads changes nothing |
| Seed.RunIdempotent | fastapi_migration/database/seed.py:413-436 | over ordered steps, running twice leaves the tables as one run does and ends the same way |
| Seed.SeedStepsOrdered | fastapi_migration/database/seed.py:423-434 | the ten `seed_*` calls are ordered: no call writes a table that an earlier call reads |
| Seed.SeedAllIdempotent | fastapi_migration/database/seed.py:36-39 | `seed_all` run twice leaves the tables as after one run |
| Seed.CoreBeforeLinks | fastapi_migration/database/seed.py:423-434 | every core table is seeded before any link table, and each table a link refers to is a core table seeded earlier |
| Seed.TruncateLinksFirst | fastapi_migration/database/seed.py:450-459 | each link table is truncated before the tables it refers to |
| Seed.Entities | fastapi_migration/database/seed.py:48-50 | the loop of a core `seed_*` function builds one entity per CSV row, in order |
| Seed.SeedSession.ResolveLinks | fastapi_migration/database/seed.py:187-211 | the link loop returns the links `Resolve` gives, or the key of the KeyError |
| Seed.SeedSession.SeedTable | fastapi_migration/database/seed.py:28-411 | one `seed_*` call changes the tables exactly as `Apply` says; a KeyError or an IntegrityError leaves them unchanged |
| Seed.SeedSession.SeedAll | fastapi_migration/database/seed.py:413-436 | `seed_all` ends with the outcome and tables of `Run` over the ten steps, stopping at the first raise |
| Seed.SeedSession.TruncateAll | fastapi_migration/database/seed.py:438-461 | every seeded table is emptied, and every other table keeps its rows |
| DataLoader.CleanFieldsStep | zando/database/db_migrations/utils/data_loader.py:152-155 | one pass of the cleaning loop: an empty column name is skipped, any other sets `clean_row[key.strip()]` with '' turned into NULL |
| DataLoader.CleanFieldsDistinct | zando/database/db_migrations/utils/data_loader.py:151-155 | a cleaned record never repeats a name (dict assignment) |
| DataLoader.CleanFieldsNames | zando/database/db_migrations/utils/data_loader.py:152-155 | the names of a cleaned record are exactly the stripped non-empty column names of the row |
| DataLoader.CleanFieldsNoEmpty | zando/database/db_migrations/utils/data_loader.py:155 | no value of a cleaned record is ''; it has become NULL |
| DataLoader.CleanHeaderKept | zando/database/db_migrations/utils/data_loader.py:151-155 | a header of non-empty, stripped, distinct names is kept in order; only '' values become NULL |
| DataLoader.StrippedNamesMerge | zando/database/db_migrations/utils/data_loader.py:155 | two names that strip alike give one column, holding the later value, in the first one's place |
| DataLoader.CleanRow | zando/database/db_migrations/utils/data_loader.py:151-155 | the loop builds exactly the cleaned record of the row |
| DataLoader.ReadCsv | zando/database/db_migrations/utils/data_loader.py:135-159 | `_read_csv` returns one cleaned record per row, in order |
| DataLoader.InsertedKeepsRows | zando/database/db_migrations/utils/data_loader.py:183-189 | an insert only appends: the existing rows stay, in order |
| DataLoader.InsertedCovers | zando/database/db_migrations/utils/data_loader.py:183-189 | after the insert, every keyed record either was inserted or met a row with its key |
| DataLoader.InsertedAllConflict | zando/database/db_migrations/utils/data_loader.py:186 | records that all clash with existing rows add nothing (ON CONFLICT DO NOTHING) |
| DataLoader.InsertIdempotent | zando/database/db_migrations/utils/data_loader.py:186 | inserting the same keyed records a second time adds nothing |
| DataLoader.InsertedNoKey | zando/database/db_migrations/utils/data_loader.py:183-189 | without a unique key nothing conflicts, and every record is appended |
| DataLoader.Loader.InsertData | zando/database/db_migrations/utils/data_loader.py:161-196 | `_insert_data` succeeds on [] without change; an unknown or rejecting table fails with the tables unchanged; otherwise the table gains the non-conflicting records |
| DataLoader.LoadAllStep | zando/database/db_migrations/utils/data_loader.py:62-83 | one pass of the `load_all_data` loop is `LoadPair` |
| DataLoader.LoadAllAppend | zando/database/db_migrations/utils/data_loader.py:62-83 | the loop over a concatenation is the loop over the second list from the state the first leaves |
| DataLoader.SkipsMalformedAndMissing | zando/database/db_migrations/utils/data_loader.py:63-73 | a pair not splitting in two and a missing file are skipped without changing `success` or any table |
| DataLoader.FailureFreezes | zando/database/db_migrations/utils/data_loader.py:80 | once `success` is False, `success and ...` short-circuits: no later pair inserts anything |
| DataLoader.NothingAfterFirstFailure | zando/database/db_migrations/utils/data_loader.py:77-83 | after the first failure the rest of the list changes nothing and the result stays False |
| DataLoader.PairSplits | zando/database/db_migrations/utils/data_loader.py:63-68 | a `<table>.csv:<table>` pair whose table has no ':' splits into the file and the table |
| DataLoader.TableOrderWellFormed | zando/database/db_migrations/utils/data_loader.py:47-58 | every pair of the fixed order splits into `<table>.csv` and the table |
| DataLoader.NoColon | zando/database/db_migrations/utils/data_loader.py:47-58 | no table name of the fixed order contains ':' |
| DataLoader.ReferencedTablesFirst | zando/database/db_migrations/utils/data_loader.py:46-58 | the fixed order loads every table before the link tables that refer to it |
| DataLoader.Loader.LoadAllData | zando/database/db_migrations/utils/data_loader.py:37-85 | `load_all_data` leaves `success` and the tables as `LoadAll` over the fixed order from `success = True` |
| DataLoader.Loader.LoadPairs | zando/database/db_migrations/utils/data_loader.py:60-85 | the loop over any list of pairs is `LoadAll` from `success = True` |
| DataLoader.Loader.LoadOne | zando/database/db_migrations/utils/data_loader.py:63-83 | one pass of the loop changes `success` and the tables as `LoadPair` says |
| DataLoader.TablePathSpec | zando/database/db_migrations/utils/data_loader.py:98-118 | a known table reads its mapped file, any other `<table>.csv`, in the data directory; an empty `file_path` counts as none |
| DataLoader.TablePathExamples | zando/database/db_migrations/utils/data_loader.py:100-116 | `snp` reads `snps.csv` (unlike the `snp.csv` of `load_all_data`); an unmapped table reads `<table>.csv` |
| DataLoader.LoadTableFalseCases | zando/database/db_migrations/utils/data_loader.py:120-133 | a missing file, an unreadable one, one without records and a failed insert give False with the tables unchanged; True means the records were inserted |
| DataLoader.Loader.LoadTableData | zando/database/db_migrations/utils/data_loader.py:87-133 | `load_table_data` returns and leaves the tables as `LoadTable` says |
| MigrationManager.FirstFailure | fastapi_migration/database/db_migrations/core/manager.py:72-82 | the index where the `break` happens: every earlier file executes and the file at it does not (or it is the length) |
| MigrationManager.FirstFailureUnique | fastapi_migration/database/db_migrations/core/manager.py:72-82 | those two conditions determine the stopping index uniquely |
| MigrationManager.FailureSticks | fastapi_migration/database/db_migrations/core/manager.py:78-82 | once a file has failed, the remaining files change neither the flag nor the database |
| MigrationManager.SkipMissing | fastapi_migration/database/db_migrations/core/manager.py:74-84 | checking `os.path.exists` before each file is the same as running only the existing files |
| MigrationManager.SweepStopsAtFirstFailure | fastapi_migration/database/db_migrations/core/manager.py:193-202 | the loop succeeds exactly when every file executes; the committed scripts are those of the files before the first failure, in order |
| MigrationManager.SqlMigrationManager.constructor | fastapi_migration/database/db_migrations/core/manager.py:21-53 | the manager starts with the given directory layout, file system and database history |
| MigrationManager.SqlMigrationManager.ExecuteSqlFile | fastapi_migration/database/db_migrations/core/manager.py:206-232 | true exactly when the script executes; its text is committed then, and nothing is committed on failure (rollback) |
| MigrationManager.SqlMigrationManager.RunFiles | fastapi_migration/database/db_migrations/core/manager.py:72-84 | the success flag and the committed scripts are those of the sweep over the files, stopping at the first failure |
| MigrationManager.SqlMigrationManager.MigrateUp | fastapi_migration/database/db_migrations/core/manager.py:55-86 | the result and the new history are those of the up migration over the ordered components; an unknown component is the ValueError |
| MigrationManager.SqlMigrationManager.MigrateDown | fastapi_migration/database/db_migrations/core/manager.py:114-145 | the same over `down.sql` in reverse component order |
| MigrationManager.SqlMigrationManager.ApplySpecificMigration | fastapi_migration/database/db_migrations/core/manager.py:147-170 | true exactly when the component's file exists and executes; only then is its script committed |
| MigrationManager.SqlMigrationManager.ApplyDirectoryMigrations | fastapi_migration/database/db_migrations/core/manager.py:172-204 | the result and the new history are those of running the directory's sorted `.sql` files until one fails |
| MigrationManager.ComponentsInOrderSpec | fastapi_migration/database/db_migrations/core/manager.py:234-257 | "all" or no component gives the dependency order, a known component itself alone, any other name the ValueError; the down order is the up order reversed |
| MigrationManager.DownOrderIsReversed | zando/database/_Archive/POC/migrations.py:184-207 | a full rollback visits views, functions, sequences, tables, types, config in that order |
| MigrationManager.MigrationStopsAtFirstFailure | fastapi_migration/database/db_migrations/core/manager.py:55-86 | migration succeeds exactly when every existing script executes; missing files are skipped; nothing after the first failing file is committed |
| MigrationManager.MissingDirectoryFails | fastapi_migration/database/db_migrations/core/manager.py:183-185 | a directory that does not exist gives false and commits nothing |
| MigrationManager.DirectoryStopsAtFirstFailure | zando/database/_Archive/POC/migrations.py:122-154 | in an existing directory the result is true exactly when every `.sql` file executes, and nothing after the failing file is committed |
| MigrationManager.DirectoryFilesSorted | fastapi_migration/database/db_migrations/core/manager.py:188-193 | the directory's files run in name order: every `.sql` entry, exactly once, and nothing else |
| MigrationManager.DefaultConfigAgrees | fastapi_migration/database/db_migrations/core/manager.py:274-289 | the default configuration lists the components in the order the manager runs them, numbered from 1, each under `sql/<name>` |
| MigrationManager.LayoutsAgree | zando/database/_Archive/POC/migrations.py:47-49 | the archived copy and the core manager resolve a component's file to the same path below the module's `sql` directory |
| MigrateScript.DescriptionSpec | db/scripts/migrate.py:50 | the description is what follows the first underscore (the version is an underscore-free prefix, one underscore and the description); without an underscore it is the whole version |
| MigrateScript.DescriptionExample | db/scripts/migrate.py:50 | "0001_initial_schema" is described as "initial_schema"; later underscores stay; "0003" describes itself |
| MigrateScript.SortPathsSpec | db/scripts/migrate.py:398-400 | `sort()` gives the paths in lexicographic order and is a permutation of them |
| MigrateScript.GlobSqlSpec | db/scripts/migrate.py:398 | the glob yields exactly the directory's visible `.sql` names joined to the directory |
| MigrateScript.NormalFilesSpec | db/scripts/migrate.py:390-400 | a normal migration runs `up.sql` alone when it exists; otherwise, sorted, exactly the `.sql` files whose path does not end in "down.sql" |
| MigrateScript.FunctionFilesSpec | db/scripts/migrate.py:362-388 | the functions migration runs `up.sql` when present, then the sorted `.sql` files of `functions`, if that directory exists |
| MigrateScript.RanAppend | db/scripts/migrate.py:403-409 | the scripts that take effect over two lists of files are those of the first followed by those of the second |
| MigrateScript.ContinuesPastErrors | db/scripts/migrate.py:405-409 | a failing file is logged and skipped; the files after it still run |
| MigrateScript.RanAllExecute | db/scripts/migrate.py:403-409 | when every file executes, every file's script takes effect, in order |
| MigrateScript.RecordedRegardless | db/scripts/migrate.py:411-421 | the version is recorded whatever its SQL files did; a raising insert rolls back and leaves the database as it was |
| MigrateScript.RunStopsAfterFailure | db/scripts/migrate.py:440-443 | after a version raises, the remaining versions change nothing |
| MigrateScript.RunRecordsPending | db/scripts/migrate.py:433-443 | the run records the not-yet-applied versions in sorted order: a prefix of them, and all of them exactly when it succeeds |
| MigrateScript.RunKeepsVersionsUnique | db/scripts/migrate.py:31-35 | versions are the tracking table's primary key: a run never records a version twice |
| MigrateScript.RunFiles | db/scripts/migrate.py:403-409 | the loop collects exactly the scripts of the files that open and execute, in order (`Ran`) |
| MigrateScript.MigrationDatabase.constructor | db/scripts/migrate.py:423-433 | the connection starts with the given environment, tracking rows and committed scripts |
| MigrateScript.MigrationDatabase.ApplyMigration | db/scripts/migrate.py:47-421 | the new rows, committed scripts and success flag are those of applying one version (`Apply`) |
| MigrateScript.MigrationDatabase.RunMigrations | db/scripts/migrate.py:423-446 | the new state is that of applying every pending version of the sorted migration directory until one raises (`Run`) |
| CacheService.RFindDot | fastapi_migration/backend/app/services/cache_service.py:44-47 | the index of the last dot of a name, or -1: a dot sits there and none after it |
| CacheService.EntryPathShape | fastapi_migration/backend/app/services/cache_service.py:44-50 | a listed name with a suffix is described by its own file; a name without one by the name with a dot appended |
| CacheService.EntryPathInjective | fastapi_migration/backend/app/services/cache_service.py:42-52 | different listed names are described by different cache files |
| CacheService.ListCacheFiles | fastapi_migration/backend/app/services/cache_service.py:22-56 | the loop returns the metadata of every selected name that has metadata, sorted newest first |
| CacheService.NewestFirstOrdered | fastapi_migration/backend/app/services/cache_service.py:55 | the listing is ordered by decreasing modification time and is a permutation of what was collected |
| CacheService.CollectedFromFiles | fastapi_migration/backend/app/services/cache_service.py:42-52 | every listed record is the metadata of a selected name in the listing, and its file exists |
| CacheService.CollectedDistinct | fastapi_migration/backend/app/services/cache_service.py:42-52 | records collected from distinct names describe distinct files |
| CacheService.CollectedExactly | fastapi_migration/backend/app/services/cache_service.py:35-52 | when every selected name has a suffix, the records describe exactly the selected files, in directory order |
| CacheService.SelectedFormat | fastapi_migration/backend/app/services/cache_service.py:35-36 | a name matching `*.{format}` has that format as its suffix, unless it is ".{format}" itself |
| CacheService.FormatFilterHolds | fastapi_migration/backend/app/services/cache_service.py:35-52 | filtering by a dot-free format lists only records of that format (apart from the record a file named ".{format}" yields) |
| CacheService.ExpiredCount | fastapi_migration/backend/app/services/cache_service.py:94-95 | the expired count never exceeds the number of records; it is 0 exactly when no record is expired, and the number of records exactly when all are |
| CacheService.GetCacheStats | fastapi_migration/backend/app/services/cache_service.py:59-128 | the statistics the loop builds are those of the newest-first listing (`StatsOf`) |
| CacheService.TallyLookup | fastapi_migration/backend/app/services/cache_service.py:98-106 | each format's entry counts exactly its records and adds up their sizes |
| CacheService.TallyKeys | fastapi_migration/backend/app/services/cache_service.py:98-103 | every format of a record is listed, once, and no other |
| CacheService.OldestIsFirstEarliest | fastapi_migration/backend/app/services/cache_service.py:111-116 | the oldest file is the first of those modified earliest (strict comparison) |
| CacheService.NewestIsFirstLatest | fastapi_migration/backend/app/services/cache_service.py:118-123 | the newest file is the first of those modified latest |
| CacheService.NewestIsHead | fastapi_migration/backend/app/services/cache_service.py:81-123 | over the newest-first listing, the newest file is the first one listed |
| CacheService.CleanExpiredCache | fastapi_migration/backend/app/services/cache_service.py:131-162 | the directory and the result are those of deleting, newest first, every expired record with a hash and a format |
| CacheService.CleanOne | fastapi_migration/backend/app/services/cache_service.py:146-157 | one loop pass: an expired record with hash and format is deleted and counted, or an error is recorded |
| CacheService.SweepExpiredDeletes | fastapi_migration/backend/app/services/cache_service.py:146-157 | over records of distinct existing files, the sweep deletes exactly the deletable ones, counts each once and records no error |
| CacheService.SweepOneDeletes | fastapi_migration/backend/app/services/cache_service.py:146-157 | one step of the sweep keeps "exactly the deletable files so far are gone, without error" |
| CacheService.CleanExpiredRemovesExpired | fastapi_migration/backend/app/services/cache_service.py:131-162 | on a listing of the directory, `clean_expired_cache` removes exactly the expired records with a hash and a format and records no error |
| CacheService.StatsGet | fastapi_migration/backend/app/services/cache_service.py:202 | `stats.get(key, 0)` is 0 for a key the statistics lack |
| CacheService.SizeBeforeAsWrittenIsZero | fastapi_migration/backend/app/services/cache_service.py:202 | the statistics have no `mb_freed` entry, so the reported size before cleaning is always 0 |
| CacheService.SizeBeforeReportsSize | fastapi_migration/backend/app/services/cache_service.py:202 | the intended report is the total size in MiB; the written one is 0 whenever the cache was not empty |
| CacheService.SizeBeforeLostExample | fastapi_migration/backend/app/services/cache_service.py:202 | one cached file of one MiB: the written report says 0, the intended one 1 |
| CacheService.UnlinkName | fastapi_migration/backend/app/services/cache_service.py:187-197 | one loop pass of `clean_all_cache`: the file is unlinked and counted, or the error is recorded |
| CacheService.CleanAllCache | fastapi_migration/backend/app/services/cache_service.py:165-204 | the directory and the result are those of unlinking every dotted name of the listing, with the statistics taken before; the size before is the corrected `SizeBefore` (see Findings) |
| CacheService.SweepAllDeletes | fastapi_migration/backend/app/services/cache_service.py:184-197 | over distinct names of existing files, every dotted name is unlinked, counted once, without error |
| CacheService.CleanAllEmpties | fastapi_migration/backend/app/services/cache_service.py:165-204 | on a listing of the directory, only the names without a dot remain, and no error is recorded |
| CacheService.GetCacheForFile | fastapi_migration/backend/app/services/cache_service.py:207-243 | the result lists the hash's records by format, with their count and total size |
| CacheService.CacheForFileOrdered | fastapi_migration/backend/app/services/cache_service.py:227-238 | the records come in format order, one per file found, all of that hash and all existing |
| CacheService.HashCollectedExactly | fastapi_migration/backend/app/services/cache_service.py:227-235 | when every file of the hash is `{hash}.{format}` with a dot-free format, the records describe exactly those files, in directory order |
| CacheService.DeleteOne | fastapi_migration/backend/app/services/cache_service.py:270-279 | one record: a record with a format deletes its file when present and counts it; otherwise nothing changes |
| CacheService.DeleteRecords | fastapi_migration/backend/app/services/cache_service.py:270-291 | each loop deletes as `SweepKey` says |
| CacheService.DeleteCacheForFile | fastapi_migration/backend/app/services/cache_service.py:246-296 | both listings are taken first; the directory and the counts are those of deleting the hash's records, then those of its analysis |
| CacheService.SweepKeyRemoves | fastapi_migration/backend/app/services/cache_service.py:270-291 | a loop removes the file of every record with a format and nothing else, counting at most one per record, without error |
| CacheService.DeleteCacheForFileRemoves | fastapi_migration/backend/app/services/cache_service.py:246-296 | afterwards no file of a listed record of the hash or of its analysis remains, and at most one file per record was counted |
| CacheStore.CachePath | fastapi_migration/backend/app/services/dna_service.py:60-75 | both branches give `{key}.{format}`: the key, one dot, the format |
| CacheStore.Saved | fastapi_migration/backend/app/services/dna_service.py:78-104 | saving adds exactly the entry's file to the directory |
| CacheStore.AfterLoad | fastapi_migration/backend/app/services/dna_service.py:106-149 | loading never adds a file |
| CacheStore.MetadataOf | fastapi_migration/backend/app/services/dna_service.py:152-203 | there is metadata exactly when the entry's file exists |
| CacheStore.Store.constructor | fastapi_migration/backend/app/services/dna_service.py:60-75 | the store starts with an empty cache directory |
| CacheStore.Store.Save | fastapi_migration/backend/app/services/dna_service.py:78-104 | the directory becomes that of writing the entry afresh (`Saved`) |
| CacheStore.Store.Load | fastapi_migration/backend/app/services/dna_service.py:106-149 | the result and the directory are those of `Loaded`/`AfterLoad` |
| CacheStore.Store.Delete | fastapi_migration/backend/app/services/dna_service.py:205-227 | true exactly when the file was there; afterwards it is not |
| CacheStore.Store.CheckFileCache | fastapi_migration/backend/app/services/dna_service.py:230-246 | the SNP count is given exactly when a usable "json" entry loads, and is its length |
| CacheStore.CachePathInjective | fastapi_migration/backend/app/services/dna_service.py:60-75 | entries with keys of equal length share a file only when key and format agree |
| CacheStore.FormatsSeparate | fastapi_migration/backend/app/services/dna_service.py:60-75 | the same key under two formats names two different files |
| CacheStore.SaveThenLoad | fastapi_migration/backend/app/services/dna_service.py:78-149 | a saved entry loads back as the saved value until it expires, and loading it deletes nothing |
| CacheStore.ExpiredLoadDeletes | fastapi_migration/backend/app/services/dna_service.py:122-127 | past the expiry the load gives `None` and unlinks the file |
| CacheStore.LoadKeepsOthers | fastapi_migration/backend/app/services/dna_service.py:106-149 | loading never touches another file |
| CacheStore.LoadedExactly | fastapi_migration/backend/app/services/dna_service.py:106-149 | a value comes back exactly when the file is present, unexpired and decodable; then the file stays |
| CacheStore.MetadataAgreesWithLoad | fastapi_migration/backend/app/services/dna_service.py:168-171 | the metadata flags expiry with the same strict threshold as loading |
| CacheStore.ExpiryIsStrict | fastapi_migration/backend/app/services/dna_service.py:124 | an entry is not expired at exactly seven days of age, and is one second later |
| DnaService.Parsed | fastapi_migration/backend/app/services/dna_service.py:301-318 | a missing file is an error, a file with no recognised columns is the ValueError, and a parse gives one record per table row |
| DnaService.ReadOutcome | fastapi_migration/backend/app/services/dna_service.py:282-329 | without the cache the result is the parse and the directory is unchanged; an error adds no file; a success with the cache leaves the "json" entry in place |
| DnaService.ParseDnaFile | fastapi_migration/backend/app/services/dna_service.py:305-318 | the uncached parse is `Parsed` |
| DnaService.ReadDnaFile | fastapi_migration/backend/app/services/dna_service.py:282-329 | the result and the new cache directory are those of `ReadOutcome` |
| DnaService.ReparseServedFromCache | fastapi_migration/backend/app/services/dna_service.py:293-329 | after a parse that missed the cache, a second read before expiry is a cache hit with the same records and leaves the directory as it was |
| DnaService.ValidateDnaAnalysis | fastapi_migration/backend/app/services/dna_service.py:332-417 | the result is `ValidationOf` the file |
| DnaService.Summarize | fastapi_migration/backend/app/services/dna_service.py:357-407 | the result for a parsed file is `Analysis` of its columns and records |
| DnaService.Tallies | fastapi_migration/backend/app/services/dna_service.py:364-387 | the loop counts chromosomes, alleles and rsid patterns as `Counts` and `AlleleCounts` say |
| DnaService.TallyAlleleSpec | fastapi_migration/backend/app/services/dna_service.py:376-380 | one allele adds one to exactly the base it names, or to `other` |
| DnaService.AlleleCountsSpec | fastapi_migration/backend/app/services/dna_service.py:376-380 | each base is counted as often as it occurs among the alleles, and the counts add up to two per record |
| DnaService.LabelCounts | fastapi_migration/backend/app/services/dna_service.py:383-387 | the "rs" and "other" patterns count the rsids with and without the prefix |
| DnaService.AnalysisSpec | fastapi_migration/backend/app/services/dna_service.py:357-407 | a parsed table is valid; its format is AncestryDNA exactly for the AncestryDNA columns; the counters add up; each warning is raised exactly when its condition holds |
| DnaService.WarningsSpec | fastapi_migration/backend/app/services/dna_service.py:389-394 | the low-count warning is raised exactly below 10000 records, the rsid warning exactly when "other" exceeds a tenth of "rs" |
| DnaService.PatternWarnings | fastapi_migration/backend/app/services/dna_service.py:389-394 | the same warnings stated over the records' rsids |
| DnaService.ValidationSpec | fastapi_migration/backend/app/services/dna_service.py:332-417 | a file is valid exactly when it parses; an unrecognised file gets "Unrecognized file format"; a valid file's counters describe its records |
| DnaService.ChromosomeCounts | fastapi_migration/backend/app/services/dna_service.py:370-373 | each chromosome is counted as often as it occurs, and listed exactly when it occurs |
| DnaService.Probe | fastapi_migration/backend/app/services/dna_service.py:481-496 | a candidate loop that finds nothing adds no file to the cache |
| DnaService.ProbeNeedsMatch | fastapi_migration/backend/app/services/dna_service.py:481-496 | data comes only from a candidate whose digest is the hash; without one, nothing changes |
| DnaService.ByHash | fastapi_migration/backend/app/services/dna_service.py:449-515 | a usable main-cache entry is returned first, before anything else is consulted |
| DnaService.GetSnpDataByHash | fastapi_migration/backend/app/services/dna_service.py:449-515 | the result and the new cache directory are those of `ByHash` |
| DnaService.ProbeFinds | fastapi_migration/backend/app/services/dna_service.py:481-493 | a candidate with the hash that parses always yields data |
| DnaService.ByHashOrder | fastapi_migration/backend/app/services/dna_service.py:460-515 | with a cache miss, a parsable upload with the hash wins over the database's file; no data means the cache missed and no candidate with the hash parses |
| AnalysisStore.PayloadJson | fastapi_migration/backend/app/services/analysis_service.py:455-463 | `json.dumps` refuses exactly the byte values |
| AnalysisStore.GetCachedAnalysis | fastapi_migration/backend/app/services/analysis_service.py:442-452 | the result and the directory are those of loading the "json" entry under `analysis_{hash}` |
| AnalysisStore.CacheAnalysisResults | fastapi_migration/backend/app/services/analysis_service.py:455-463 | the directory becomes that of saving the report as the "json" entry under `analysis_{hash}` |
| AnalysisStore.AnalysisCacheRoundTrip | fastapi_migration/backend/app/services/analysis_service.py:442-463 | reading under the key the results were cached under gives them back until they expire |
| AnalysisStore.AnalysisEntrySeparate | fastapi_migration/backend/app/services/analysis_service.py:452 | an analysis entry never shares a file with the SNP records of a hash of the same length, whatever the formats |
| AnalysisStore.Recorded | fastapi_migration/backend/app/services/analysis_service.py:466-539 | a success returns the new id and appends exactly one row; a failure of both inserts raises and leaves the table as it was |
| AnalysisStore.RecordAnalysis | fastapi_migration/backend/app/services/analysis_service.py:466-539 | the result and the new table are those of `Recorded` |
| AnalysisStore.AnalysisById | fastapi_migration/backend/app/services/analysis_service.py:542-590 | the row returned carries the id, and `None` means no row has it |
| AnalysisStore.RecordedFoundById | fastapi_migration/backend/app/services/analysis_service.py:466-590 | a recorded analysis is found again by its id, with the report data after the full insert and with none after the fallback insert |
| AnalysisStore.ListAnalysesSync | fastapi_migration/backend/app/api/v1/endpoints/analysis.py:439-486 | the count is the table's row count and each item summarises its row, in page order |
| AnalysisStore.ReportJsonIsDict | fastapi_migration/backend/app/services/analysis_service.py:455-463 | the report's top-level keys are distinct, as a dict's are |
| AnalysisStore.ListedCountOfReport | fastapi_migration/backend/app/services/analysis_service.py:628-665 | a report stored with its data is listed with as many SNPs as it has mutations, by both listings; a fallback row is listed with 0 |
| Reference.SnpQuery | fastapi_migration/backend/app/services/analysis_service.py:41-49 | the query returns at most the table's rows |
| Reference.BatchSnpDetails | fastapi_migration/backend/app/services/analysis_service.py:26-82 | the loop builds the rsid-keyed dictionary of the queried rows (`DetailsMap`) |
| Reference.NoRsidsNoDetails | fastapi_migration/backend/app/services/analysis_service.py:37-38 | no rsids give an empty dictionary |
| Reference.DetailsMapLastWins | fastapi_migration/backend/app/services/analysis_service.py:55-80 | an rsid's entry is that of its last row |
| Reference.DetailsMapKeys | fastapi_migration/backend/app/services/analysis_service.py:55-80 | an rsid has an entry exactly when some row carries it |
| Reference.FindSnp | ALGORYTHM/src/process_dna.py:101-117 | the first row with the rsid (`iloc[0]`), or `None` exactly when no row has it |
| Reference.DetailsMapRestrict | fastapi_migration/backend/app/services/analysis_service.py:41-49 | filtering by the requested rsids does not change a requested rsid's entry |
| Reference.DetailsMapIsFirst | ALGORYTHM/src/process_dna.py:101-117 | with unique rsids the batch dictionary and the first-row lookup agree |
| Reference.BatchDetailsAgree | fastapi_migration/backend/app/services/analysis_service.py:26-82 | the batch dictionary and the per-SNP lookup agree on every requested rsid when rsids are unique |
| Reference.DuplicateRsidsDisagree | fastapi_migration/backend/app/services/analysis_service.py:55-80 | with a duplicated rsid the batch keeps the last row and the per-SNP lookup the first |
| Reference.ItemsOfEmpty | fastapi_migration/backend/app/services/analysis_service.py:114-141 | an id has no items exactly when no row has that id |
| Reference.LinkQuery | fastapi_migration/backend/app/services/analysis_service.py:100-110 | the query keeps only rows of requested ids |
| Reference.LinkQueryItems | fastapi_migration/backend/app/services/analysis_service.py:100-110 | the query keeps every row of a requested id and none of another |
| Reference.GroupedSpec | fastapi_migration/backend/app/services/analysis_service.py:114-141 | an id has a group exactly when it has rows, and the group is its rows' items in order |
| Reference.BatchCharacteristics | fastapi_migration/backend/app/services/analysis_service.py:85-148 | the loop groups the queried link rows by snp id (`Grouped`) |
| Reference.NoIdsNoRows | fastapi_migration/backend/app/services/analysis_service.py:96-97 | no ids give an empty dictionary |
| Reference.RelatedCharacteristics | ALGORYTHM/src/process_dna.py:143-168 | the per-SNP characteristics come from that SNP's link rows |
| Reference.BatchCharacteristicsAgree | fastapi_migration/backend/app/services/analysis_service.py:85-148 | `characteristics_by_snp.get(snp_id, [])` is the per-SNP lookup for every requested id |
| Reference.RsidOf | ALGORYTHM/src/process_dna.py:170-190 | the sub-select finds the rsid of the snp row with that id, or nothing exactly when no row has it |
| Reference.BeneficialQuery | fastapi_migration/backend/app/services/analysis_service.py:188-196 | the joined rows carry only requested ids |
| Reference.BeneficialQueryItems | fastapi_migration/backend/app/services/analysis_service.py:188-196 | the joined rows of a requested id are the beneficial rows of that snp's rsid |
| Reference.BatchIngredients | fastapi_migration/backend/app/services/analysis_service.py:151-274 | every requested id starts with two empty lists, then the beneficial and caution rows are appended (`IngredientsMap`) |
| Reference.IngredientRecommendations | ALGORYTHM/src/process_dna.py:170-216 | the per-SNP caution list is empty exactly when no caution link has that id |
| Reference.BatchIngredientsAgree | fastapi_migration/backend/app/services/analysis_service.py:151-274 | every requested id has an entry, and with unique snp ids it is the per-SNP pair |
| Matching.Matches | fastapi_migration/backend/app/services/analysis_service.py:365-385 | the filter keeps at most the input's SNPs |
| Matching.MatchesAppend | fastapi_migration/backend/app/services/analysis_service.py:365-385 | the matches of two runs of SNPs are those of the first followed by those of the second |
| Matching.MatchesSingle | fastapi_migration/backend/app/services/analysis_service.py:366-385 | one SNP yields a match exactly when its rsid is found and its alleles carry the risk allele |
| Matching.MatchesMember | fastapi_migration/backend/app/services/analysis_service.py:365-385 | a match is an input SNP whose rsid is found and which carries the risk allele |
| Matching.MatchesCongruent | fastapi_migration/backend/app/services/analysis_service.py:365-385 | lookups that agree on the input's rsids keep the same matches |
| Matching.Mutations | fastapi_migration/backend/app/services/analysis_service.py:396-417 | one mutation per match, in match order, carrying the SNP's alleles and the reference's details |
| Matching.IngredientListsAppend | fastapi_migration/backend/app/services/analysis_service.py:418-422 | the ingredient lists are concatenations, without deduplication |
| Matching.PrioritizedLength | fastapi_migration/backend/app/services/analysis_service.py:418-422 | the number of prioritised ingredients is the sum of the matched SNPs' list lengths |
| Matching.VariantsStr | fastapi_migration/backend/app/services/analysis_service.py:288-289 | the array literal starts with '{' and ends with '}' |
| Matching.VariantsStrRoundTrip | fastapi_migration/backend/app/services/analysis_service.py:288-289 | between the braces, splitting on ',' gives each rsid quoted, in order, when no rsid holds a ',' |
| Matching.ServiceSummary | fastapi_migration/backend/app/services/analysis_service.py:277-325 | any failure of the summary query gives the fixed sentence; otherwise the query's text |
| Matching.PerItemSummary | ALGORYTHM/src/process_dna.py:218-251 | the same argument, but a failure is re-raised; on success both give the same text |
| Matching.SelectMatches | fastapi_migration/backend/app/services/analysis_service.py:365-385 | the loop keeps the matches in input order (`Matches`) and collects their snp ids |
| Matching.SelectOne | fastapi_migration/backend/app/services/analysis_service.py:366-385 | one pass keeps the SNP exactly when its rsid has details and it carries the risk allele |
| Matching.AssembleMatches | fastapi_migration/backend/app/services/analysis_service.py:396-422 | the loop builds the mutations and both ingredient lists from the batch dictionaries |
| Matching.ProcessSnpData | fastapi_migration/backend/app/services/analysis_service.py:328-439 | the report is `ServiceReport` of the parsed SNPs |
| Matching.NoMatchReport | fastapi_migration/backend/app/services/analysis_service.py:387-389 | with no qualifying SNP the result is the bare skeleton: no mutations, empty lists, no summary |
| Matching.ServiceSummaryPresent | fastapi_migration/backend/app/services/analysis_service.py:424-430 | a summary is present exactly when there is a mutation, and it is the query's text or the fixed sentence |
| Matching.ServiceMutationsAreMatches | fastapi_migration/backend/app/services/analysis_service.py:365-417 | the report's mutations are exactly the qualifying SNPs, in input order |
| Matching.ServiceLookupFinds | fastapi_migration/backend/app/services/analysis_service.py:343-367 | a parsed rsid is in the batch dictionary exactly when the snp table holds it |
| Matching.AssembleReportData | ALGORYTHM/src/process_dna.py:253-297 | the per-SNP assembler's report is `PerItemReport` |
| Matching.BatchEqualsPerItem | fastapi_migration/backend/app/services/analysis_service.py:328-439 | with unique rsids and snp ids, the batched service and the per-SNP assembler build the same mutations and ingredient lists |
| Matching.Found | ALGORYTHM/src/generate_skin_report.py:179-181 | the older assembler keeps at most the input's SNPs |
| Matching.LegacyMutations | ALGORYTHM/src/generate_skin_report.py:179-198 | one mutation per found SNP, with the reference's details |
| Matching.AssembleLegacyReport | ALGORYTHM/src/generate_skin_report.py:164-200 | the older assembler's report is `LegacyReportOf` |
| Matching.MatchesFilterFound | fastapi_migration/backend/app/services/analysis_service.py:365-385 | the risk-allele rule keeps exactly the found SNPs that carry the risk allele, in order |
| Matching.LegacyIgnoresAlleles | ALGORYTHM/src/generate_skin_report.py:164-200 | the older assembler ignores the user's alleles: changing them leaves its report unchanged |
| Dedup.Dedup | fastapi_migration/backend/app/services/pdf_service.py:373-379 | the deduplicated list is no longer than the input |
| Dedup.DedupByName | fastapi_migration/backend/app/services/pdf_service.py:373-379 | the loop with its `seen` set appends exactly `Dedup` of the input |
| Dedup.DedupNames | fastapi_migration/backend/app/services/pdf_service.py:373-379 | the kept items carry every name of the input, and no other |
| Dedup.DedupUnique | fastapi_migration/backend/app/services/pdf_service.py:373-379 | no two kept items share a name |
| Dedup.FirstIndices | fastapi_migration/backend/app/services/pdf_service.py:373-379 | the first-occurrence positions are valid and increasing |
| Dedup.DedupAtFirstIndices | fastapi_migration/backend/app/services/pdf_service.py:373-379 | the kept items are the input's items at the first-occurrence positions, in order |
| Dedup.FirstIndicesSpec | fastapi_migration/backend/app/services/pdf_service.py:376-378 | a position is listed exactly when its item is the first with its name |
| Dedup.DedupOfUnique | fastapi_migration/backend/app/services/pdf_service.py:387-393 | a list whose names are already distinct is kept as it is |
| Dedup.DedupIdempotent | fastapi_migration/backend/app/services/pdf_service.py:387-393 | deduplicating twice is deduplicating once |
| Markdown.ReportDict | fastapi_migration/backend/app/services/pdf_service.py:328-347 | the dictionary view keeps every mutation, its rsid and its category |
| Markdown.GenerateMarkdown | fastapi_migration/backend/app/services/pdf_service.py:314-404 | the text is `MarkdownOf` the report and the side file is the output path with ".pdf" replaced by ".md" |
| Markdown.AppendCharacteristics | fastapi_migration/backend/app/services/pdf_service.py:349-366 | the characteristics section is appended, written only when some mutation has characteristics |
| Markdown.FindCharacteristics | fastapi_migration/backend/app/services/pdf_service.py:350-354 | the scan reports exactly whether some mutation has characteristics |
| Markdown.AppendIngredients | fastapi_migration/backend/app/services/pdf_service.py:368-396 | the ingredients section is appended, each list deduplicated by name |
| Markdown.AppendRows | fastapi_migration/backend/app/services/pdf_service.py:345-347 | one table row per mutation is appended, in order |
| Markdown.AppendBlocks | fastapi_migration/backend/app/services/pdf_service.py:359-365 | one block per mutation with characteristics is appended, in order |
| Markdown.AppendCharacteristicLines | fastapi_migration/backend/app/services/pdf_service.py:362-364 | one line per characteristic is appended, in order |
| Markdown.AppendPrioritized | fastapi_migration/backend/app/services/pdf_service.py:381-383 | one bullet line per kept recommended ingredient is appended |
| Markdown.AppendCautions | fastapi_migration/backend/app/services/pdf_service.py:395-396 | one bullet line per kept cautioned ingredient is appended |
| Markdown.MarkdownToPdf | fastapi_migration/backend/app/services/pdf_service.py:148-311 | the rendered elements are `DocumentElements` of the markdown, lists split as corrected (see Findings) |
| Markdown.RenderTitle | fastapi_migration/backend/app/services/pdf_service.py:228-240 | the title and, when the first section has a second line, the subtitle |
| Markdown.RenderSection | fastapi_migration/backend/app/services/pdf_service.py:242-305 | one section renders as `SectionElements` says: its heading, then the mutation table or its paragraphs (lists split as corrected, see Findings) |
| Markdown.RenderParagraphs | fastapi_migration/backend/app/services/pdf_service.py:286-305 | the paragraphs render in order, each as `ParagraphElements` (lists split as corrected, see Findings) |
| Markdown.RenderParagraph | fastapi_migration/backend/app/services/pdf_service.py:288-305 | a "### " paragraph is a heading, a "- " paragraph a list (split as corrected, see Findings), any other non-blank one a body paragraph |
| Markdown.RenderListItems | fastapi_migration/backend/app/services/pdf_service.py:296-301 | the list items render in order |
| Markdown.RenderItem | fastapi_migration/backend/app/services/pdf_service.py:297-301 | a non-blank item renders as a bullet with its first `**` pair in bold |
| Markdown.RenderTable | fastapi_migration/backend/app/services/pdf_service.py:252-283 | the table section renders as heading, table and spacers when it has at least two table lines |
| Markdown.RenderRows | fastapi_migration/backend/app/services/pdf_service.py:264-266 | each data row becomes its stripped cells, in row order |
| Markdown.StripPadded | fastapi_migration/backend/app/services/pdf_service.py:265 | stripping a padded cell gives the cell back |
| Markdown.RowCellsRoundTrip | fastapi_migration/backend/app/services/pdf_service.py:347 | a row written with clean cells reads back as exactly those cells |
| Markdown.HeaderRowCells | fastapi_migration/backend/app/services/pdf_service.py:340 | the header line reads back as the four column names |
| Markdown.TableLinesOfText | fastapi_migration/backend/app/services/pdf_service.py:254 | the table reader keeps the header, the separator and one line per mutation |
| Markdown.MutationTableRoundTrip | fastapi_migration/backend/app/services/pdf_service.py:254-266 | a written table reads back as the column names and one cell list per mutation, in order |
| Markdown.MutationRowsRoundTrip | fastapi_migration/backend/app/services/pdf_service.py:264-266 | each written mutation line reads back as the mutation's four cells |
| Markdown.MutationsSectionRenders | fastapi_migration/backend/app/services/pdf_service.py:252-283 | the mutations section renders as its heading and the table, one row per mutation |
| Markdown.TableSection | fastapi_migration/backend/app/services/pdf_service.py:252-283 | a section titled with the table heading renders as that heading and the table it holds |
| Markdown.TitledSection | fastapi_migration/backend/app/services/pdf_service.py:243-250 | a section's first line is its heading and the rest its content |
| Markdown.BulletLines | fastapi_migration/backend/app/services/pdf_service.py:381-396 | lines "- text\n", one per item, form a list paragraph whose items are the texts |
| Markdown.PrioritizeList | fastapi_migration/backend/app/services/pdf_service.py:381-383 | the recommended ingredients are written as one list paragraph, one item per kept ingredient |
| Markdown.CautionList | fastapi_migration/backend/app/services/pdf_service.py:395-396 | the cautioned ingredients likewise |
| Markdown.FirstItemKeepsMarker | fastapi_migration/backend/app/services/pdf_service.py:295 | splitting a list paragraph on "\n- " as written keeps the first item's "- " marker |
| Markdown.ItemBold | fastapi_migration/backend/app/services/pdf_service.py:297-301 | an item whose first `**` pair surrounds a name renders as a bullet with that name in bold |
| Markdown.SingleItemAsWritten | fastapi_migration/backend/app/services/pdf_service.py:294-301 | as written, a one-item list renders with "- " still after the bullet |
| Markdown.SingleItemCorrected | fastapi_migration/backend/app/services/pdf_service.py:294-301 | under the corrected split the bullet is followed directly by the bold name |
| Markdown.ListParagraphShape | fastapi_migration/backend/app/services/pdf_service.py:288-294 | a paragraph starting with "- " takes the list branch |
| Markdown.ListItemsRoundTrip | fastapi_migration/backend/app/services/pdf_service.py:295 | the corrected split gives back exactly the items that were joined |
| Markdown.ListParagraphRenders | fastapi_migration/backend/app/services/pdf_service.py:294-301 | under the corrected split a list paragraph renders one bullet item per item |
| Markdown.ListParagraphAsWritten | fastapi_migration/backend/app/services/pdf_service.py:294-301 | as written, the first item renders with its marker still attached |
| Markdown.BoldFirstPair | fastapi_migration/backend/app/services/pdf_service.py:299 | only the first `**` pair of an item becomes bold tags |
| Markdown.SidePathOfPdf | fastapi_migration/backend/app/services/pdf_service.py:399-400 | a path ending in its only ".pdf" gets its markdown beside it under ".md" |
| Markdown.SidePathEmpty | fastapi_migration/backend/app/services/pdf_service.py:399 | an empty output path writes no side file |
| Markdown.CharacteristicsSectionPresence | fastapi_migration/backend/app/services/pdf_service.py:349-366 | the characteristics section is written exactly when some mutation has characteristics, and opens with its heading |
| Markdown.IngredientsSectionDedupStable | fastapi_migration/backend/app/services/pdf_service.py:368-396 | deduplicating the ingredient lists beforehand does not change the text |
| ReportService.ReportKey | fastapi_migration/backend/app/services/report_service.py:38-39 | the key is the report type, an underscore, then the digest of the sorted-keys dump |
| ReportService.GetCachedReport | fastapi_migration/backend/app/services/report_service.py:22-42 | the result and the directory are those of loading the "pdf" entry under the report key |
| ReportService.CacheReport | fastapi_migration/backend/app/services/report_service.py:45-62 | the directory becomes that of saving the bytes raw as the "pdf" entry under the report key |
| ReportService.ReportCacheRoundTrip | fastapi_migration/backend/app/services/report_service.py:22-62 | a cached report comes back for the same data and type until it expires, whatever the pickle codec does |
| ReportService.ReportTypesSeparate | fastapi_migration/backend/app/services/report_service.py:39 | two report types never share a key, since every hex digest has 64 characters |
| ReportService.ReportKeyIgnoresOrder | fastapi_migration/backend/app/services/report_service.py:38 | dicts with the same items in another insertion order share a key |
| ReportService.ReportKeySeparatesData | fastapi_migration/backend/app/services/report_service.py:38-39 | with an injective dump and digest, documents that differ after sorting their keys get different keys |
| ReportService.Generated | fastapi_migration/backend/app/services/report_service.py:65-169 | a failure that leaves the table unchanged is the failed insert |
| ReportService.RecordReportGeneration | fastapi_migration/backend/app/services/report_service.py:65-169 | the result and the new table are those of `Generated` |
| ReportService.GeneratedRow | fastapi_migration/backend/app/services/report_service.py:65-169 | with a fresh report id the row read back is the one just inserted, not cached, linked to the analysis the id names; a failed read-back still leaves the row stored |
| ReportService.UserReportsSpec | fastapi_migration/backend/app/services/report_service.py:190-218 | the listing has one item per row of the user, newest first; each download URL names its report and each analysis id reads back as the stored id |
| ReportService.OwnedRowsListed | fastapi_migration/backend/app/services/report_service.py:190-218 | every listed item is made from one of the user's rows |
| ReportService.ListedAnalysisId | fastapi_migration/backend/app/services/report_service.py:214 | the listed analysis id is present exactly for a stored non-zero id, and is its decimal form |
| ReportService.AnonymousReportUnlisted | fastapi_migration/backend/app/services/report_service.py:190-218 | a report recorded without a user changes no user's listing |
| JsonModel.Get | fastapi_migration/backend/app/services/report_service.py:38 | `dict.get(key)` finds a value exactly when a member has that key |
| JsonModel.Recanon | fastapi_migration/backend/app/services/report_service.py:38 | recanonicalising keeps every key in place and puts its value in canonical form |
| JsonModel.SortedDistinctStrict | fastapi_migration/backend/app/services/report_service.py:38 | a key-sorted rearrangement of members with distinct keys is strictly sorted |
| JsonModel.StrictlySortedUnique | fastapi_migration/backend/app/services/report_service.py:38 | two strictly key-sorted lists with the same members are the same list |
| JsonModel.CanonicalStrictlySorted | fastapi_migration/backend/app/services/report_service.py:38 | the canonical form of an object lists its members in strictly increasing key order |
| JsonModel.SameItemsSameCanonical | fastapi_migration/backend/app/services/report_service.py:38 | `sort_keys=True` makes the dump independent of insertion order |
| JsonModel.CanonicalKeepsMembers | fastapi_migration/backend/app/services/report_service.py:38 | sorting the keys keeps every member, with its value in canonical form |
| AnalysisEndpoint.FromCache | fastapi_migration/backend/app/api/v1/endpoints/analysis.py:46-73 | serving a cached analysis leaves the cache as it was; it succeeds exactly when the cached value is an analysis dict; a failure is a 500 and leaves the analyses table unchanged |
| AnalysisEndpoint.NonDictCacheRecordsNothing | fastapi_migration/backend/app/api/v1/endpoints/analysis.py:46-56 | a truthy cached value that is not a dict fails at the log line's `.get` with a 500, before anything is recorded |
| AnalysisEndpoint.Computed | fastapi_migration/backend/app/api/v1/endpoints/analysis.py:92-128 | a computed analysis is answered with `cached=False`; without a hash the cache is untouched |
| AnalysisEndpoint.Fetched | fastapi_migration/backend/app/api/v1/endpoints/analysis.py:76-128 | SNP data fetched by hash is answered uncached; a failure is a 500 and records nothing |
| AnalysisEndpoint.Record | fastapi_migration/backend/app/api/v1/endpoints/analysis.py:50-62 | the id is that of the recorded row, or the endpoint's own uuid when recording raised; only the analyses table changes |
| AnalysisEndpoint.AnalyseAndRecord | fastapi_migration/backend/app/api/v1/endpoints/analysis.py:92-128 | the result, cache and table are those of `Computed`; the reports table is untouched |
| AnalysisEndpoint.ServeHash | fastapi_migration/backend/app/api/v1/endpoints/analysis.py:43-128 | the result, cache and table are those of `FromHash` |
| AnalysisEndpoint.ProcessDnaData | fastapi_migration/backend/app/api/v1/endpoints/analysis.py:21-132 | the result, cache and table are those of `Processed` |
| AnalysisEndpoint.StatusCodes | fastapi_migration/backend/app/api/v1/endpoints/analysis.py:30-132 | the only statuses are 400 and 500; 400 exactly when neither input is given, and then nothing is touched |
| AnalysisEndpoint.CacheHitServed | fastapi_migration/backend/app/api/v1/endpoints/analysis.py:46-73 | a cached report is answered with `cached=True` and its own mutation count, leaves the cache as it was and depends on nothing else |
| AnalysisEndpoint.CachedOnlyWithoutRefresh | fastapi_migration/backend/app/api/v1/endpoints/analysis.py:46 | a `cached` answer only comes from the analysis cache, for a hash, without `force_refresh` |
| AnalysisEndpoint.RawNeverCached | fastapi_migration/backend/app/api/v1/endpoints/analysis.py:112-115 | results computed from `raw_snp_data` are never cached |
| AnalysisEndpoint.HashTakesPrecedence | fastapi_migration/backend/app/api/v1/endpoints/analysis.py:43-90 | with a hash, `raw_snp_data` is never looked at |
| AnalysisEndpoint.LookupMissIs500 | fastapi_migration/backend/app/api/v1/endpoints/analysis.py:76-85 | a hash whose lookup finds nothing is answered with 500 (the 404 is caught), and nothing is recorded |
| AnalysisEndpoint.RecordingTolerated | fastapi_migration/backend/app/api/v1/endpoints/analysis.py:99-110 | recording never fails the request: the id is that of an appended row, or the endpoint's own uuid with the table unchanged |
| AnalysisEndpoint.ComputedThenServed | fastapi_migration/backend/app/api/v1/endpoints/analysis.py:21-132 | an analysis computed for a hash is what the next request for it is answered with while the entry is fresh |
| ReportsEndpoint.ReportData | fastapi_migration/backend/app/api/v1/endpoints/reports.py:52-84 | without a hash the cache is untouched |
| ReportsEndpoint.Finished | fastapi_migration/backend/app/api/v1/endpoints/reports.py:107-126 | recording touches neither cache nor files; a failure is a 500; a success names this report and its download URL |
| ReportsEndpoint.Produced | fastapi_migration/backend/app/api/v1/endpoints/reports.py:86-105 | a failed renderer leaves the files as they were; otherwise the report file exists |
| ReportsEndpoint.Rendered | fastapi_migration/backend/app/api/v1/endpoints/reports.py:86-126 | a failure is a 500; a success names this report and its download URL |
| ReportsEndpoint.ReportFiles.constructor | fastapi_migration/backend/app/api/v1/endpoints/reports.py:48-50 | the output directory starts empty |
| ReportsEndpoint.ReportFiles.Write | fastapi_migration/backend/app/api/v1/endpoints/reports.py:89-93 | writing a file sets exactly that path to the bytes |
| ReportsEndpoint.SettleReportData | fastapi_migration/backend/app/api/v1/endpoints/reports.py:52-84 | the data and the cache are those of `ReportData` |
| ReportsEndpoint.ProducePdf | fastapi_migration/backend/app/api/v1/endpoints/reports.py:86-105 | the cached flag, cache and files are those of `Produced` |
| ReportsEndpoint.RenderAndRecord | fastapi_migration/backend/app/api/v1/endpoints/reports.py:86-126 | the result, cache, files and tables are those of `Rendered` |
| ReportsEndpoint.GenerateReport | fastapi_migration/backend/app/api/v1/endpoints/reports.py:24-130 | the result, cache, files and tables are those of `Generated` |
| ReportsEndpoint.StatusCodes | fastapi_migration/backend/app/api/v1/endpoints/reports.py:36-130 | the only statuses are 400 and 500; 400 exactly when neither input is given, and then nothing is read or written |
| ReportsEndpoint.DataSource | fastapi_migration/backend/app/api/v1/endpoints/reports.py:52-84 | with a hash the `analysis_id` plays no part; without one the data is that row's |
| ReportsEndpoint.AnalysisCachedOnMiss | fastapi_migration/backend/app/api/v1/endpoints/reports.py:57-74 | on an analysis-cache miss, the analysis computed for the hash is what the cache serves afterwards while fresh |
| ReportsEndpoint.CachedPdfServed | fastapi_migration/backend/app/api/v1/endpoints/reports.py:86-96 | a PDF cached for the data and type is copied to the report path and answered `cached`; no renderer runs |
| ReportsEndpoint.RenderedThenCached | fastapi_migration/backend/app/api/v1/endpoints/reports.py:97-105 | "markdown" selects the markdown renderer, any other type the standard one; the bytes become the report file and the cache gives them back while fresh |
| ReportsEndpoint.DownloadUrlFixed | fastapi_migration/backend/app/api/v1/endpoints/reports.py:107-126 | every success names this request's report and its fixed download URL |
| DnaEndpoint.Disk.constructor | fastapi_migration/backend/app/api/v1/endpoints/dna.py:33-37 | the disk starts with the given files |
| DnaEndpoint.Disk.Write | fastapi_migration/backend/app/api/v1/endpoints/dna.py:49-61 | writing a file sets exactly that path to the bytes |
| DnaEndpoint.Disk.RemoveIfExists | fastapi_migration/backend/app/api/v1/endpoints/dna.py:93-94 | the path is gone afterwards and nothing else changes |
| DnaEndpoint.StoreUpload | fastapi_migration/backend/app/api/v1/endpoints/dna.py:39-85 | the result and files are those of `Stored` |
| DnaEndpoint.UploadDnaFile | fastapi_migration/backend/app/api/v1/endpoints/dna.py:19-94 | the result and files are those of `Uploaded` |
| DnaEndpoint.NonTxtRejected | fastapi_migration/backend/app/api/v1/endpoints/dna.py:29-30 | a name without ".txt" is refused with 400 exactly, and nothing is written |
| DnaEndpoint.TempFileRemoved | fastapi_migration/backend/app/api/v1/endpoints/dna.py:91-94 | whatever happens after the extension check, the temporary file is gone, and every other path holds what it held or the uploaded bytes |
| DnaEndpoint.UploadStoresBoth | fastapi_migration/backend/app/api/v1/endpoints/dna.py:44-63 | a successful upload leaves the same bytes under the safe name in both directories and touches nothing else |
| DnaEndpoint.SafeFilenameFoundByHash | fastapi_migration/backend/app/api/v1/endpoints/dna.py:45 | the safe name is the digest's first eight characters, "_" and the name, so the lookup by that digest finds it |
| DnaEndpoint.SafeFilenameInjective | fastapi_migration/backend/app/api/v1/endpoints/dna.py:45 | under one digest, different names are stored under different safe names |
| DnaEndpoint.Extension | fastapi_migration/backend/app/api/v1/endpoints/dna.py:159 | the extension holds no dot |
| DnaEndpoint.ListUploadedFiles | fastapi_migration/backend/app/api/v1/endpoints/dna.py:118-182 | the listing is `Listed` of the directory's entries |
| DnaEndpoint.ListedPage | fastapi_migration/backend/app/api/v1/endpoints/dna.py:137-176 | `count` is every dotted non-directory entry; the files are the sorted list from `offset` on, at most `limit`, newest first |
| DnaEndpoint.ListedFromEntries | fastapi_migration/backend/app/api/v1/endpoints/dna.py:139-161 | every listed file is a dotted non-directory entry, and its `file_hash` is the md5 of its name |
| DnaEndpoint.PagesConcatenate | fastapi_migration/backend/app/api/v1/endpoints/dna.py:168 | consecutive pages put back together give the longer page |
| CsvValidation.LastColumn | db/scripts/validate_csv.py:249 | a key's value is taken from the last header column with that name |
| CsvValidation.CheckField | db/scripts/validate_csv.py:246-278 | the errors of one field are `FieldErrors` |
| CsvValidation.CheckRow | db/scripts/validate_csv.py:245-278 | the errors of one record are `RowErrors`, field by field in schema order |
| CsvValidation.CheckRecords | db/scripts/validate_csv.py:244-278 | the errors of all records are `RecordsErrors`, record by record |
| CsvValidation.ValidateCsvData | db/scripts/validate_csv.py:219-284 | the returned errors are `CsvErrors` of the file |
| CsvValidation.AbsentFieldsSpec | db/scripts/validate_csv.py:237-241 | the header error lists exactly the schema's fields the header lacks, optional ones included |
| CsvValidation.RowErrorsTagged | db/scripts/validate_csv.py:244-278 | every error of a record carries that record's line |
| CsvValidation.RecordsNumbered | db/scripts/validate_csv.py:244 | the records' errors are numbered from line 2, one line per record, in line order |
| CsvValidation.MissingFileOneError | db/scripts/validate_csv.py:279-280 | a missing file gives exactly the one "File not found" error |
| CsvValidation.EmptySkipsChecks | db/scripts/validate_csv.py:252-277 | an empty value raises only the required-field error, and only for a required field |
| CsvValidation.EnumOneError | db/scripts/validate_csv.py:269-272 | a non-empty value outside the allowed list raises exactly one "must be one of" error |
| CsvValidation.FieldErrorsNone | db/scripts/validate_csv.py:246-278 | a field passes exactly when its value satisfies its constraint |
| CsvValidation.RowErrorsNone | db/scripts/validate_csv.py:245-278 | a record passes exactly when each schema field in the header satisfies its constraint |
| CsvValidation.RecordsErrorsNone | db/scripts/validate_csv.py:244-278 | all records pass exactly when each of them does |
| CsvValidation.ValidIffConforming | db/scripts/validate_csv.py:219-284 | a fully read file has no errors exactly when its header has every schema field and every record conforms |
| CsvValidation.PatternExamples | db/scripts/validate_csv.py:13 | `re.match` with `$` accepts one trailing newline; lower-case bases are rejected |
| CsvValidation.Basename | db/scripts/validate_csv.py:294 | the base name holds no '/' |
| CsvValidation.Detect | db/scripts/validate_csv.py:293-317 | a detected schema is one of the defined schemas |
| CsvValidation.SnpNamesDetected | db/scripts/validate_csv.py:295-310 | each SNP file name is detected as its own schema |
| CsvValidation.CharacteristicNamesDetected | db/scripts/validate_csv.py:297-312 | each characteristic file name is detected as its own schema |
| CsvValidation.IngredientNamesDetected | db/scripts/validate_csv.py:299-302 | each ingredient file name is detected as its own schema |
| CsvValidation.SkinConditionsDetected | db/scripts/validate_csv.py:303-304 | "skin_conditions.csv" is detected as its schema |
| CsvValidation.ConditionIngredientDetected | db/scripts/validate_csv.py:313-314 | "condition_ingredient.csv" is detected as its schema |
| CsvValidation.DetectionRules | db/scripts/validate_csv.py:295-317 | names starting with "snp" without '_' go to snps; names outside the rules are refused |
| CsvValidation.ExitZeroIffValid | db/scripts/validate_csv.py:286-334 | the command exits 0 exactly when a schema is chosen and the file has no errors |
| DnaValidator.ReadLine | ALGORYTHM/src/dna_validator.py:14-23 | one line moves the scan as `ScanLine` says |
| DnaValidator.ReadGenotypes | ALGORYTHM/src/dna_validator.py:9-23 | the genotype dict is that of scanning every line |
| DnaValidator.ScanDistinct | ALGORYTHM/src/dna_validator.py:23 | each rsid is held once: the dict has distinct keys |
| DnaValidator.NothingBeforeHeader | ALGORYTHM/src/dna_validator.py:12-18 | nothing is read until a line is exactly the header |
| DnaValidator.LaterLineWins | ALGORYTHM/src/dna_validator.py:18-23 | a data line after the header sets its rsid's genotype to its two alleles, overwriting an earlier one, and leaves other rsids alone |
| DnaValidator.RelevantInFile | ALGORYTHM/src/dna_validator.py:37-42 | every relevant row is an rsid of the file |
| DnaValidator.Statuses | ALGORYTHM/src/dna_validator.py:54-68 | one status per relevant row, as `StatusOf` says |
| DnaValidator.Tally | ALGORYTHM/src/dna_validator.py:72-75 | the dict holds each key once with the number of its occurrences, as `Counts` says |
| DnaValidator.QualityIssues | ALGORYTHM/src/dna_validator.py:82-87 | the issues are `Issues` of the genotypes |
| DnaValidator.ValidateDnaAnalysis | ALGORYTHM/src/dna_validator.py:5-110 | the report is `Validated` of the lines and the table |
| DnaValidator.CategoryCounts | ALGORYTHM/src/dna_validator.py:72-78 | each category of a relevant SNP is listed with its count, in category order, and the counts add up |
| DnaValidator.StatusesSpec | ALGORYTHM/src/dna_validator.py:56-68 | one status per relevant SNP, with the file's genotype, marked present exactly when the risk allele occurs in it, case-sensitively |
| DnaValidator.NoIssuesIffClean | ALGORYTHM/src/dna_validator.py:82-87 | no quality issue exactly when every genotype is made of A, T, C and G only |
| DnaParse.ReadDnaFile | ALGORYTHM/src/process_dna.py:29-56 | the records are `ParseLines` of the file's lines |
| DnaParse.ParseLinesAppend | ALGORYTHM/src/process_dna.py:37-55 | parsing is line by line: the records of two pieces are the records of the whole |
| DnaParse.ParseLinesMember | ALGORYTHM/src/process_dna.py:37-55 | a record is produced exactly when some line yields it, never more records than lines |
| DnaParse.DataLineRoundTrip | ALGORYTHM/src/process_dna.py:37-55 | a record written as a tab-separated line reads back as the record, for plain fields |
| DnaParse.RecordOfCleanLine | ALGORYTHM/src/process_dna.py:38-53 | a clean, non-skipped line of five fields gives the record of those fields |
| DnaParse.DetectColumns | fastapi_migration/backend/app/services/dna_service.py:268-279 | the detected columns are one of the two sets, or [] |
| DnaParse.ScanColumns | fastapi_migration/backend/app/services/dna_service.py:268-279 | the loop returns `DetectColumns` of the lines |
| DnaParse.DetectColumnsSpec | fastapi_migration/backend/app/services/dna_service.py:268-279 | only the first 100 lines count; the set of the first line that holds a whole set is returned; [] exactly when none does |
| DnaParse.DetectIgnoresTail | fastapi_migration/backend/app/services/dna_service.py:269-271 | lines after the hundredth never influence the detected format |
| DnaParse.AncestryHeaderDetected | fastapi_migration/backend/app/services/dna_service.py:273-274 | a tab-separated AncestryDNA header line is recognised as that format |
| DnaParse.VerifyAndReadTxt | try.py:4-29 | the extension is checked before existence; then the detected columns |
| DnaParse.VerifyDnaFileFormat | fastapi_migration/backend/app/services/dna_service.py:249-279 | a missing file is FileNotFoundError; otherwise the detected columns |
| DnaParse.TableRecords | try.py:36-44 | one record per row, each fitting the columns; a 23andMe genotype is split into two alleles; an error exactly when some row does not fit (stricter than pandas for one-letter genotypes, see Left out) |
| DnaParse.Genotypes | try.py:41 | one genotype cell per row: the fourth cell of each row that has one |
| DnaParse.Widest | try.py:41 | the widest genotype: no cell is longer, and some cell is exactly that long |
| DnaParse.Letters | try.py:41 | `list(x)` of each cell as (allele1, allele2), allele2 missing for a one-letter cell |
| DnaParse.GenotypeSplit | fastapi_migration/backend/app/services/dna_service.py:313-315 | pandas' split succeeds exactly when every genotype has one or two letters and the widest has two; each row keeps its first letter, and its second exactly when it has two |
| DnaParse.TableRecordsSplit | fastapi_migration/backend/app/services/dna_service.py:313-315 | whenever the model has records, pandas' split succeeds on the same table and the records' alleles are the split's two letters |
| DnaParse.RecordLetters | try.py:41 | a fitting 23andMe row has four cells and a two-letter genotype, whose letters are its record's alleles |
| DnaParse.PairsSplit | try.py:41 | genotypes of two letters each split into two present letters |
| DnaParse.SplitRecords | fastapi_migration/backend/app/services/dna_service.py:313-315 | conversely, four-cell rows whose split gives every row two letters have records |
| DnaParse.MixedGenotypesSplit | fastapi_migration/backend/app/services/dna_service.py:313-315 | a table mixing "A" with "AG" splits under pandas (allele2 missing on the first row) but is a `GenotypeShape` error in the model |
| DnaParse.RowRecord | try.py:37-44 | a row's first three cells are the rsid, chromosome and position |
| DnaParse.ReadGeneticData | try.py:31-44 | a wrong extension, a missing file and no detected columns are errors; otherwise the table's records |
| Tables.First | fastapi_migration/backend/app/services/report_service.py:172-187 | the first row satisfying the condition, and `None` exactly when no row does |
| Tables.FirstAfterAppend | fastapi_migration/backend/app/services/report_service.py:172-187 | an appended row is found when no older row matches |
| Tables.FirstAfterOther | fastapi_migration/backend/app/services/report_service.py:172-187 | an appended row that does not match leaves the answer unchanged |

## Left out

- Hashing and serialisation: sha256, md5, pickle and `json.dumps` are function parameters. Key derivation assumes they are injective only where a lemma's `requires` says so.
- Floating point: MB conversions, elapsed times, detection rates and ages in hours are not modelled. The one float comparison that decides anything, `other > rs * 0.1` in `validate_dna_analysis`, is the integer `10 * other > rs`. `float(value)` in the CSV validator is a parameter (`isFloat`).
- Unicode: `str.isdigit`, the regex `\d` and `str.upper()` are modelled for ASCII only. The two patterns of the CSV schemas (`^rs\d+$`, `^[ATGC]$`) are modelled directly, without a regex engine.
- Time and the filesystem: `datetime.now()` and file mtimes are an injected integer clock in seconds. Directory listings, `glob`, `exists` and `unlink` are operations on the in-memory cache map. The ISO `modified_at` strings compared in `get_cache_stats` are integer mtimes; ISO strings of one width order the same way.
- Concurrency: racing writers to the cache directory (no lock, no atomic rename) are not modelled.
- ReportLab drawing: fonts, page layout, `Table` styles and canvas calls are not modelled. Rendering is the list of paragraph, table and bullet elements that `markdown_to_pdf` appends.
- Markdown: the whole-document split of generated markdown into `## ` sections is not proved to give back each section. A summary or an ingredient name containing "\n## " would break it. Each section's own parsing (table rows, list items) is proved.
- pandas: the CSV/TSV reading in `dna_service.read_dna_file` and `try.py` is modelled as rows already split into cells. The core-table `load_csv_to_db` loop and the relationship loader of the `0002` data migration in `db/scripts/migrate.py` (migrate.py:72-111 and the loaders after it) are not modelled; only its `up.sql` is run. pandas' recognition of "NA", "null" and similar cells as missing values is not modelled: every cell is its text.
- CSV tokenising: `csv.DictReader`'s splitting of text into fields is not modelled; a file is its header and rows.
- Database plumbing: SQLAlchemy, psycopg2 and pg8000 sessions, the async wrappers and the tuple-versus-attribute row fallbacks are not modelled. Tables are sequences of typed rows. A failed SQL statement is an outcome chosen by the environment. PostgreSQL's aborted-transaction state after an error is not modelled.
- Seed: row ids are positions in their table. A missing CSV column raises a `KeyError`, and two links with the same (source, target) primary key raise an `IntegrityError`; both escape, and the session rollback around them is assumed, and `database/db.py` is not part of this model. ORM keyword errors, surplus CSV values and `TRUNCATE ... CASCADE` effects are not modelled. `truncate_all` is modelled by its list of table names, because the SNP and link ORM models are not part of this model. An unreadable CSV and `exists()` on a directory are not modelled.
- SeedUtils: the `Path` join `/` is modelled as `dir + "/csv/" + name`.
- DataLoader: each table has one unique key (the `ON CONFLICT` target). A rejected insert (type or foreign-key error) is a predicate of the environment. A directory at the CSV path is not modelled. A relative explicit `file_path` is a key of the file map.
- Configuration: YAML parsing in `_load_config` is a parameter. Configuration values that no modelled operation reads are left out.
- `load_from_cache`: an unreadable json file raises `OSError` in the source, because `open()` runs before the `try`. The model decodes the stored bytes and never raises.
- `clean_all_cache` and `delete_cache_for_file`: the only failure modelled is a file that has vanished. Permission and other `unlink`/`stat` errors are not modelled.
- `get_cache_stats`: the `cache_directory` string is not modelled.
- Report rendering: a renderer that fails part-way leaves no partial file in the model.
- `get_report_metadata` and `download_report` in the reports router are not modelled. They are single-row lookups with no rule beyond `Tables.First`.
- `SqlMigrationManager.populate_data` is not modelled as a member. It only forwards to `DataLoader.load_table_data` or `load_all_data`, and both are modelled in `DataLoader`.
- Not modelled: `admin.py`, the debug endpoints (`direct_insert*`, `debug_*`, `/logs`), the frontend, `get_supported_formats` and the async `list_analyses`. They depend on code that is not part of this model or hold no rule.
- `get_dynamic_summary`: the summary service is a parameter that can fail. The argument string and the error path are modelled; the text it generates is not.
- DnaValidator: printing is not modelled. The report is a result record holding the sections the function prints. The database connection is the reference table passed as a parameter; a connection failure is `None`.
- CleanAllCache: `total_size_mb_before` is the corrected `SizeBefore`. The source always reports 0 (cache_service.py:202); `SizeBeforeAsWrittenIsZero` states that behaviour (see Findings).
- MarkdownToPdf: lists are split with the corrected `ListItems`. The source's split (pdf_service.py:295) keeps the first item's "- " marker; `SingleItemAsWritten` and `ListParagraphAsWritten` state that behaviour (see Findings).
- RenderSection: its paragraphs use the corrected list split, as for `MarkdownToPdf`.
- RenderParagraphs: each paragraph uses the corrected list split, as for `MarkdownToPdf`.
- RenderParagraph: a list paragraph is split with the corrected `ListItems`, as for `MarkdownToPdf`.
- TableRecords: every 23andMe genotype must have two letters. pandas also accepts a table whose widest genotype has two letters and leaves allele2 missing (NaN) on its one-letter rows, such as male X and Y calls. A record's allele2 is a string and cannot hold NaN, so the model reports `GenotypeShape` for such a table. `GenotypeSplit` models pandas' rule; `TableRecordsSplit`, `SplitRecords` and `MixedGenotypesSplit` relate the two.
- ReadGeneticData: inherits the `TableRecords` rejection of a 23andMe table mixing one- and two-letter genotypes.
- Parsed: inherits the `TableRecords` rejection of a 23andMe table mixing one- and two-letter genotypes.
- ParseDnaFile: inherits the `TableRecords` rejection of a 23andMe table mixing one- and two-letter genotypes.
- ReadDnaFile: inherits the `TableRecords` rejection of a 23andMe table mixing one- and two-letter genotypes; such a file is an error, not cached data.
- ReadOutcome: inherits the `TableRecords` rejection of a 23andMe table mixing one- and two-letter genotypes.
- ValidateDnaAnalysis: reports a 23andMe file mixing one- and two-letter genotypes as invalid. The source reports it valid and counts each missing allele2 as "other".
- ByHash: a candidate file mixing one- and two-letter genotypes does not parse, as in `TableRecords`, so it yields no data.
- GetSnpDataByHash: inherits the `ByHash` treatment of a file mixing one- and two-letter genotypes.
- SeedTable: a duplicate link pair raises `IntegrityError` only after the whole loop. In the source, the autoflush before the next query can raise it earlier. A CSV with a duplicate pair and a later row lacking a column therefore raises `IntegrityError` in the source and `KeyError` in the model. In both, nothing of the call is committed.
- UnlinkOne: the error message is "Failed to delete " and the name. The source appends ": " and the exception's text (cache_service.py:197), which is not modelled.
- PathJoin: `os.path.join` discards the directory when the name is absolute. The model always joins with "/"; component and file names are taken to be relative.

## Findings

| source | as written | input that shows it | evidently intended | confidence | as-written member | corrected member |
|---|---|---|---|---|---|---|
| fastapi_migration/backend/app/services/cache_service.py:202 | `total_size_mb_before` reads `stats_before.get('mb_freed', 0)`, a key `get_cache_stats` never sets, so it is always 0 | a cache holding one file of 1048576 bytes: the result says 0 MB before cleaning | report the cache's size in MB before cleaning (`stats_before['total_size_mb']`) | high; not executed | CacheService.SizeBeforeAsWrittenIsZero | CacheService.SizeBeforeReportsSize |
| fastapi_migration/backend/app/services/pdf_service.py:295 | `paragraph.split('\n- ')` leaves the leading "- " on the first item, so the first bullet renders as "• - ..." | the one-item list paragraph "- **Niacinamide**" | every item loses its "- " marker, the first one included | high; not executed | Markdown.SingleItemAsWritten | Markdown.SingleItemCorrected |
