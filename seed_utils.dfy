// fastapi_migration/database/seed_data/seed_utils.py: where the seed CSV
// files live and how their rows are read. The files are a map from path to the
// rows `csv.DictReader` yields; a path that is not in the map does not exist.
module SeedUtils {
  import opened Wrappers
  import opened Seqs
  import opened PyStr
  import opened CsvRows

  // ---------------------------------------------------------------------------
  // get_csv_path (seed_utils.py:15-35)
  // ---------------------------------------------------------------------------

  /** The file name with ".csv" appended unless it already ends with it. */
  function WithExtension(fileName: string): (r: string)
    ensures EndsWith(r, ".csv")
  {
    if EndsWith(fileName, ".csv") then fileName else fileName + ".csv"
  }

  /** `get_csv_path(file_name)`, for the directory `moduleDir` that holds seed_utils.py. */
  function CsvPath(moduleDir: string, fileName: string): string {
    moduleDir + "/csv/" + WithExtension(fileName)
  }

  /**
   * The extension is added at most once: a name that has it is kept, any other
   * gains exactly ".csv", and normalising twice is normalising once.
   */
  lemma WithExtensionSpec(fileName: string)
    ensures EndsWith(fileName, ".csv") ==> WithExtension(fileName) == fileName
    ensures !EndsWith(fileName, ".csv") ==> WithExtension(fileName) == fileName + ".csv"
    ensures WithExtension(WithExtension(fileName)) == WithExtension(fileName)
  {
  }

  /** "snps" and "snps.csv" name the same file, under `csv` in the module directory. */
  lemma CsvPathExample(moduleDir: string)
    ensures CsvPath(moduleDir, "snps") == CsvPath(moduleDir, "snps.csv") == moduleDir + "/csv/" + "snps.csv"
  {
    SnpsExtension();
  }

  lemma SnpsExtension()
    ensures WithExtension("snps") == "snps.csv" && WithExtension("snps.csv") == "snps.csv"
  {
    assert !EndsWith("snps", ".csv");
    assert "snps.csv"[4..] == ".csv";
  }

  // ---------------------------------------------------------------------------
  // load_csv_data (seed_utils.py:37-67)
  // ---------------------------------------------------------------------------

  /** The readable CSV files, by path. */
  type CsvFiles = map<string, seq<DictRow>>

  /** `value.strip() if isinstance(value, str) else value` for a column's value. */
  function StripValue(field: (string, Option<string>)): (string, Option<string>) {
    (field.0, if field.1.Some? then Some(Strip(field.1.value)) else None)
  }

  /** The comprehension of seed_utils.py:62-63; the list of surplus values is not a string and stays. */
  function CleanRow(row: DictRow): DictRow {
    DictRow(Map(row.fields, StripValue), row.extras)
  }

  /** What `load_csv_data(file_name)` returns: [] for a missing file, else each row cleaned. */
  function CsvData(files: CsvFiles, moduleDir: string, fileName: string): (data: seq<DictRow>) {
    var path := CsvPath(moduleDir, fileName);
    if path in files then Map(files[path], CleanRow) else []
  }

  method LoadCsvData(files: CsvFiles, moduleDir: string, fileName: string) returns (data: seq<DictRow>)
    ensures data == CsvData(files, moduleDir, fileName)
  {
    var path := CsvPath(moduleDir, fileName);
    if path !in files {
      return [];
    }
    var rows := files[path];
    data := [];
    var i := 0;
    while i < |rows|
      invariant i <= |rows|
      invariant data == Map(rows[..i], CleanRow)
    {
      MapStep(rows, i, CleanRow);
      data := data + [CleanRow(rows[i])];
      i := i + 1;
    }
    assert rows[..i] == rows;
  }

  /**
   * A cleaned row keeps its columns, their order and the surplus values; a
   * string value loses its surrounding whitespace and `None` stays `None`.
   * Cleaning a cleaned row changes nothing.
   */
  lemma CleanRowSpec(row: DictRow)
    ensures var c := CleanRow(row);
            |c.fields| == |row.fields| && c.extras == row.extras &&
            (forall i :: 0 <= i < |row.fields| ==>
               c.fields[i].0 == row.fields[i].0 &&
               (row.fields[i].1.None? ==> c.fields[i].1.None?) &&
               (row.fields[i].1.Some? ==> c.fields[i].1 == Some(Strip(row.fields[i].1.value))))
    ensures CleanRow(CleanRow(row)) == CleanRow(row)
  {
    var c := CleanRow(row);
    var cc := CleanRow(c);
    forall i | 0 <= i < |row.fields| ensures cc.fields[i] == c.fields[i] {
      if row.fields[i].1.Some? {
        StripIdempotent(row.fields[i].1.value);
      }
    }
  }

  /** A file that is not there reads as no rows; a file that is there gives one cleaned row per row. */
  lemma CsvDataSpec(files: CsvFiles, moduleDir: string, fileName: string)
    ensures CsvPath(moduleDir, fileName) !in files ==> CsvData(files, moduleDir, fileName) == []
    ensures CsvPath(moduleDir, fileName) in files ==>
              var rows := files[CsvPath(moduleDir, fileName)];
              |CsvData(files, moduleDir, fileName)| == |rows| &&
              forall i :: 0 <= i < |rows| ==> CsvData(files, moduleDir, fileName)[i] == CleanRow(rows[i])
  {
  }
}
