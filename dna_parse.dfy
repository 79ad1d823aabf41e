// Reading raw DNA text exports: the line rules of `read_dna_file`
// (ALGORYTHM/src/process_dna.py and ALGORYTHM/src/generate_skin_report.py),
// the column sniffing of `verify_dna_file_format` and try.py, and the
// genotype split applied to 23andMe tables.
module DnaParse {
  import opened Wrappers
  import opened PyStr
  import opened Seqs

  /** One parsed SNP row, every field kept as the text it was in the file. */
  datatype SnpRecord = SnpRecord(rsid: string, chromosome: string, position: string, allele1: string, allele2: string)

  function Fields(r: SnpRecord): seq<string> {
    [r.rsid, r.chromosome, r.position, r.allele1, r.allele2]
  }

  /** A stripped line that `read_dna_file` passes over: a comment, a blank line or the column header. */
  predicate Skipped(line: string) {
    StartsWith(line, "#") || line == [] || StartsWith(line, "rsid")
  }

  /** What `read_dna_file` makes of one line of the file: a record, or nothing. */
  function LineRecord(line: string): Option<SnpRecord>
  {
    var s := Strip(line);
    if Skipped(s) then None
    else
      var f := Split(s, '\t');
      if |f| >= 5 then Some(SnpRecord(f[0], f[1], f[2], f[3], f[4])) else None
  }

  /** The records of a file, one per accepted line, in file order. */
  function ParseLines(lines: seq<string>): seq<SnpRecord> {
    FilterMap(lines, LineRecord)
  }

  /**
   * `read_dna_file`: strip each line, skip comments, blank lines and the
   * header, split on tabs and keep the first five fields of lines that
   * have at least five.
   */
  method ReadDnaFile(lines: seq<string>) returns (snps: seq<SnpRecord>)
    ensures snps == ParseLines(lines)
  {
    snps := [];
    var i := 0;
    while i < |lines|
      invariant 0 <= i <= |lines|
      invariant snps == ParseLines(lines[..i])
    {
      assert lines[..i + 1] == lines[..i] + [lines[i]];
      FilterMapSnoc(lines[..i], lines[i], LineRecord);
      var rec := LineRecord(lines[i]);
      if rec.Some? {
        snps := snps + [rec.value];
      }
      i := i + 1;
    }
    assert lines[..i] == lines;
  }

  /** Parsing is line by line: the records of two pieces of a file are the records of the whole. */
  lemma ParseLinesAppend(a: seq<string>, b: seq<string>)
    ensures ParseLines(a + b) == ParseLines(a) + ParseLines(b)
  {
    FilterMapAppend(a, b, LineRecord);
  }

  /** A record is produced exactly when some line of the file yields it, and never more records than lines. */
  lemma ParseLinesMember(lines: seq<string>, r: SnpRecord)
    ensures r in ParseLines(lines) <==> exists i :: 0 <= i < |lines| && LineRecord(lines[i]) == Some(r)
    ensures |ParseLines(lines)| <= |lines|
  {
    FilterMapMember(lines, LineRecord, r);
  }

  /** A field safe to write into a tab-separated data line. */
  predicate PlainField(f: string) {
    '\t' !in f
  }

  /** The tab-separated line for a record, as an AncestryDNA export writes it. */
  function DataLine(r: SnpRecord): string {
    Join(Fields(r), "\t")
  }

  /**
   * Writing a record as a tab-separated line and reading it back gives the
   * record, provided the fields hold no tab, the line has no surrounding
   * whitespace and the rsid does not look like a comment or the header.
   */
  lemma DataLineRoundTrip(r: SnpRecord)
    requires forall i :: 0 <= i < 5 ==> PlainField(Fields(r)[i])
    requires r.rsid != [] && !IsSpace(r.rsid[0]) && !StartsWith(r.rsid, "#") && !StartsWith(r.rsid, "rsid")
    requires r.allele2 != [] && !IsSpace(r.allele2[|r.allele2| - 1])
    ensures LineRecord(DataLine(r)) == Some(r)
  {
    var line := DataLine(r);
    var tail := r.chromosome + "\t" + r.position + "\t" + r.allele1 + "\t" + r.allele2;
    DataLineShape(r);
    assert line[|line| - 1] == r.allele2[|r.allele2| - 1];
    StripUnchanged(line);
    AppendAssoc(r.rsid, "\t", tail);
    NotCommentOrHeader(r.rsid, "\t" + tail);
    assert !Skipped(line);
    assert Split(line, '\t') == Fields(r) by {
      assert forall i :: 0 <= i < 5 ==> '\t' !in Fields(r)[i];
      SplitJoin(Fields(r), '\t');
    }
    RecordOfCleanLine(line, Fields(r));
  }

  lemma DataLineShape(r: SnpRecord)
    ensures DataLine(r) == r.rsid + "\t" + (r.chromosome + "\t" + r.position + "\t" + r.allele1 + "\t" + r.allele2)
  {
    var f := Fields(r);
    assert f[4..] == [r.allele2];
    assert Join(f[3..], "\t") == r.allele1 + "\t" + r.allele2;
    assert Join(f[2..], "\t") == r.position + "\t" + Join(f[3..], "\t");
    assert Join(f[1..], "\t") == r.chromosome + "\t" + Join(f[2..], "\t");
  }

  /** A line already free of surrounding whitespace, not skipped, that splits into five fields. */
  lemma RecordOfCleanLine(line: string, f: seq<string>)
    requires Strip(line) == line && !Skipped(line)
    requires Split(line, '\t') == f && |f| == 5
    ensures LineRecord(line) == Some(SnpRecord(f[0], f[1], f[2], f[3], f[4]))
  {
  }

  /** An rsid that is neither a comment nor the header keeps the line it starts from being either. */
  lemma NotCommentOrHeader(rsid: string, rest: string)
    requires rsid != [] && !StartsWith(rsid, "#") && !StartsWith(rsid, "rsid")
    requires rest != [] && rest[0] == '\t'
    ensures !StartsWith(rsid + rest, "#") && !StartsWith(rsid + rest, "rsid")
  {
    var line := rsid + rest;
    assert line[..1] == rsid[..1];
    if |rsid| >= 4 {
      assert line[..4] == rsid[..4];
    } else if |line| >= 4 {
      assert line[..4][|rsid|] == '\t';
      assert "rsid"[|rsid|] != '\t';
    }
  }

  // ---------------------------------------------------------------------
  // Column sniffing (verify_dna_file_format and try.py verify_and_read_txt)
  // ---------------------------------------------------------------------

  /** The AncestryDNA columns. */
  const AncestryColumns: seq<string> := ["rsid", "chromosome", "position", "allele1", "allele2"]
  /** The 23andMe columns. */
  const GenotypeColumns: seq<string> := ["rsid", "chromosome", "position", "genotype"]

  /** How many lines of a file are inspected. */
  const ScanLimit: nat := 100

  /** Every column name occurs somewhere in the line (`all(column in line ...)`). */
  predicate AllIn(columns: seq<string>, line: string) {
    forall c :: c in columns ==> Contains(line, c)
  }

  /** The column set chosen by one line, set 1 tried before set 2, or [] when neither fits. */
  function LineColumns(line: string): seq<string> {
    if AllIn(AncestryColumns, line) then AncestryColumns
    else if AllIn(GenotypeColumns, line) then GenotypeColumns
    else []
  }

  /** The columns detected from lines `i..` of the scanned window. */
  function DetectFrom(lines: seq<string>, i: nat): (r: seq<string>)
    ensures r == [] || r == AncestryColumns || r == GenotypeColumns
    decreases |lines| - i
  {
    if i >= |lines| || i >= ScanLimit then []
    else if LineColumns(lines[i]) != [] then LineColumns(lines[i])
    else DetectFrom(lines, i + 1)
  }

  function DetectColumns(lines: seq<string>): (r: seq<string>)
    ensures r == [] || r == AncestryColumns || r == GenotypeColumns
  {
    DetectFrom(lines, 0)
  }

  /** The scan: the first of the first 100 lines that holds a whole column set decides. */
  method ScanColumns(lines: seq<string>) returns (columns: seq<string>)
    ensures columns == DetectColumns(lines)
  {
    var i := 0;
    while i < |lines|
      invariant 0 <= i <= |lines|
      invariant i <= ScanLimit
      invariant DetectFrom(lines, i) == DetectColumns(lines)
    {
      if i >= 100 {
        break;
      }
      var line := lines[i];
      if AllIn(AncestryColumns, line) {
        return AncestryColumns;
      }
      if AllIn(GenotypeColumns, line) {
        return GenotypeColumns;
      }
      i := i + 1;
    }
    return [];
  }

  /** The detected set is one of the two known sets, or []. */
  lemma {:induction false} DetectFromShape(lines: seq<string>, i: nat)
    ensures DetectFrom(lines, i) in {AncestryColumns, GenotypeColumns, []}
    ensures DetectFrom(lines, i) != [] ==>
      exists j :: i <= j < |lines| && j < ScanLimit && LineColumns(lines[j]) == DetectFrom(lines, i)
    ensures DetectFrom(lines, i) == [] ==>
      forall j :: i <= j < |lines| && j < ScanLimit ==> LineColumns(lines[j]) == []
    decreases |lines| - i
  {
    if i < |lines| && i < ScanLimit {
      var here := LineColumns(lines[i]);
      if here == [] {
        DetectFromShape(lines, i + 1);
        assert DetectFrom(lines, i) == DetectFrom(lines, i + 1);
      } else {
        assert DetectFrom(lines, i) == here;
      }
    }
  }

  /**
   * Detection depends on the first 100 lines only, returns the set of the
   * first line that holds a whole set, and is [] exactly when none of those
   * lines holds one.
   */
  lemma DetectColumnsSpec(lines: seq<string>)
    ensures DetectColumns(lines) in {AncestryColumns, GenotypeColumns, []}
    ensures DetectColumns(lines) == [] <==>
      forall j :: 0 <= j < |lines| && j < ScanLimit ==> LineColumns(lines[j]) == []
    ensures DetectColumns(lines) != [] ==>
      exists j :: 0 <= j < |lines| && j < ScanLimit && AllIn(DetectColumns(lines), lines[j])
  {
    DetectFromShape(lines, 0);
    if DetectColumns(lines) != [] {
      var j :| 0 <= j < |lines| && j < ScanLimit && LineColumns(lines[j]) == DetectColumns(lines);
      assert AllIn(DetectColumns(lines), lines[j]);
    }
  }

  lemma {:induction false} DetectFromPrefix(lines: seq<string>, more: seq<string>, i: nat)
    requires |lines| >= ScanLimit
    ensures DetectFrom(lines + more, i) == DetectFrom(lines, i)
    decreases |lines| - i
  {
    if i < ScanLimit {
      assert (lines + more)[i] == lines[i];
      DetectFromPrefix(lines, more, i + 1);
    }
  }

  /** Lines after the hundredth never influence the detected format. */
  lemma DetectIgnoresTail(lines: seq<string>, more: seq<string>)
    requires |lines| >= ScanLimit
    ensures DetectColumns(lines + more) == DetectColumns(lines)
  {
    DetectFromPrefix(lines, more, 0);
  }

  /** A header line naming the AncestryDNA columns, tab-separated, is recognised as that format. */
  lemma AncestryHeaderDetected(rest: seq<string>)
    ensures DetectColumns([Join(AncestryColumns, "\t")] + rest) == AncestryColumns
  {
    var h := Join(AncestryColumns, "\t");
    forall c | c in AncestryColumns ensures Contains(h, c) {
      var k :| 0 <= k < |AncestryColumns| && AncestryColumns[k] == c;
      JoinContains(AncestryColumns, "\t", k);
    }
    assert LineColumns(h) == AncestryColumns;
    assert ([h] + rest)[0] == h;
  }

  /** Why a DNA text file cannot be read. */
  datatype ReadError = NotTxt | FileMissing | NoExpectedColumns | TableShape | GenotypeShape

  /** try.py `verify_and_read_txt`: the extension is checked before the file's existence. */
  method VerifyAndReadTxt(path: string, exists_: bool, lines: seq<string>) returns (r: Result<seq<string>, ReadError>)
    ensures !EndsWith(path, ".txt") ==> r == Err(NotTxt)
    ensures EndsWith(path, ".txt") && !exists_ ==> r == Err(FileMissing)
    ensures EndsWith(path, ".txt") && exists_ ==> r == Ok(DetectColumns(lines))
  {
    if !EndsWith(path, ".txt") {
      return Err(NotTxt);
    }
    if !exists_ {
      return Err(FileMissing);
    }
    var columns := ScanColumns(lines);
    return Ok(columns);
  }

  /** dna_service `verify_dna_file_format`: the same scan, without the extension check. */
  method VerifyDnaFileFormat(exists_: bool, lines: seq<string>) returns (r: Result<seq<string>, ReadError>)
    ensures !exists_ ==> r == Err(FileMissing)
    ensures exists_ ==> r == Ok(DetectColumns(lines))
  {
    if !exists_ {
      return Err(FileMissing);
    }
    var columns := ScanColumns(lines);
    return Ok(columns);
  }

  // ---------------------------------------------------------------------
  // Building records from the table read with the detected columns
  // ---------------------------------------------------------------------

  /**
   * The rows of the table read with the detected column names, one cell per
   * column; a 23andMe `genotype` cell of two characters becomes allele1 and
   * allele2 and the genotype column is dropped.
   */
  function TableRecords(columns: seq<string>, rows: seq<seq<string>>): (r: Result<seq<SnpRecord>, ReadError>)
    requires columns == AncestryColumns || columns == GenotypeColumns
    ensures r.Ok? ==> |r.value| == |rows|
    ensures r.Ok? ==> forall i :: 0 <= i < |rows| ==> RowFits(columns, rows[i])
    ensures r.Ok? && columns == GenotypeColumns ==>
      forall i :: 0 <= i < |rows| ==> |rows[i]| == 4 && r.value[i].allele1 + r.value[i].allele2 == rows[i][3]
    ensures r.Ok? && columns == AncestryColumns ==>
      forall i :: 0 <= i < |rows| ==> Fields(r.value[i]) == rows[i]
    ensures r.Err? <==> exists i :: 0 <= i < |rows| && !RowFits(columns, rows[i])
  {
    if rows == [] then Ok([])
    else if !RowFits(columns, rows[0]) then Err(if |rows[0]| != |columns| then TableShape else GenotypeShape)
    else
      match TableRecords(columns, rows[1..])
      case Err(e) =>
        var i :| 0 <= i < |rows[1..]| && !RowFits(columns, rows[1..][i]);
        assert !RowFits(columns, rows[i + 1]);
        Err(e)
      case Ok(rest) =>
        assert forall i :: 1 <= i < |rows| ==> rows[i] == rows[1..][i - 1];
        Ok([RowRecord(columns, rows[0])] + rest)
  }

  /** A row with one cell per column and, for 23andMe, a two-character genotype. */
  predicate RowFits(columns: seq<string>, row: seq<string>) {
    |row| == |columns| && (columns == GenotypeColumns ==> |row[3]| == 2)
  }

  function RowRecord(columns: seq<string>, row: seq<string>): (r: SnpRecord)
    requires columns == AncestryColumns || columns == GenotypeColumns
    requires RowFits(columns, row)
    ensures r.rsid == row[0] && r.chromosome == row[1] && r.position == row[2]
  {
    if columns == GenotypeColumns then SnpRecord(row[0], row[1], row[2], [row[3][0]], [row[3][1]])
    else SnpRecord(row[0], row[1], row[2], row[3], row[4])
  }

  // ---------------------------------------------------------------------
  // The pandas genotype split itself
  // ---------------------------------------------------------------------

  /** The genotype cell of each 23andMe row ("" where the row has no fourth cell). */
  function Genotypes(rows: seq<seq<string>>): (r: seq<string>)
    ensures |r| == |rows|
    ensures forall i :: 0 <= i < |rows| && |rows[i]| > 3 ==> r[i] == rows[i][3]
  {
    if rows == [] then []
    else [if |rows[0]| > 3 then rows[0][3] else ""] + Genotypes(rows[1..])
  }

  /** The longest cell: the number of columns `apply(lambda x: pd.Series(list(x)))` produces. */
  function Widest(cells: seq<string>): (w: nat)
    ensures forall i :: 0 <= i < |cells| ==> |cells[i]| <= w
    ensures cells != [] ==> exists i :: 0 <= i < |cells| && |cells[i]| == w
    ensures cells == [] ==> w == 0
  {
    if cells == [] then 0
    else
      var rest := Widest(cells[1..]);
      if |cells[0]| >= rest then |cells[0]| else assert cells[1..] != []; rest
  }

  /** Each cell's letters as (allele1, allele2), allele2 missing (pandas NaN) for a one-letter cell. */
  function Letters(cells: seq<string>): (r: seq<(char, Option<char>)>)
    requires forall i :: 0 <= i < |cells| ==> 1 <= |cells[i]|
    ensures |r| == |cells|
    ensures forall i :: 0 <= i < |cells| ==>
              r[i] == (cells[i][0], if |cells[i]| >= 2 then Some(cells[i][1]) else None)
  {
    if cells == [] then []
    else [(cells[0][0], if |cells[0]| >= 2 then Some(cells[0][1]) else None)] + Letters(cells[1..])
  }

  /**
   * dna_service.py `df[['allele1', 'allele2']] = df['genotype'].apply(...)`:
   * `list` of an empty (NaN) cell raises, and the two-column assignment fails
   * unless the widest genotype has exactly two letters; shorter genotypes
   * leave allele2 missing.
   */
  function GenotypeSplit(cells: seq<string>): (r: Option<seq<(char, Option<char>)>>)
    ensures r.Some? <==> (forall i :: 0 <= i < |cells| ==> 1 <= |cells[i]| <= 2) &&
                         (cells == [] || exists i :: 0 <= i < |cells| && |cells[i]| == 2)
    ensures r.Some? ==> |r.value| == |cells| &&
                        forall i :: 0 <= i < |cells| ==>
                          r.value[i] == (cells[i][0], if |cells[i]| == 2 then Some(cells[i][1]) else None)
  {
    if cells == [] then Some([])
    else if (forall i :: 0 <= i < |cells| ==> 1 <= |cells[i]|) && Widest(cells) == 2 then Some(Letters(cells))
    else None
  }

  /**
   * Where the records of a 23andMe table exist, they are pandas' split: every
   * genotype splits into two present letters, allele1 and allele2.
   */
  lemma TableRecordsSplit(rows: seq<seq<string>>)
    requires TableRecords(GenotypeColumns, rows).Ok?
    ensures var split := GenotypeSplit(Genotypes(rows));
            var recs := TableRecords(GenotypeColumns, rows).value;
            split.Some? && forall i :: 0 <= i < |rows| ==>
              split.value[i].1.Some? && recs[i].allele1 == [split.value[i].0] && recs[i].allele2 == [split.value[i].1.value]
  {
    var cells := Genotypes(rows);
    var recs := TableRecords(GenotypeColumns, rows).value;
    forall i | 0 <= i < |rows|
      ensures |cells[i]| == 2 && recs[i].allele1 == [cells[i][0]] && recs[i].allele2 == [cells[i][1]]
    {
      RecordLetters(rows, i);
    }
    PairsSplit(cells);
  }

  /** Cells of exactly two letters split into two present letters each. */
  lemma PairsSplit(cells: seq<string>)
    requires forall i :: 0 <= i < |cells| ==> |cells[i]| == 2
    ensures var split := GenotypeSplit(cells);
            split.Some? && forall i :: 0 <= i < |cells| ==> split.value[i] == (cells[i][0], Some(cells[i][1]))
  {
    assert cells != [] ==> |cells[0]| == 2;
  }

  /** The record of a fitting 23andMe row holds the two letters of its genotype. */
  lemma {:induction false} RecordLetters(rows: seq<seq<string>>, i: nat)
    requires TableRecords(GenotypeColumns, rows).Ok? && i < |rows|
    ensures var r := TableRecords(GenotypeColumns, rows).value[i];
            |rows[i]| == 4 && |rows[i][3]| == 2 && r.allele1 == [rows[i][3][0]] && r.allele2 == [rows[i][3][1]]
  {
    if i > 0 {
      RecordLetters(rows[1..], i - 1);
      assert rows[1..][i - 1] == rows[i];
    }
  }

  /**
   * Conversely, a table of four-cell rows whose pandas split gives every row
   * two letters has records.
   */
  lemma SplitRecords(rows: seq<seq<string>>)
    requires forall i :: 0 <= i < |rows| ==> |rows[i]| == 4
    requires var split := GenotypeSplit(Genotypes(rows));
             split.Some? && forall i :: 0 <= i < |rows| ==> split.value[i].1.Some?
    ensures TableRecords(GenotypeColumns, rows).Ok?
  {
    var cells := Genotypes(rows);
    assert forall i :: 0 <= i < |rows| ==> RowFits(GenotypeColumns, rows[i]) by {
      forall i | 0 <= i < |rows| ensures RowFits(GenotypeColumns, rows[i]) {
        assert cells[i] == rows[i][3];
      }
    }
  }

  /**
   * A 23andMe table mixing a one-letter call (a male X call) with a two-letter
   * one: pandas splits it, leaving the first allele2 missing, while the
   * records of this model require two letters in every row.
   */
  lemma MixedGenotypesSplit()
    ensures var rows := [["rs1", "X", "1", "A"], ["rs2", "1", "2", "AG"]];
            GenotypeSplit(Genotypes(rows)) == Some([('A', None), ('A', Some('G'))]) &&
            TableRecords(GenotypeColumns, rows) == Err(GenotypeShape)
  {
    var rows := [["rs1", "X", "1", "A"], ["rs2", "1", "2", "AG"]];
    var cells := Genotypes(rows);
    assert cells == ["A", "AG"];
    assert |cells[1]| == 2;
    var split := GenotypeSplit(cells);
    assert split.Some? && |split.value| == 2;
    assert split.value[0] == ('A', None) && split.value[1] == ('A', Some('G'));
    assert split.value == [('A', None), ('A', Some('G'))];
    assert !RowFits(GenotypeColumns, rows[0]);
  }

  /** try.py `read_genetic_data`: no detected columns is a ValueError; otherwise the table's records. */
  method ReadGeneticData(path: string, exists_: bool, lines: seq<string>, rows: seq<seq<string>>)
    returns (r: Result<seq<SnpRecord>, ReadError>)
    ensures !EndsWith(path, ".txt") ==> r == Err(NotTxt)
    ensures EndsWith(path, ".txt") && !exists_ ==> r == Err(FileMissing)
    ensures EndsWith(path, ".txt") && exists_ && DetectColumns(lines) == [] ==> r == Err(NoExpectedColumns)
    ensures EndsWith(path, ".txt") && exists_ && DetectColumns(lines) != [] ==>
      r == TableRecords(DetectColumns(lines), rows)
  {
    var columns := VerifyAndReadTxt(path, exists_, lines);
    if columns.Err? {
      return Err(columns.error);
    }
    if columns.value == [] {
      return Err(NoExpectedColumns);
    }
    DetectColumnsSpec(lines);
    r := TableRecords(columns.value, rows);
  }
}
