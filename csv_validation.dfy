// db/scripts/validate_csv.py: the schemas of the seed CSV files, the
// validation of one file against a schema (header, then each record field by
// field), and the command line's choice of schema from the file name.
//
// The csv module's tokenising is not modelled: a file arrives as its header
// and the records `csv.DictReader` yields (it skips blank lines), and the
// value of a field in a record is what DictReader puts under that key.
module CsvValidation {
  import opened Wrappers
  import opened PyStr

  // ---------------------------------------------------------------------------
  // Schemas (lines 9-217)
  // ---------------------------------------------------------------------------

  /** The `type` of a field; any other type name is not checked. */
  datatype FieldType = Integer | Decimal | Enum(allowed: seq<string>) | Unchecked(name: string)

  /** The two patterns the schemas use. */
  datatype Pattern = RsId | Base

  /** A field's constraints; the `description` is not used by the validation. */
  datatype Constraint = Constraint(required: bool, fieldType: Option<FieldType>, pattern: Option<Pattern>)

  /** A schema lists its fields in the order the dict literal gives them. */
  type Schema = seq<(string, Constraint)>

  function PatternText(p: Pattern): string {
    match p
    case RsId => "^rs\\d+$"
    case Base => "^[ATGC]$"
  }

  const Strength: seq<string> := ["Strong", "Moderate", "Weak"]
  const Recommendation: seq<string> := ["First-line", "Second-line", "Supportive", "Adjuvant"]

  const Required := Constraint(true, None, None)
  const Optional := Constraint(false, None, None)
  function RequiredEnum(allowed: seq<string>): Constraint { Constraint(true, Some(Enum(allowed)), None) }
  const RequiredRsId := Constraint(true, None, Some(RsId))

  const Schemas: map<string, Schema> := map[
    "snps" := [("rsid", RequiredRsId), ("gene", Required), ("risk_allele", Constraint(true, None, Some(Base))),
               ("effect", Required), ("evidence_strength", RequiredEnum(Strength)), ("category", Required)],
    "characteristics" := [("name", Required), ("description", Required), ("measurement_method", Optional)],
    "ingredients" := [("name", Required), ("mechanism", Required), ("evidence_level", RequiredEnum(Strength)),
                      ("contraindications", Optional)],
    "ingredient_cautions" := [("ingredient_name", Required), ("category", Required), ("risk_mechanism", Required),
                              ("affected_characteristic", Optional), ("alternative_ingredients", Optional)],
    "skin_conditions" := [("name", Required), ("description", Required), ("severity_scale", Required)],
    "snp_characteristic" := [("rsid", RequiredRsId), ("characteristic_name", Required),
                             ("effect_direction", RequiredEnum(["Increases", "Decreases", "Modulates"])),
                             ("evidence_strength", RequiredEnum(Strength))],
    "snp_ingredient" := [("rsid", RequiredRsId), ("ingredient_name", Required), ("benefit_mechanism", Required),
                         ("recommendation_strength", RequiredEnum(Recommendation)),
                         ("evidence_level", RequiredEnum(Strength))],
    "snp_ingredientcaution" := [("rsid", RequiredRsId), ("ingredient_name", Required),
                                ("relationship_notes", Required), ("evidence_level", RequiredEnum(Strength))],
    "characteristic_condition" := [("characteristic_name", Required), ("condition_name", Required),
                                   ("relationship_type", RequiredEnum(["Primary Factor", "Contributing Factor"]))],
    "condition_ingredient" := [("condition_name", Required), ("ingredient_name", Required),
                               ("recommendation_strength", RequiredEnum(Recommendation)), ("guidance_notes", Required)]
  ]

  // ---------------------------------------------------------------------------
  // Value checks
  // ---------------------------------------------------------------------------

  /** `value.isdigit()`, over ASCII digits. */
  predicate AllDigits(v: string) {
    v != [] && forall i :: 0 <= i < |v| ==> IsDigit(v[i])
  }

  predicate RsIdWhole(s: string) {
    |s| >= 3 && s[..2] == "rs" && forall i :: 2 <= i < |s| ==> IsDigit(s[i])
  }

  predicate BaseWhole(s: string) {
    |s| == 1 && (s[0] == 'A' || s[0] == 'T' || s[0] == 'G' || s[0] == 'C')
  }

  predicate Whole(p: Pattern, s: string) {
    match p
    case RsId => RsIdWhole(s)
    case Base => BaseWhole(s)
  }

  /**
   * `re.match(pattern, value)`: the match is anchored at the start, and `$`
   * also matches just before a final newline.
   */
  predicate Matches(p: Pattern, v: string) {
    Whole(p, v) || (|v| > 0 && v[|v| - 1] == '\n' && Whole(p, v[..|v| - 1]))
  }

  /** `float(value)` succeeds; number parsing is a parameter of the model. */
  type FloatParser = string -> bool

  /** What a non-empty value must satisfy for its field's type. */
  predicate TypeOk(t: FieldType, v: string, isFloat: FloatParser) {
    match t
    case Integer => AllDigits(v)
    case Decimal => isFloat(v)
    case Enum(allowed) => v in allowed
    case Unchecked(_) => true
  }

  /** A value that raises no error for its field. */
  predicate Satisfies(c: Constraint, v: string, isFloat: FloatParser) {
    (c.required ==> v != "") &&
    (v != "" && c.fieldType.Some? ==> TypeOk(c.fieldType.value, v, isFloat)) &&
    (v != "" && c.pattern.Some? ==> Matches(c.pattern.value, v))
  }

  // ---------------------------------------------------------------------------
  // Errors
  // ---------------------------------------------------------------------------

  datatype ValidationError =
    | MissingFields(fields: seq<string>)
    | RequiredEmpty(line: nat, field: string)
    | NotInteger(line: nat, field: string)
    | NotNumber(line: nat, field: string)
    | NotOneOf(line: nat, field: string, allowed: seq<string>)
    | NoMatch(line: nat, field: string, pattern: Pattern)
    | FileNotFound(path: string)
    | ReadFailed(detail: string)

  /** The line an error is about, for the errors found in a record. */
  function LineOf(e: ValidationError): Option<nat> {
    match e
    case MissingFields(_) => None
    case FileNotFound(_) => None
    case ReadFailed(_) => None
    case _ => Some(e.line)
  }

  /** The text the script collects for each error. */
  function Message(e: ValidationError): string {
    match e
    case MissingFields(fields) => "Missing required fields: " + Join(fields, ", ")
    case RequiredEmpty(line, field) => "Line " + DecimalString(line) + ": Required field '" + field + "' is empty"
    case NotInteger(line, field) => "Line " + DecimalString(line) + ": Field '" + field + "' must be an integer"
    case NotNumber(line, field) => "Line " + DecimalString(line) + ": Field '" + field + "' must be a number"
    case NotOneOf(line, field, allowed) =>
      "Line " + DecimalString(line) + ": Field '" + field + "' must be one of: " + Join(allowed, ", ")
    case NoMatch(line, field, p) =>
      "Line " + DecimalString(line) + ": Field '" + field + "' does not match pattern " + PatternText(p)
    case FileNotFound(path) => "File not found: " + path
    case ReadFailed(detail) => "Error reading file: " + detail
  }

  /** `str(e)` for the TypeError `field not in reader.fieldnames` raises on an empty file. */
  const NoneNotIterable: string := "argument of type 'NoneType' is not iterable"

  // ---------------------------------------------------------------------------
  // The file and its validation (lines 219-284)
  // ---------------------------------------------------------------------------

  /**
   * An input file: absent, failing to open, or opened with its header (`None`
   * for an empty file), the records read, and the exception that stopped the
   * reading early, if any.
   */
  datatype CsvFile =
    | Missing
    | Unreadable(detail: string)
    | Opened(header: Option<seq<string>>, records: seq<seq<string>>, failure: Option<string>)

  /** The position DictReader takes a key's value from: the last column with that name. */
  function LastColumn(header: seq<string>, field: string): (j: nat)
    requires field in header
    ensures j < |header| && header[j] == field
    ensures forall k :: j < k < |header| ==> header[k] != field
  {
    if header[|header| - 1] == field then |header| - 1 else LastColumn(header[..|header| - 1], field)
  }

  /** `row[field]`: a short record's missing values are None, which every check treats as "". */
  function Value(header: seq<string>, cells: seq<string>, field: string): string
    requires field in header
  {
    var j := LastColumn(header, field);
    if j < |cells| then cells[j] else ""
  }

  /** `missing_fields`: the schema's fields absent from the header, optional ones included, in schema order. */
  function AbsentFields(schema: Schema, header: seq<string>): seq<string> {
    if schema == [] then []
    else (if schema[0].0 in header then [] else [schema[0].0]) + AbsentFields(schema[1..], header)
  }

  function HeaderErrors(schema: Schema, header: seq<string>): seq<ValidationError> {
    var missing := AbsentFields(schema, header);
    if missing == [] then [] else [MissingFields(missing)]
  }

  /** The checks of one field of the record on `line` (lines 246-278). */
  function FieldErrors(line: nat, header: seq<string>, cells: seq<string>, field: string, c: Constraint,
                       isFloat: FloatParser): seq<ValidationError>
  {
    if field !in header then []
    else
      var v := Value(header, cells, field);
      (if c.required && v == "" then [RequiredEmpty(line, field)] else []) +
      (if v != "" && c.fieldType.Some? && !TypeOk(c.fieldType.value, v, isFloat) then
         match c.fieldType.value
         case Integer => [NotInteger(line, field)]
         case Decimal => [NotNumber(line, field)]
         case Enum(allowed) => [NotOneOf(line, field, allowed)]
         case Unchecked(_) => []
       else []) +
      (if v != "" && c.pattern.Some? && !Matches(c.pattern.value, v) then [NoMatch(line, field, c.pattern.value)] else [])
  }

  /** The errors of one record: its fields in schema order. */
  function RowErrors(line: nat, header: seq<string>, cells: seq<string>, schema: Schema, isFloat: FloatParser): seq<ValidationError> {
    if schema == [] then []
    else
      var last := schema[|schema| - 1];
      RowErrors(line, header, cells, schema[..|schema| - 1], isFloat) + FieldErrors(line, header, cells, last.0, last.1, isFloat)
  }

  /** The errors of the records in order; the first record is on line 2. */
  function RecordsErrors(header: seq<string>, records: seq<seq<string>>, schema: Schema, isFloat: FloatParser): seq<ValidationError> {
    if records == [] then []
    else RecordsErrors(header, records[..|records| - 1], schema, isFloat) + RowErrors(|records| + 1, header, records[|records| - 1], schema, isFloat)
  }

  /** `validate_csv_data(csv_file, schema)`. */
  function CsvErrors(path: string, file: CsvFile, schema: Schema, isFloat: FloatParser): seq<ValidationError> {
    match file
    case Missing => [FileNotFound(path)]
    case Unreadable(detail) => [ReadFailed(detail)]
    case Opened(header, records, failure) =>
      if header.None? && schema != [] then [ReadFailed(NoneNotIterable)]
      else
        var h := header.GetOr([]);
        HeaderErrors(schema, h) + RecordsErrors(h, records, schema, isFloat) +
        (if failure.Some? then [ReadFailed(failure.value)] else [])
  }

  /** The checks of lines 246-278 on one field. */
  method CheckField(line: nat, header: seq<string>, cells: seq<string>, field: string, c: Constraint,
                    isFloat: FloatParser) returns (errors: seq<ValidationError>)
    ensures errors == FieldErrors(line, header, cells, field, c, isFloat)
  {
    errors := [];
    if field !in header {
      return;
    }
    var value := Value(header, cells, field);
    if c.required && value == "" {
      errors := errors + [RequiredEmpty(line, field)];
    }
    if value != "" && c.fieldType.Some? {
      match c.fieldType.value {
        case Integer =>
          if !AllDigits(value) {
            errors := errors + [NotInteger(line, field)];
          }
        case Decimal =>
          if !isFloat(value) {
            errors := errors + [NotNumber(line, field)];
          }
        case Enum(allowed) =>
          if value !in allowed {
            errors := errors + [NotOneOf(line, field, allowed)];
          }
        case Unchecked(_) =>
      }
    }
    if value != "" && c.pattern.Some? && !Matches(c.pattern.value, value) {
      errors := errors + [NoMatch(line, field, c.pattern.value)];
    }
  }

  /** The loop of line 245 over the schema's fields. */
  method CheckRow(line: nat, header: seq<string>, cells: seq<string>, schema: Schema, isFloat: FloatParser)
    returns (errors: seq<ValidationError>)
    ensures errors == RowErrors(line, header, cells, schema, isFloat)
  {
    errors := [];
    var i := 0;
    while i < |schema|
      invariant 0 <= i <= |schema|
      invariant errors == RowErrors(line, header, cells, schema[..i], isFloat)
    {
      assert schema[..i + 1][..i] == schema[..i];
      var fieldErrors := CheckField(line, header, cells, schema[i].0, schema[i].1, isFloat);
      errors := errors + fieldErrors;
      i := i + 1;
    }
    assert schema[..i] == schema;
  }

  /** The loop of line 244 over the records. */
  method CheckRecords(header: seq<string>, records: seq<seq<string>>, schema: Schema, isFloat: FloatParser)
    returns (errors: seq<ValidationError>)
    ensures errors == RecordsErrors(header, records, schema, isFloat)
  {
    errors := [];
    var k := 0;
    while k < |records|
      invariant 0 <= k <= |records|
      invariant errors == RecordsErrors(header, records[..k], schema, isFloat)
    {
      assert records[..k + 1][..k] == records[..k];
      var rowErrors := CheckRow(k + 2, header, records[k], schema, isFloat);
      errors := errors + rowErrors;
      k := k + 1;
    }
    assert records[..k] == records;
  }

  /** `validate_csv_data`. */
  method ValidateCsvData(path: string, file: CsvFile, schema: Schema, isFloat: FloatParser)
    returns (errors: seq<ValidationError>)
    ensures errors == CsvErrors(path, file, schema, isFloat)
  {
    match file {
      case Missing =>
        errors := [FileNotFound(path)];
      case Unreadable(detail) =>
        errors := [ReadFailed(detail)];
      case Opened(header, records, failure) =>
        if header.None? && schema != [] {
          return [ReadFailed(NoneNotIterable)];
        }
        var h := header.GetOr([]);
        errors := [];
        var missing := AbsentFields(schema, h);
        if missing != [] {
          errors := errors + [MissingFields(missing)];
        }
        assert errors == HeaderErrors(schema, h);
        var recordErrors := CheckRecords(h, records, schema, isFloat);
        errors := errors + recordErrors;
        if failure.Some? {
          errors := errors + [ReadFailed(failure.value)];
        }
    }
  }

  // ---------------------------------------------------------------------------
  // Properties of the validation
  // ---------------------------------------------------------------------------

  /** The header error lists exactly the schema's fields the header lacks, in schema order, optional ones included. */
  lemma {:induction false} AbsentFieldsSpec(schema: Schema, header: seq<string>)
    ensures forall f :: f in AbsentFields(schema, header) <==> f !in header && exists i :: 0 <= i < |schema| && schema[i].0 == f
  {
    if schema != [] {
      AbsentFieldsSpec(schema[1..], header);
      forall f | f !in header && (exists i :: 0 <= i < |schema| && schema[i].0 == f)
        ensures f in AbsentFields(schema, header)
      {
        var i :| 0 <= i < |schema| && schema[i].0 == f;
        if i > 0 {
          assert schema[1..][i - 1].0 == f;
        }
      }
      forall f | f in AbsentFields(schema[1..], header)
        ensures exists i :: 0 <= i < |schema| && schema[i].0 == f
      {
        var i :| 0 <= i < |schema[1..]| && schema[1..][i].0 == f;
        assert schema[i + 1].0 == f;
      }
    }
  }

  /** Every error is about the record on `line`. */
  predicate TaggedWith(r: seq<ValidationError>, line: nat) {
    forall i :: 0 <= i < |r| ==> LineOf(r[i]) == Some(line)
  }

  lemma AppendTagged(a: seq<ValidationError>, b: seq<ValidationError>, line: nat)
    requires TaggedWith(a, line) && forall e :: e in b ==> LineOf(e) == Some(line)
    ensures TaggedWith(a + b, line)
  {
    forall i | 0 <= i < |a + b| ensures LineOf((a + b)[i]) == Some(line) {
      if i >= |a| {
        assert (a + b)[i] == b[i - |a|];
      }
    }
  }

  /** Every error of a record is tagged with that record's line. */
  lemma {:induction false} RowErrorsTagged(line: nat, header: seq<string>, cells: seq<string>, schema: Schema, isFloat: FloatParser)
    ensures TaggedWith(RowErrors(line, header, cells, schema, isFloat), line)
  {
    if schema != [] {
      var last := schema[|schema| - 1];
      RowErrorsTagged(line, header, cells, schema[..|schema| - 1], isFloat);
      FieldErrorsTagged(line, header, cells, last.0, last.1, isFloat);
      AppendTagged(RowErrors(line, header, cells, schema[..|schema| - 1], isFloat),
                   FieldErrors(line, header, cells, last.0, last.1, isFloat), line);
    }
  }

  lemma FieldErrorsTagged(line: nat, header: seq<string>, cells: seq<string>, field: string, c: Constraint, isFloat: FloatParser)
    ensures forall e :: e in FieldErrors(line, header, cells, field, c, isFloat) ==> LineOf(e) == Some(line)
  {
  }

  /** Every error is about a record on a line from 2 to `last`. */
  predicate LinesWithin(r: seq<ValidationError>, last: nat) {
    forall i :: 0 <= i < |r| ==> LineOf(r[i]).Some? && 2 <= LineOf(r[i]).value <= last
  }

  /** The errors come in line order. */
  predicate LinesOrdered(r: seq<ValidationError>) {
    forall i, j :: 0 <= i < j < |r| && LineOf(r[i]).Some? && LineOf(r[j]).Some? ==> LineOf(r[i]).value <= LineOf(r[j]).value
  }

  /** Appending the errors of the next line keeps the numbering and the order. */
  lemma AppendNextLine(a: seq<ValidationError>, b: seq<ValidationError>, line: nat)
    requires line >= 2 && LinesWithin(a, line - 1) && LinesOrdered(a)
    requires forall i :: 0 <= i < |b| ==> LineOf(b[i]) == Some(line)
    ensures LinesWithin(a + b, line) && LinesOrdered(a + b)
  {
    var r := a + b;
    forall i | 0 <= i < |r| ensures LineOf(r[i]).Some? && 2 <= LineOf(r[i]).value <= line {
      if i >= |a| {
        assert r[i] == b[i - |a|];
      } else {
        assert r[i] == a[i];
      }
    }
    forall i, j | 0 <= i < j < |r| && LineOf(r[i]).Some? && LineOf(r[j]).Some?
      ensures LineOf(r[i]).value <= LineOf(r[j]).value
    {
      if j < |a| {
        assert r[i] == a[i] && r[j] == a[j];
      } else if i < |a| {
        assert r[i] == a[i] && r[j] == b[j - |a|];
      } else {
        assert r[i] == b[i - |a|] && r[j] == b[j - |a|];
      }
    }
  }

  /**
   * The records' errors are numbered from line 2, one line per record, and
   * come in line order.
   */
  lemma {:induction false} RecordsNumbered(header: seq<string>, records: seq<seq<string>>, schema: Schema, isFloat: FloatParser)
    ensures LinesWithin(RecordsErrors(header, records, schema, isFloat), |records| + 1)
    ensures LinesOrdered(RecordsErrors(header, records, schema, isFloat))
  {
    if records != [] {
      var init := records[..|records| - 1];
      RecordsNumbered(header, init, schema, isFloat);
      RowErrorsTagged(|records| + 1, header, records[|records| - 1], schema, isFloat);
      AppendNextLine(RecordsErrors(header, init, schema, isFloat),
                     RowErrors(|records| + 1, header, records[|records| - 1], schema, isFloat), |records| + 1);
    }
  }

  /** A missing file gives exactly one error. */
  lemma MissingFileOneError(path: string, schema: Schema, isFloat: FloatParser)
    ensures CsvErrors(path, Missing, schema, isFloat) == [FileNotFound(path)]
    ensures Message(CsvErrors(path, Missing, schema, isFloat)[0]) == "File not found: " + path
  {
  }

  /** An empty value raises only the required-field error, and only for a required field. */
  lemma EmptySkipsChecks(line: nat, header: seq<string>, cells: seq<string>, field: string, c: Constraint, isFloat: FloatParser)
    requires field in header && Value(header, cells, field) == ""
    ensures FieldErrors(line, header, cells, field, c, isFloat) == if c.required then [RequiredEmpty(line, field)] else []
  {
  }

  /** A non-empty value outside an enum's allowed list raises exactly one "must be one of" error. */
  lemma EnumOneError(line: nat, header: seq<string>, cells: seq<string>, field: string, allowed: seq<string>,
                     required: bool, isFloat: FloatParser)
    requires field in header && Value(header, cells, field) != ""
    ensures var errs := FieldErrors(line, header, cells, field, Constraint(required, Some(Enum(allowed)), None), isFloat);
            errs == if Value(header, cells, field) in allowed then [] else [NotOneOf(line, field, allowed)]
  {
  }

  /** A field passes its checks exactly when its value satisfies its constraint. */
  lemma FieldErrorsNone(line: nat, header: seq<string>, cells: seq<string>, field: string, c: Constraint, isFloat: FloatParser)
    requires field in header
    ensures FieldErrors(line, header, cells, field, c, isFloat) == [] <==> Satisfies(c, Value(header, cells, field), isFloat)
  {
    var v := Value(header, cells, field);
    if v != "" && c.fieldType.Some? && !TypeOk(c.fieldType.value, v, isFloat) {
      match c.fieldType.value
      case Integer =>
      case Decimal =>
      case Enum(_) =>
      case Unchecked(_) =>
    }
  }

  /** Each schema field the header has satisfies its constraint in this record. */
  predicate RowConforms(header: seq<string>, cells: seq<string>, schema: Schema, isFloat: FloatParser) {
    forall i :: 0 <= i < |schema| && schema[i].0 in header ==> Satisfies(schema[i].1, Value(header, cells, schema[i].0), isFloat)
  }

  /** A record passes exactly when each schema field in the header satisfies its constraint. */
  lemma {:induction false} RowErrorsNone(line: nat, header: seq<string>, cells: seq<string>, schema: Schema, isFloat: FloatParser)
    ensures RowErrors(line, header, cells, schema, isFloat) == [] <==> RowConforms(header, cells, schema, isFloat)
  {
    if schema != [] {
      var n := |schema| - 1;
      var init := schema[..n];
      var last := schema[n];
      RowErrorsNone(line, header, cells, init, isFloat);
      var b := FieldErrors(line, header, cells, last.0, last.1, isFloat);
      assert RowErrors(line, header, cells, schema, isFloat) == RowErrors(line, header, cells, init, isFloat) + b;
      assert b == [] <==> (last.0 in header ==> Satisfies(last.1, Value(header, cells, last.0), isFloat)) by {
        if last.0 in header {
          FieldErrorsNone(line, header, cells, last.0, last.1, isFloat);
        }
      }
      forall i | 0 <= i < n ensures init[i] == schema[i] { }
    }
  }

  /** Each record passes its checks. */
  predicate EachRowPasses(header: seq<string>, records: seq<seq<string>>, schema: Schema, isFloat: FloatParser) {
    forall k :: 0 <= k < |records| ==> RowErrors(k + 2, header, records[k], schema, isFloat) == []
  }

  /** All records pass exactly when each of them does. */
  lemma {:induction false} RecordsErrorsNone(header: seq<string>, records: seq<seq<string>>, schema: Schema, isFloat: FloatParser)
    ensures RecordsErrors(header, records, schema, isFloat) == [] <==> EachRowPasses(header, records, schema, isFloat)
  {
    if records != [] {
      var n := |records| - 1;
      var init := records[..n];
      RecordsErrorsNone(header, init, schema, isFloat);
      var a := RecordsErrors(header, init, schema, isFloat);
      var b := RowErrors(n + 2, header, records[n], schema, isFloat);
      assert RecordsErrors(header, records, schema, isFloat) == a + b;
      if a == [] && b == [] {
        forall k | 0 <= k < |records|
          ensures RowErrors(k + 2, header, records[k], schema, isFloat) == []
        {
          if k < n {
            assert init[k] == records[k];
          }
        }
      }
      if EachRowPasses(header, records, schema, isFloat) {
        forall k | 0 <= k < n
          ensures RowErrors(k + 2, header, init[k], schema, isFloat) == []
        {
          assert init[k] == records[k];
        }
        assert b == [];
      }
    }
  }

  /** Conforming record values: each schema field the header has satisfies its constraint. */
  predicate Conforms(header: seq<string>, records: seq<seq<string>>, schema: Schema, isFloat: FloatParser) {
    forall k, i :: 0 <= k < |records| && 0 <= i < |schema| && schema[i].0 in header ==>
      Satisfies(schema[i].1, Value(header, records[k], schema[i].0), isFloat)
  }

  /**
   * A fully read file yields no errors exactly when its header has every
   * schema field and every record satisfies every constraint.
   */
  lemma ValidIffConforming(path: string, header: seq<string>, records: seq<seq<string>>, schema: Schema, isFloat: FloatParser)
    ensures CsvErrors(path, Opened(Some(header), records, None), schema, isFloat) == [] <==>
            AbsentFields(schema, header) == [] && Conforms(header, records, schema, isFloat)
  {
    RecordsErrorsNone(header, records, schema, isFloat);
    forall k | 0 <= k < |records| {
      RowErrorsNone(k + 2, header, records[k], schema, isFloat);
    }
  }

  /** The `$` of a pattern accepts one trailing newline; lower-case bases are rejected. */
  lemma PatternExamples()
    ensures Matches(RsId, "rs1805007") && Matches(RsId, "rs12\n") && !Matches(RsId, "rs") && !Matches(RsId, "RS12")
    ensures Matches(Base, "T") && !Matches(Base, "t") && !Matches(Base, "AT")
  {
    assert "rs12\n"[..4] == "rs12";
  }

  // ---------------------------------------------------------------------------
  // The command line (lines 286-334)
  // ---------------------------------------------------------------------------

  /** `os.path.basename`: what follows the last '/'. */
  function Basename(path: string): (b: string)
    ensures '/' !in b
  {
    if path == [] then []
    else if path[|path| - 1] == '/' then []
    else Basename(path[..|path| - 1]) + [path[|path| - 1]]
  }

  /** The auto-detection of lines 294-317. */
  function Detect(basename: string): (r: Option<string>)
    ensures r.Some? ==> r.value in Schemas
  {
    if StartsWith(basename, "snp") && '_' !in basename then Some("snps")
    else if StartsWith(basename, "characteristic") && '_' !in basename then Some("characteristics")
    else if basename == "ingredients.csv" then Some("ingredients")
    else if basename == "ingredient_cautions.csv" then Some("ingredient_cautions")
    else if basename == "skin_conditions.csv" then Some("skin_conditions")
    else if basename == "snp_characteristic.csv" then Some("snp_characteristic")
    else if basename == "snp_ingredient.csv" then Some("snp_ingredient")
    else if basename == "snp_ingredientcaution.csv" then Some("snp_ingredientcaution")
    else if basename == "characteristic_condition.csv" then Some("characteristic_condition")
    else if basename == "condition_ingredient.csv" then Some("condition_ingredient")
    else None
  }

  /** The file names lines 299-314 compare against. */
  const ExactNames: set<string> := {"ingredients.csv", "ingredient_cautions.csv", "skin_conditions.csv", "snp_characteristic.csv",
                                    "snp_ingredient.csv", "snp_ingredientcaution.csv", "characteristic_condition.csv",
                                    "condition_ingredient.csv"}

  datatype RunOutcome =
    | Undetected(basename: string)
    | UnknownSchema(name: string)
    | Invalid(schema: string, errors: seq<ValidationError>)
    | Valid(schema: string)

  /** `sys.exit(1)` on every path but success. */
  function ExitStatus(o: RunOutcome): int {
    if o.Valid? then 0 else 1
  }

  /** `main()`, with `--schema` given as `schemaArg` (an empty value counts as absent). */
  function Run(path: string, schemaArg: Option<string>, file: CsvFile, isFloat: FloatParser): RunOutcome {
    var given := if schemaArg.Some? && schemaArg.value != "" then schemaArg else None;
    var chosen := if given.Some? then given else Detect(Basename(path));
    if chosen.None? then Undetected(Basename(path))
    else if chosen.value !in Schemas then UnknownSchema(chosen.value)
    else
      var errors := CsvErrors(path, file, Schemas[chosen.value], isFloat);
      if errors == [] then Valid(chosen.value) else Invalid(chosen.value, errors)
  }

  /** Each schema's own file name, `<schema>.csv`, is detected as that schema. */
  /** Each schema's own file name, `<schema>.csv`, is detected as that schema (this group and the next two). */
  lemma SnpNamesDetected()
    ensures Detect("snps.csv") == Some("snps")
    ensures Detect("snp_characteristic.csv") == Some("snp_characteristic")
    ensures Detect("snp_ingredient.csv") == Some("snp_ingredient")
    ensures Detect("snp_ingredientcaution.csv") == Some("snp_ingredientcaution")
  {
    assert "snp_characteristic.csv"[3] == '_';
    assert "snp_ingredient.csv"[3] == '_';
    assert "snp_ingredientcaution.csv"[3] == '_';
  }

  lemma CharacteristicNamesDetected()
    ensures Detect("characteristics.csv") == Some("characteristics")
    ensures Detect("characteristic_condition.csv") == Some("characteristic_condition")
  {
    var b := "characteristics.csv";
    assert b[0] == 'c' && "snp"[0] == 's';
    assert b[..14] == "characteristic";
    assert forall i :: 0 <= i < |b| ==> b[i] != '_';
    assert "characteristic_condition.csv"[14] == '_';
  }

  lemma IngredientNamesDetected()
    ensures Detect("ingredients.csv") == Some("ingredients")
    ensures Detect("ingredient_cautions.csv") == Some("ingredient_cautions")
  {
    assert "ingredients.csv"[0] == 'i' && "ingredient_cautions.csv"[0] == 'i';
    assert "snp"[0] == 's' && "characteristic"[0] == 'c';
  }

  lemma SkinConditionsDetected()
    ensures Detect("skin_conditions.csv") == Some("skin_conditions")
  {
    assert "skin_conditions.csv"[1] == 'k' && "snp"[1] == 'n';
    assert "skin_conditions.csv"[0] == 's' && "characteristic"[0] == 'c';
  }

  lemma ConditionIngredientDetected()
    ensures Detect("condition_ingredient.csv") == Some("condition_ingredient")
  {
    assert "condition_ingredient.csv"[0] == 'c' && "condition_ingredient.csv"[1] == 'o';
    assert "snp"[0] == 's' && "characteristic"[1] == 'h';
  }

  /** Names starting with "snp" and free of '_' go to the snps schema; names not in the list are refused. */
  lemma DetectionRules(basename: string)
    ensures StartsWith(basename, "snp") && '_' !in basename ==> Detect(basename) == Some("snps")
    ensures (!StartsWith(basename, "snp") && !StartsWith(basename, "characteristic") &&
             basename !in ExactNames) ==> Detect(basename).None?
  {
  }

  /** The command exits 0 exactly when a schema is chosen and the file has no errors. */
  lemma ExitZeroIffValid(path: string, schemaArg: Option<string>, file: CsvFile, isFloat: FloatParser)
    ensures var o := Run(path, schemaArg, file, isFloat);
            ExitStatus(o) == 0 <==> o.Valid? && o.schema in Schemas && CsvErrors(path, file, Schemas[o.schema], isFloat) == []
  {
  }
}
