// The rows Python's `csv.DictReader` yields, as the seeding code consumes them:
// the header's column names paired with the row's values, in header order. A
// row shorter than the header gives `None` for the missing columns; the values
// of a row longer than the header are collected in one list stored under the
// key `None`. Splitting the text into fields is the library's and is not part
// of this model.
module CsvRows {
  import opened Wrappers

  datatype DictRow = DictRow(fields: seq<(string, Option<string>)>, extras: Option<seq<string>>)

  /** `row[key]`: `None` is the `KeyError` of a column the header lacks. */
  function Get(row: DictRow, key: string): (r: Option<Option<string>>)
    ensures r.None? <==> forall i :: 0 <= i < |row.fields| ==> row.fields[i].0 != key
    ensures r.Some? ==> (key, r.value) in row.fields
  {
    GetFrom(row.fields, key)
  }

  function GetFrom(fields: seq<(string, Option<string>)>, key: string): (r: Option<Option<string>>)
    ensures r.None? <==> forall i :: 0 <= i < |fields| ==> fields[i].0 != key
    ensures r.Some? ==> (key, r.value) in fields
  {
    if fields == [] then None
    else if fields[0].0 == key then Some(fields[0].1)
    else GetFrom(fields[1..], key)
  }

  /** The value of a column as a database column receives it: missing and `None` are both NULL. */
  function Value(row: DictRow, key: string): Option<string> {
    var v := Get(row, key);
    if v.Some? then v.value else None
  }
}
