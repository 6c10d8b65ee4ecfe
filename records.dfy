/**
 * The JSON records both tools consume, the failures they raise, and the
 * extraction of one numeric field from every record
 * (`[record[key] for record in records]` followed by numpy's conversion
 * of the list to numbers).
 */
module Records {
  import opened Results

  /** A JSON field value: a number, or text such as an ISO date. */
  datatype Value = Number(x: real) | Text(text: string)

  /** One JSON object, e.g. `{"date": "2024-01-01", "demand": 10}`. */
  type Record = map<string, Value>

  /** The kinds of exception the core raises. */
  datatype Error =
    | NoHistoricalData        // the upstream API returned an empty list
    | MissingField(key: string) // a record lacks `key` (a KeyError)
    | NotNumeric(key: string)   // numpy cannot treat a `key` value as a number
    | NoDemandData            // the extracted demand list is empty

  /** `[record[key] for record in records]`: `None` when some record lacks `key`. */
  function Lookup(records: seq<Record>, key: string): (r: Option<seq<Value>>)
    ensures r.Some? <==> forall i :: 0 <= i < |records| ==> key in records[i]
    ensures r.Some? ==> |r.value| == |records|
    ensures r.Some? ==> forall i :: 0 <= i < |records| ==> r.value[i] == records[i][key]
  {
    if records == [] then Some([])
    else if key !in records[0] then None
    else
      match Lookup(records[1..], key)
      case None => None
      case Some(rest) => Some([records[0][key]] + rest)
  }

  /** The values as numbers: `None` when some value is not a number. */
  function Numbers(values: seq<Value>): (r: Option<seq<real>>)
    ensures r.Some? <==> forall i :: 0 <= i < |values| ==> values[i].Number?
    ensures r.Some? ==> |r.value| == |values|
    ensures r.Some? ==> forall i :: 0 <= i < |values| ==> r.value[i] == values[i].x
  {
    if values == [] then Some([])
    else if values[0].Text? then None
    else
      match Numbers(values[1..])
      case None => None
      case Some(rest) => Some([values[0].x] + rest)
  }

  /** Every record has a numeric `key` field. */
  predicate HasNumber(records: seq<Record>, key: string)
  {
    forall i :: 0 <= i < |records| ==> key in records[i] && records[i][key].Number?
  }

  /**
   * The `key` field of every record, as numbers. A missing field is
   * reported before a non-numeric one, because the list comprehension
   * runs to completion before numpy looks at the values.
   */
  function Field(records: seq<Record>, key: string): (r: Result<seq<real>, Error>)
    ensures r.Success? <==> HasNumber(records, key)
    ensures r.Success? ==> |r.value| == |records|
    ensures r.Success? ==> forall i :: 0 <= i < |records| ==> r.value[i] == records[i][key].x
    ensures r.Failure? ==> (r.error == MissingField(key) <==> exists i :: 0 <= i < |records| && key !in records[i])
    ensures r.Failure? ==> r.error in {MissingField(key), NotNumeric(key)}
  {
    match Lookup(records, key)
    case None => Failure(MissingField(key))
    case Some(values) =>
      match Numbers(values)
      case None => Failure(NotNumeric(key))
      case Some(xs) => Success(xs)
  }
}
