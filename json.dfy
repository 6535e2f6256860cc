/** Untyped values as `encoding/json` decodes them into `interface{}`, and the
    library behaviours the evaluators rely on but whose internals are not modelled. */
module JsonValues {
  import opened Wrappers

  /** JSON numbers decode to float64; the model uses reals. */
  datatype Json =
    | JNull
    | JBool(b: bool)
    | JNum(n: real)
    | JStr(s: string)
    | JArr(items: seq<Json>)
    | JObj(fields: map<string, Json>)

  /** Library routines taken as parameters: `json.Unmarshal` into `interface{}`,
      `fmt.Sprintf("%v", v)` and `fmt.Sscanf(s, "%f", &f)`. Every property proved
      about code that uses them holds whatever these functions are. */
  datatype Stdlib = Stdlib(
    decode: string -> Option<Json>,
    formatV: Json -> string,
    scanFloat: string -> Option<real>)

  /** A JSON text that decodes to a string is longer than that string (it has
      at least its two quotes); this is what makes re-parsing a decoded string
      terminate. */
  ghost predicate DecodeShrinksStrings(decode: string -> Option<Json>)
  {
    forall text :: decode(text).Some? && decode(text).value.JStr? ==> |decode(text).value.s| < |text|
  }

  /** `m[key].(string)` with the ok flag folded into an Option. */
  function StringAt(m: map<string, Json>, key: string): (r: Option<string>)
    ensures r.Some? <==> key in m && m[key].JStr?
    ensures r.Some? ==> m[key] == JStr(r.value)
  {
    if key in m && m[key].JStr? then Some(m[key].s) else None
  }

  /** `m[key].(float64)`. */
  function NumberAt(m: map<string, Json>, key: string): (r: Option<real>)
    ensures r.Some? <==> key in m && m[key].JNum?
    ensures r.Some? ==> m[key] == JNum(r.value)
  {
    if key in m && m[key].JNum? then Some(m[key].n) else None
  }

  /** `m[key].(map[string]interface{})`. */
  function ObjectAt(m: map<string, Json>, key: string): (r: Option<map<string, Json>>)
    ensures r.Some? <==> key in m && m[key].JObj?
    ensures r.Some? ==> m[key] == JObj(r.value)
  {
    if key in m && m[key].JObj? then Some(m[key].fields) else None
  }

  /** `m[key].([]interface{})`. */
  function ArrayAt(m: map<string, Json>, key: string): (r: Option<seq<Json>>)
    ensures r.Some? <==> key in m && m[key].JArr?
    ensures r.Some? ==> m[key] == JArr(r.value)
  {
    if key in m && m[key].JArr? then Some(m[key].items) else None
  }

  /** Go's conversion `int(f)` of a float64: truncation toward zero. */
  function TruncateToInt(x: real): int
  {
    if x >= 0.0 then x.Floor else -((-x).Floor)
  }

  /** Truncation drops the fraction and keeps the sign. */
  lemma TruncateToIntBounds(x: real)
    ensures x >= 0.0 ==> 0 <= TruncateToInt(x) && TruncateToInt(x) as real <= x < TruncateToInt(x) as real + 1.0
    ensures x < 0.0 ==> TruncateToInt(x) <= 0 && TruncateToInt(x) as real - 1.0 < x <= TruncateToInt(x) as real
  {
  }

  /** One line of a JSONL file: blank, not a JSON object (with the decoder's
      message), or the decoded object. */
  datatype Row = Blank | Malformed(error: string) | Decoded(item: map<string, Json>)

  /** A JSONL file that could be opened: its lines, and the scanner's error if
      reading stopped early. */
  datatype LineFile = LineFile(rows: seq<Row>, readError: Option<string>)

  /** The decoded objects of the lines, in order; blank and malformed lines are skipped. */
  function Items(rows: seq<Row>): seq<map<string, Json>>
    decreases |rows|
  {
    if rows == [] then []
    else if rows[0].Decoded? then [rows[0].item] + Items(rows[1..])
    else Items(rows[1..])
  }

  /** The first key of `keys` whose value is a string. */
  function FirstString(item: map<string, Json>, keys: seq<string>): Option<string>
  {
    if keys == [] then None
    else if StringAt(item, keys[0]).Some? then StringAt(item, keys[0])
    else FirstString(item, keys[1..])
  }
}
