/** JSON values as `JSON.parse` returns them, JavaScript truthiness over them, and the outcome
    of `JSON.parse`, which this model treats as an uninterpreted oracle. */
module Json {

  import opened Seqs

  /** A parsed JSON value. Objects are maps because `JSON.parse` keeps only the last of
      duplicated keys. Numbers are modelled as reals: a literal
      too large for a double, which `JSON.parse` turns into `Infinity`, is not captured. */
  datatype Json =
    | JNull
    | JBool(b: bool)
    | JNumber(n: real)
    | JString(s: string)
    | JArray(items: seq<Json>)
    | JObject(fields: map<string, Json>)

  /** What `JSON.parse(text)` does: returns a value, or throws a SyntaxError with a message. */
  datatype ParseOutcome = Parsed(value: Json) | SyntaxError(message: string)

  /** JavaScript's `ToBoolean`: `null`, `false`, `0`, and `""` are falsy; arrays and objects,
      even empty ones, are truthy. */
  predicate Truthy(v: Json) {
    match v
    case JNull => false
    case JBool(b) => b
    case JNumber(n) => n != 0.0
    case JString(s) => s != ""
    case JArray(_) => true
    case JObject(_) => true
  }

  /** Property access `v.key` (and `v?.key`): only objects have JSON-provided keys;
      on any other value the property is `undefined`, modelled as `None`. */
  function Field(v: Json, key: string): Option<Json> {
    if v.JObject? && key in v.fields then Some(v.fields[key]) else None
  }
}
