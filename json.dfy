/** JSON values as the harness and the implementations under test exchange
    them, and the two bits of Python value semantics that the command layer
    relies on: truthiness, and reading a key of an object as a flag. */
module Json {

  datatype Option<+T> = None | Some(value: T)

  /** A decoded JSON document. Numbers are integers: the protocol fields the
      command layer reads (seq, version) are integers, and floats are not modelled. */
  datatype Json =
    | JNull
    | JBool(b: bool)
    | JInt(i: int)
    | JString(s: string)
    | JArray(items: seq<Json>)
    | JObject(fields: map<string, Json>)

  /** Python truthiness of a decoded JSON value, as used by `if x:` and `not x`:
      null, false, 0, "", [] and {} are false, everything else is true. */
  predicate Truthy(j: Json) {
    match j
    case JNull => false
    case JBool(b) => b
    case JInt(i) => i != 0
    case JString(s) => s != ""
    case JArray(items) => items != []
    case JObject(fields) => fields != map[]
  }

  /** Whether `key` is present in `d` with a truthy value: how the command layer reads
      `d.pop(key, False)` and `d.get(key)` in a condition. */
  predicate Flag(d: map<string, Json>, key: string) {
    key in d && Truthy(d[key])
  }
}
