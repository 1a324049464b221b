/** Values shared by both request handlers: optional request fields, results
    of fallible steps, and the JSON-shaped values that the document store and
    the OpenShot API exchange. */
module Values {

  /** A request field that may be absent (Python's `dict.get` returning None). */
  datatype Option<+T> = None | Some(value: T) {
    function GetOr(default: T): T {
      if Some? then value else default
    }
  }

  /** The outcome of a step that either yields a value or raises. */
  datatype Result<+T, +E> = Ok(value: T) | Err(error: E)

  /** A JSON value as it is stored in a document or returned by an HTTP API.
      Python floats are carried as mathematical reals. */
  datatype Value =
    | Null
    | Bool(b: bool)
    | Int(i: int)
    | Real(r: real)
    | Str(s: string)
    | List(items: seq<Value>)
    | Object(fields: map<string, Value>)

  /** Python truthiness of an optional string field: None and "" are falsy. */
  predicate Present(s: Option<string>) {
    s.Some? && s.value != ""
  }

  /** `s` starts with `prefix`. */
  predicate StartsWith(s: string, prefix: string) {
    |prefix| <= |s| && s[..|prefix|] == prefix
  }
}
