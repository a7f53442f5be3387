/** JSON values standing for the `unknown` values the source passes around
    (tool arguments, tool results, JSON schemas). Serialisation is not modelled: operations that
    call `JSON.stringify` take it as a parameter `stringify`, whose `None`
    stands for a throw. */
module Json {
  import opened Wrappers

  datatype Json =
    | JNull
    | JBool(b: bool)
    | JNumber(n: real)
    | JString(s: string)
    | JArray(items: seq<Json>)
    | JObject(fields: map<string, Json>)

  /** `JSON.stringify`, as its callers see it: a string, or None when it throws. */
  type Stringify = Json -> Option<string>

  /** `try { JSON.stringify(v) } catch { "{}" }`. */
  function StringifyOrEmptyObject(stringify: Stringify, v: Json): (s: string)
    ensures stringify(v).Some? ==> s == stringify(v).value
    ensures stringify(v).None? ==> s == "{}"
  {
    Coalesce(stringify(v), "{}")
  }
}
