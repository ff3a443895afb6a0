/**
 * An abstract JSON value and the few JavaScript operations the modelled code
 * applies to one: truthiness, property access and conversion to a string in a
 * template literal. `JSON.parse` and `JSON.stringify` themselves are not
 * modelled; they reach the model as the two functions of a `JsonCodec`.
 */
module Json {
  import opened Wrappers
  import opened Text

  /** JSON numbers are limited to integers in this model. */
  datatype Json =
    | JNull
    | JBool(b: bool)
    | JNum(n: int)
    | JStr(s: string)
    | JArr(items: seq<Json>)
    | JObj(fields: seq<(string, Json)>)

  /**
   * `JSON.parse` (a failure carries the `SyntaxError` message) and
   * `JSON.stringify`, both uninterpreted.
   */
  datatype JsonCodec = JsonCodec(parse: string -> Result<Json>, stringify: Json -> string)

  const EmptyObject: Json := JObj([])

  /** JavaScript truthiness of a parsed value. */
  predicate Truthy(j: Json) {
    match j
    case JNull => false
    case JBool(b) => b
    case JNum(n) => n != 0
    case JStr(s) => s != ""
    case JArr(_) => true
    case JObj(_) => true
  }

  /** `o[key]` on an object; the last duplicate key wins, as with `JSON.parse`. */
  function Member(fields: seq<(string, Json)>, key: string): (r: Option<Json>)
    ensures r.Some? ==> (key, r.value) in fields
    ensures r.None? ==> forall i :: 0 <= i < |fields| ==> fields[i].0 != key
  {
    if fields == [] then None
    else if fields[|fields| - 1].0 == key then Some(fields[|fields| - 1].1)
    else Member(fields[..|fields| - 1], key)
  }

  /** Property access on any value: only objects have members. */
  function Property(j: Json, key: string): Option<Json> {
    if j.JObj? then Member(j.fields, key) else None
  }

  function IntToString(n: int): (r: string)
    ensures |r| >= 1
  {
    if n < 0 then "-" + NatToString(-n) else NatToString(n)
  }

  /** `String(v)`, as a template literal renders a value. */
  function JsString(j: Json): string
    decreases j
  {
    match j
    case JNull => "null"
    case JBool(b) => if b then "true" else "false"
    case JNum(n) => IntToString(n)
    case JStr(s) => s
    case JArr(items) =>
      Join(seq(|items|, i requires 0 <= i < |items| =>
        if items[i].JNull? then "" else JsString(items[i])), ",")
    case JObj(_) => "[object Object]"
  }
}
