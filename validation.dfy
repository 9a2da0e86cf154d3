/** The field-validation ternaries that lib/handlers.js and lib/workers.js
    repeat for every handler and for the worker's re-validation, each
    written once. A rejected field comes back as the empty value the source
    substitutes (`''`, `[]` or `0`; the worker's `false` is equally falsy). */
module Validation {
  import opened JsValues
  import opened JsStrings

  const Protocols: seq<string> := ["https", "http"]
  const Methods: seq<string> := ["post", "get", "put", "delete"]

  /** `typeof v === 'string' ? v.trim() : ''` */
  function TrimmedString(v: Value): (r: string)
    ensures v.Str? ==> r == Trim(v.s)
    ensures !v.Str? ==> r == ""
    ensures r != [] ==> !IsJsSpace(r[0]) && !IsJsSpace(r[|r| - 1])
  {
    if v.Str? then Trim(v.s) else ""
  }

  /** `typeof v === 'string' && v.trim().length === n ? v.trim() : ''` */
  function TrimmedOfLength(v: Value, n: nat): (r: string)
    requires n > 0
    ensures r != "" <==> v.Str? && |Trim(v.s)| == n
    ensures r != "" ==> r == Trim(v.s) && |r| == n
    ensures r == "" || |r| == n
  {
    if v.Str? && |Trim(v.s)| == n then Trim(v.s) else ""
  }

  /** `typeof v === 'string' && options.indexOf(v) > -1 ? v : ''` (no trim). */
  function OneOf(v: Value, options: seq<string>): (r: string)
    requires "" !in options
    ensures r != "" <==> v.Str? && v.s in options
    ensures r != "" ==> v == Str(r)
  {
    if v.Str? && v.s in options then v.s else ""
  }

  /** `v instanceof Array && v.length > 0 ? v : []` */
  function NonEmptyArray(v: Value): (r: seq<Value>)
    ensures r != [] <==> v.Arr? && v.items != []
    ensures r != [] ==> v == Arr(r)
  {
    if v.Arr? && |v.items| > 0 then v.items else []
  }

  /** `typeof v === 'number' && v % 1 === 0 && v >= 1 && v <= 5 ? v : 0` */
  function TimeoutSeconds(v: Value): (r: int)
    ensures r != 0 <==> v.Num? && IsInteger(v.n) && 1.0 <= v.n <= 5.0
    ensures r != 0 ==> 1 <= r <= 5 && v == Int(r)
    ensures r == 0 || 1 <= r <= 5
  {
    if v.Num? && IsInteger(v.n) && 1.0 <= v.n <= 5.0 then v.n.Floor else 0
  }

  /** `typeof v === 'boolean' ? v : false` */
  function Boolean(v: Value): (r: bool)
    ensures r <==> v == Bool(true)
  {
    v.Bool? && v.b
  }
}
