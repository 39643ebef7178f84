/**
 * The JavaScript values that flow through the app: JSON-like objects built by the
 * screens and returned by the server, with the language's truthiness, `a || b`,
 * optional property access and the string conversion done by template literals.
 * Numbers are modelled as integers (no floating point, no NaN).
 */
module Js {
  import Text
  import opened Wrappers

  datatype Json =
    | JUndef
    | JNull
    | JBool(b: bool)
    | JNum(n: int)
    | JStr(s: string)
    | JArr(items: seq<Json>)
    | JObj(fields: map<string, Json>)

  /** JavaScript truthiness: `undefined`, `null`, `false`, `0` and `""` are falsy. */
  predicate Truthy(j: Json) {
    match j
    case JUndef => false
    case JNull => false
    case JBool(b) => b
    case JNum(n) => n != 0
    case JStr(s) => s != ""
    case JArr(_) => true
    case JObj(_) => true
  }

  /** `a || b`: the left operand when it is truthy, the right one otherwise. */
  function Or(a: Json, b: Json): (r: Json)
    ensures Truthy(a) ==> r == a
    ensures !Truthy(a) ==> r == b
  {
    if Truthy(a) then a else b
  }

  /** `j?.key` (and `j.key` on an object): `undefined` when `j` is not an object or lacks the key. */
  function Prop(j: Json, key: string): (r: Json)
    ensures j.JObj? && key in j.fields ==> r == j.fields[key]
    ensures !(j.JObj? && key in j.fields) ==> r == JUndef
  {
    if j.JObj? && key in j.fields then j.fields[key] else JUndef
  }

  /** Property access on an object literal held as a key map. */
  function Get(m: map<string, Json>, key: string): Json {
    if key in m then m[key] else JUndef
  }

  /** `j.key` without `?.`: reading a property of `null` or `undefined` throws a TypeError (None). */
  function StrictProp(j: Json, key: string): (r: Option<Json>)
    ensures r.None? <==> (j.JUndef? || j.JNull?)
    ensures r.Some? ==> r.value == Prop(j, key)
  {
    if j.JUndef? || j.JNull? then None else Some(Prop(j, key))
  }

  /** String conversion as a template literal performs it. Array elements that are null or undefined print as "". */
  function ToJsString(j: Json): (r: string)
    decreases j, 1
  {
    match j
    case JUndef => "undefined"
    case JNull => "null"
    case JBool(b) => if b then "true" else "false"
    case JNum(n) => Text.IntToString(n)
    case JStr(s) => s
    case JArr(items) => JoinWithCommas(seq(|items|, i requires 0 <= i < |items| => ElementString(items[i])))
    case JObj(_) => "[object Object]"
  }

  function ElementString(j: Json): string
    decreases j, 2
  {
    if j.JUndef? || j.JNull? then "" else ToJsString(j)
  }

  function JoinWithCommas(parts: seq<string>): string {
    if parts == [] then ""
    else if |parts| == 1 then parts[0]
    else parts[0] + "," + JoinWithCommas(parts[1..])
  }
}
