/**
 * JSON values as JavaScript sees them after `response.json()`, with the few
 * JavaScript operations the source applies to them: truthiness (`||`),
 * nullish coalescing (`??`), property reads, `String(x)`, template-literal
 * substitution, object spread and object literals as `JSON.stringify`
 * serialises them (a property whose value is `undefined` disappears).
 */
module Json {
  import opened Wrappers
  import opened Text

  /** Numbers are integers: no fractional JSON number reaches a decision in the source. */
  datatype Json =
    | JNull
    | JBool(b: bool)
    | JNum(n: int)
    | JStr(s: string)
    | JArr(items: seq<Json>)
    | JObj(fields: map<string, Json>)

  /** JavaScript truthiness of a JSON value. */
  predicate Truthy(j: Json) {
    match j
    case JNull => false
    case JBool(b) => b
    case JNum(n) => n != 0
    case JStr(s) => s != ""
    case JArr(_) => true
    case JObj(_) => true
  }

  /** `j.key`: `None` is `undefined`. Only objects have the properties read here. */
  function Get(j: Json, key: string): Option<Json> {
    if j.JObj? && key in j.fields then Some(j.fields[key]) else None
  }

  /** Truthiness of a property read, where `undefined` is falsy. */
  predicate TruthyValue(v: Option<Json>) {
    v.Some? && Truthy(v.value)
  }

  /** `v || fallback`. */
  function Or(v: Option<Json>, fallback: Json): Json {
    if TruthyValue(v) then v.value else fallback
  }

  /** `v ?? fallback`. */
  function Coalesce(v: Option<Json>, fallback: Json): Json {
    if v.Some? && v.value != JNull then v.value else fallback
  }

  function Join(parts: seq<string>, sep: string): string {
    if |parts| == 0 then "" else if |parts| == 1 then parts[0] else parts[0] + sep + Join(parts[1..], sep)
  }

  /** `String(j)`: arrays join their elements with commas, rendering `null` elements as "". */
  function ToJsString(j: Json): string
    decreases j
  {
    match j
    case JNull => "null"
    case JBool(b) => if b then "true" else "false"
    case JNum(n) => IntToString(n)
    case JStr(s) => s
    case JArr(items) =>
      Join(seq(|items|, i requires 0 <= i < |items| =>
                          if items[i] == JNull then "" else ToJsString(items[i])), ",")
    case JObj(_) => "[object Object]"
  }

  /** `${v}` inside a template literal. */
  function Interpolate(v: Option<Json>): string {
    if v.Some? then ToJsString(v.value) else "undefined"
  }

  /** `...j` inside an object literal: the own properties of an object. */
  function Fields(j: Json): map<string, Json> {
    if j.JObj? then j.fields else map[]
  }

  /** The property `key: v` of an object literal, as serialised: `undefined` removes the key. */
  function SetField(m: map<string, Json>, key: string, v: Option<Json>): map<string, Json> {
    if v.Some? then m[key := v.value] else m - {key}
  }
}
