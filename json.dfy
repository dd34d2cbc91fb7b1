/**
 * JSON-like values as they travel between the browser, the REST backend and the
 * AI services, with the pieces of JavaScript semantics the application relies on:
 * truthiness (`a || b`), optional field access (`v?.name`) and string conversion
 * (`String(v)`, used when a value becomes an error message).
 * Numbers are integers here; floating point is not modelled.
 */
module Json {
  import opened Wrappers

  datatype JsonValue =
    | JNull
    | JBool(b: bool)
    | JNum(n: int)
    | JStr(s: string)
    | JArr(items: seq<JsonValue>)
    | JObj(fields: map<string, JsonValue>)

  /** JavaScript truthiness: null, false, 0 and "" are falsy; arrays and objects are truthy. */
  predicate Truthy(v: JsonValue) {
    match v
    case JNull => false
    case JBool(b) => b
    case JNum(n) => n != 0
    case JStr(s) => s != ""
    case JArr(_) => true
    case JObj(_) => true
  }

  /** Truthiness of a value that may be undefined. */
  predicate Present(v: Option<JsonValue>) {
    v.Some? && Truthy(v.value)
  }

  /** `v?.name`: the field when `v` is an object holding it, undefined otherwise. */
  function Get(v: JsonValue, name: string): (r: Option<JsonValue>)
    ensures r.Some? <==> v.JObj? && name in v.fields
  {
    if v.JObj? && name in v.fields then Some(v.fields[name]) else None
  }

  /** `a || b`: the first operand when it is truthy, the second otherwise. */
  function Or(a: Option<JsonValue>, b: JsonValue): (r: JsonValue)
    ensures Present(a) ==> r == a.value
    ensures !Present(a) ==> r == b
  {
    if Present(a) then a.value else b
  }

  /** `a || b` when both operands may be undefined: the second operand, whatever it is, when the first is falsy. */
  function OrElse(a: Option<JsonValue>, b: Option<JsonValue>): (r: Option<JsonValue>)
    ensures Present(a) ==> r == a
    ensures !Present(a) ==> r == b
  {
    if Present(a) then a else b
  }

  /** `v?.name` on a value that may itself be undefined. */
  function GetIn(v: Option<JsonValue>, name: string): (r: Option<JsonValue>)
    ensures r.Some? <==> v.Some? && v.value.JObj? && name in v.value.fields
  {
    if v.Some? then Get(v.value, name) else None
  }

  /** Setting an object field to a value that may be undefined: serialization drops undefined fields. */
  function With(fields: map<string, JsonValue>, name: string, v: Option<JsonValue>): map<string, JsonValue> {
    if v.Some? then fields[name := v.value] else fields
  }

  /** `a || b` on optional strings, where only the empty string and undefined are falsy. */
  function OrStr(a: Option<string>, b: string): (r: string)
    ensures a.Some? && a.value != "" ==> r == a.value
    ensures a.None? || a.value == "" ==> r == b
  {
    if a.Some? && a.value != "" then a.value else b
  }

  /** The fields an object spread `{...v}` copies: those of an object, none for null or a primitive. */
  function Spread(v: JsonValue): map<string, JsonValue> {
    if v.JObj? then v.fields else map[]
  }

  /** Decimal digits of a natural number. */
  function NatToString(n: nat): (r: string)
    ensures |r| >= 1
    ensures forall i :: 0 <= i < |r| ==> '0' <= r[i] <= '9'
    decreases n
  {
    if n < 10 then [DigitChar(n)] else NatToString(n / 10) + [DigitChar(n % 10)]
  }

  function DigitChar(d: nat): (c: char)
    requires d < 10
    ensures '0' <= c <= '9'
  {
    "0123456789"[d]
  }

  /** `String(n)` for an integer. */
  function IntToString(n: int): (r: string)
    ensures |r| >= 1
    ensures n >= 0 ==> r == NatToString(n)
    ensures n < 0 ==> r == "-" + NatToString(-n)
  {
    if n >= 0 then NatToString(n) else "-" + NatToString(-n)
  }

  /** `String(v)`: how a value is rendered when it becomes an error message. */
  function ToJsString(v: JsonValue): string {
    match v
    case JNull => "null"
    case JBool(b) => if b then "true" else "false"
    case JNum(n) => IntToString(n)
    case JStr(s) => s
    case JArr(items) => JoinItems(items)
    case JObj(_) => "[object Object]"
  }

  /** `Array.prototype.join(",")`, where null elements render as empty strings. */
  function JoinItems(items: seq<JsonValue>): string
    decreases items
  {
    if items == [] then ""
    else
      var head := if items[0].JNull? then "" else ToJsString(items[0]);
      if |items| == 1 then head else head + "," + JoinItems(items[1..])
  }
}
