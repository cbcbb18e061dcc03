/**
 * The JavaScript values the tool handlers receive and return: JSON-like
 * values plus `undefined`, `typeof`, truthiness and optional-chaining
 * property access; the shape of a thrown error; and the parts of a parsed
 * WHATWG URL that the code reads.
 */
module Js {
  import opened Base

  datatype JsValue =
    | Undefined
    | Null
    | Bool(b: bool)
    | Num(n: real)
    | Str(s: string)
    | Arr(items: seq<JsValue>)
    | Obj(fields: map<string, JsValue>)

  /** The `typeof` operator (null and arrays are "object"). */
  function TypeOf(v: JsValue): (t: string)
    ensures t == "object" <==> v.Null? || v.Arr? || v.Obj?
  {
    match v
    case Undefined => "undefined"
    case Null => "object"
    case Bool(_) => "boolean"
    case Num(_) => "number"
    case Str(_) => "string"
    case Arr(_) => "object"
    case Obj(_) => "object"
  }

  /** JavaScript truthiness (`!!v`); NaN is not modelled. */
  predicate Truthy(v: JsValue) {
    match v
    case Undefined => false
    case Null => false
    case Bool(b) => b
    case Num(n) => n != 0.0
    case Str(s) => s != ""
    case Arr(_) => true
    case Obj(_) => true
  }

  /** `a || b` on values. */
  function Or(a: JsValue, b: JsValue): (r: JsValue)
    ensures Truthy(a) ==> r == a
    ensures !Truthy(a) ==> r == b
  {
    if Truthy(a) then a else b
  }

  /** Own-property membership, the `key in v` operator on plain objects. */
  predicate Has(v: JsValue, key: string) {
    v.Obj? && key in v.fields
  }

  /**
   * `v?.[key]` for a named key: the field of a plain object, and undefined
   * otherwise (also when `v` is null or undefined).
   */
  function Get(v: JsValue, key: string): JsValue {
    match v
    case Obj(fields) => if key in fields then fields[key] else Undefined
    case _ => Undefined
  }

  /** `v?.[i]` for an index. */
  function At(v: JsValue, i: nat): JsValue {
    match v
    case Arr(items) => if i < |items| then items[i] else Undefined
    case Str(s) => if i < |s| then Str([s[i]]) else Undefined
    case _ => Undefined
  }

  /** The message of the TypeError a property read on null or undefined throws. */
  function NullRead(v: JsValue, key: string): string
    requires v.Null? || v.Undefined?
  {
    "Cannot read properties of " + (if v.Null? then "null" else "undefined") + " (reading '" + key + "')"
  }

  /** What `response.json()` yields: a parsed value, or the parser's error message. */
  datatype Body = Parsed(value: JsValue) | Unparsable(reason: string)

  /**
   * A thrown JavaScript Error: its `name`, its `message` ("" when it has
   * none), its `code` and its `cause.code`, when present.
   */
  datatype Thrown = Thrown(name: string, message: string, code: Option<string>, causeCode: Option<string>)

  /** The name the source's own MCPSearXNGError carries. */
  const McpErrorName: string := "MCPSearXNGError"

  /** The parts of `new URL(s)` that the code reads. */
  datatype Url = Url(protocol: string, hostname: string)

  /** `process.env` / `os.environ`: variable name to value. */
  type Env = map<string, string>

  /** `process.env[name]` is set to a non-empty string (the `!!process.env.X` test). */
  predicate EnvSet(env: Env, name: string) {
    name in env && env[name] != ""
  }

  /** `process.env[name]` as an option. */
  function EnvGet(env: Env, name: string): Option<string> {
    if name in env then Some(env[name]) else None
  }
}
