/**
 * The JavaScript values the client handles, with the parts of the language's
 * semantics it relies on written out: `typeof`, truthiness, loose comparison
 * with `null`, `||` and property access.
 */
module JsValues {

  /**
   * A JavaScript value. Numbers are reals (an infinity and the sign of zero are
   * not distinguished); NaN is its own case. An Object holds its own enumerable
   * properties; an Array its elements; a Function only an identity.
   */
  datatype JsValue =
    | Undefined
    | Null
    | Bool(b: bool)
    | Number(x: real)
    | NaN
    | Str(s: string)
    | Array(elems: seq<JsValue>)
    | Object(props: map<string, JsValue>)
    | Function(id: nat)

  /** A plain object, given by its own properties (the `fields` of a push, the options argument). */
  type Fields = map<string, JsValue>

  /** The `typeof` operator; note that `typeof null` is "object". */
  function TypeOf(v: JsValue): string
  {
    match v
    case Undefined => "undefined"
    case Null => "object"
    case Bool(_) => "boolean"
    case Number(_) => "number"
    case NaN => "number"
    case Str(_) => "string"
    case Array(_) => "object"
    case Object(_) => "object"
    case Function(_) => "function"
  }

  /** `v == null`: loose equality with null holds exactly for null and undefined. */
  predicate IsNullish(v: JsValue)
  {
    v.Undefined? || v.Null?
  }

  /** The value is truthy: everything except false, 0, NaN, "", null and undefined. */
  predicate Truthy(v: JsValue)
  {
    match v
    case Undefined => false
    case Null => false
    case Bool(b) => b
    case Number(x) => x != 0.0
    case NaN => false
    case Str(s) => s != ""
    case Array(_) => true
    case Object(_) => true
    case Function(_) => true
  }

  /** `a || b`: the first operand when it is truthy, otherwise the second. */
  function Or(a: JsValue, b: JsValue): JsValue
  {
    if Truthy(a) then a else b
  }

  /** Reading an own property of a plain object; a missing one reads as undefined. */
  function Prop(f: Fields, key: string): JsValue
  {
    if key in f then f[key] else Undefined
  }

  /**
   * `v.key` for the property names this client reads ("message", "reason",
   * "error", "channel", "available"): none of them is a property of a
   * primitive, an array or a function, so only a plain object can supply one.
   * On null or undefined JavaScript throws; the client never reads a property
   * of those.
   */
  function Get(v: JsValue, key: string): JsValue
  {
    if v.Object? then Prop(v.props, key) else Undefined
  }
}
