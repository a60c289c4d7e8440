/**
 * The untyped values that cross the extension's message channels (`msg: unknown`,
 * the reply of `tabs.sendMessage`). Numbers are integers; NaN, fractions, functions,
 * symbols and arrays (other than as plain objects) are not distinguished.
 */
module Js {
  import opened Decimal

  datatype JsValue =
    | Undefined
    | Null
    | Bool(b: bool)
    | Num(n: int)
    | Str(s: string)
    | Obj(props: map<string, JsValue>)

  /** The value is truthy: `if (v)` takes the branch. */
  predicate Truthy(v: JsValue) {
    match v
    case Undefined => false
    case Null => false
    case Bool(b) => b
    case Num(n) => n != 0
    case Str(s) => s != ""
    case Obj(_) => true
  }

  /** `typeof v` */
  function TypeOf(v: JsValue): string {
    match v
    case Undefined => "undefined"
    case Null => "object"
    case Bool(_) => "boolean"
    case Num(_) => "number"
    case Str(_) => "string"
    case Obj(_) => "object"
  }

  /** `key in v` for an object `v` (own or inherited data property). */
  predicate Has(v: JsValue, key: string)
    requires v.Obj?
  {
    key in v.props
  }

  /** `v[key]` for an object `v`: `undefined` when the property is absent. */
  function Get(v: JsValue, key: string): JsValue
    requires v.Obj?
  {
    if key in v.props then v.props[key] else Undefined
  }

  /** `String(v)`, the conversion a DOMString parameter applies. */
  function ToText(v: JsValue): string {
    match v
    case Undefined => "undefined"
    case Null => "null"
    case Bool(b) => if b then "true" else "false"
    case Num(n) => IntToString(n)
    case Str(s) => s
    case Obj(_) => "[object Object]"
  }
}
