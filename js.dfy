/**
 * The JavaScript values the authentication layer looks at: configuration
 * fields, options objects and the values it hands on unchanged.
 */
module Js {

  /** A JavaScript value, reduced to what the layer distinguishes. */
  datatype Value =
    | Undefined
    | Null
    | Bool(b: bool)
    | Num(n: int)
    | Str(s: string)
    | Ref(ref: nat)                   // a host object or function, passed on without inspection
    | Foreign(name: string)           // a value produced by a provider package
    | Obj(props: map<string, Value>)  // a plain object literal

  /** The own properties of a plain object. */
  type Record = map<string, Value>

  /** JavaScript truthiness (`if (v)`, `!v`). */
  predicate Truthy(v: Value) {
    match v
    case Undefined => false
    case Null => false
    case Bool(b) => b
    case Num(n) => n != 0
    case Str(s) => s != ""
    case _ => true
  }

  /** The `a || b` operator: the left operand when truthy, else the right one. */
  function Or(a: Value, b: Value): Value {
    if Truthy(a) then a else b
  }

  /** Property read `o.key`: `undefined` when the property is missing. */
  function Get(o: Record, key: string): Value {
    if key in o then o[key] else Undefined
  }

  /** The properties a destructuring pattern sees; a non-object has none. */
  function Props(v: Value): Record {
    if v.Obj? then v.props else map[]
  }

  /** Property read on an arbitrary value. */
  function GetProp(v: Value, key: string): Value {
    Get(Props(v), key)
  }

  /**
   * The rest object of `const { k1, ..., kn, ...rest } = o`: every own
   * property of `o` except the destructured ones, with its value.
   */
  function Omit(o: Record, keys: set<string>): (rest: Record)
    ensures forall k :: k in rest <==> k in o && k !in keys
    ensures forall k :: k in rest ==> rest[k] == o[k]
  {
    o - keys
  }

  /** What the configuration types allow in a `validate` field: a function or nothing. */
  predicate Callable(v: Value) {
    v.Ref? || !Truthy(v)
  }

  /** What the configuration types allow in a header or parameter name field. */
  predicate IsName(v: Value) {
    v.Str? || !Truthy(v)
  }
}
