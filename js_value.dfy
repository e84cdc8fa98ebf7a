/** JSON-shaped JavaScript values, as the untyped (`any`) catalog records are read. */
module Js {
  import opened Wrappers

  /** Numbers are integers here: the catalog coordinates are integer-encoded and
      the identifiers compared by the correlator are strings or integers. */
  datatype Value =
    | Undefined
    | Null
    | Bool(b: bool)
    | Num(n: int)
    | Str(s: string)
    | Arr(elems: seq<Value>)
    | Obj(fields: map<string, Value>)

  predicate Nullish(v: Value) {
    v.Undefined? || v.Null?
  }

  /** JavaScript truthiness. */
  predicate Truthy(v: Value) {
    match v
    case Undefined => false
    case Null => false
    case Bool(b) => b
    case Num(n) => n != 0
    case Str(s) => s != ""
    case Arr(_) => true
    case Obj(_) => true
  }

  /** `v?.key`: the property of an object, `undefined` for anything else. The keys
      this model reads (`items`, `geometry`, `id`, `airspaces`, `notams`, `lat`,
      `lon`, ...) are not properties of strings, numbers or arrays. */
  function Field(v: Value, key: string): Value {
    if v.Obj? && key in v.fields then v.fields[key] else Undefined
  }

  /** `v.key`: like `v?.key`, except that reading from null or undefined throws. */
  function Get(v: Value, key: string): (r: Result<Value>)
    ensures r.Err? <==> Nullish(v)
    ensures r.Ok? ==> r.value == Field(v, key)
  {
    if v.Undefined? then Err(TypeError("Cannot read properties of undefined (reading '" + key + "')"))
    else if v.Null? then Err(TypeError("Cannot read properties of null (reading '" + key + "')"))
    else Ok(Field(v, key))
  }

  /** The elements of `v` when `Array.isArray(v)`, and no elements otherwise. */
  function Elements(v: Value): seq<Value> {
    if v.Arr? then v.elems else []
  }

  /** SameValueZero, the equality used by `Set.prototype.has`. Primitives compare
      by value; two objects or arrays decoded from JSON are never the same
      reference, so they never compare equal. */
  predicate SameValueZero(a: Value, b: Value) {
    a == b && !a.Arr? && !a.Obj?
  }

  /** `new Set(ids).has(v)` */
  predicate InIdSet(ids: seq<Value>, v: Value) {
    exists i | 0 <= i < |ids| :: SameValueZero(ids[i], v)
  }
}
