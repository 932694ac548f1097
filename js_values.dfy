/**
 * The JavaScript values that the components inspect: props, attributes and
 * the `type` of a button. Only what the code looks at is kept: whether a
 * value is truthy, whether it is `null`/`undefined`, and string contents.
 */
module JsValues {
  datatype Value =
    | Undefined
    | Null
    | Bool(b: bool)
    | Num(n: int)
    | Str(s: string)
    // a plain object literal such as `{ display: 'none' }`
    | Obj(fields: map<string, Value>)
    // any other object (a component, a function, a DOM node): only its identity
    | Ref(handle: nat)

  /** JavaScript truthiness (NaN is not modelled: numbers are integers). */
  predicate Truthy(v: Value) {
    match v
    case Undefined => false
    case Null => false
    case Bool(b) => b
    case Num(n) => n != 0
    case Str(s) => s != ""
    case Obj(_) => true
    case Ref(_) => true
  }

  /** `v == null` in JavaScript: true of `null` and `undefined` only. */
  predicate Nullish(v: Value) {
    v.Undefined? || v.Null?
  }

  /** `v ?? d`: the default replaces `null` and `undefined`, and nothing else. */
  function Coalesce(v: Value, d: Value): (r: Value)
    ensures Nullish(v) ==> r == d
    ensures !Nullish(v) ==> r == v
  {
    if Nullish(v) then d else v
  }

  /** Reading `o[k]` from a record: a missing key reads as `undefined`. */
  function Get(o: map<string, Value>, k: string): (r: Value)
    ensures k in o ==> r == o[k]
    ensures k !in o ==> r == Undefined
  {
    if k in o then o[k] else Undefined
  }
}
