/**
 * The JavaScript values that are modelled in the cache's options object
 * (undefined, null, booleans, integral numbers, strings, functions, objects
 * and arrays), with the truthiness that `||` and `&&` test. A function value is
 * an opaque tag: the cache never calls a function that came from its options.
 */
module JsValues {

  datatype Value =
    | Undefined
    | Null
    | Bool(b: bool)
    | Num(n: int)        // integral numbers only; NaN and fractions are not modelled
    | Str(s: string)
    | Fn(name: string)   // any value whose `typeof` is 'function'
    | Obj(props: map<string, Value>)  // a plain object or an array (indices as keys)

  /** JavaScript truthiness: false, 0, "", null and undefined are falsy. */
  predicate Truthy(v: Value) {
    match v
    case Undefined => false
    case Null => false
    case Bool(b) => b
    case Num(n) => n != 0
    case Str(s) => s != ""
    case Fn(_) => true
    case Obj(_) => true
  }

  /** `typeof v === 'function'` */
  predicate IsFunction(v: Value) {
    v.Fn?
  }

  /** `a || b`: the left operand when it is truthy, otherwise the right one. */
  function Or(a: Value, b: Value): (r: Value) {
    if Truthy(a) then a else b
  }

  /** Property access `o[k]`; a missing property reads as undefined. */
  function Lookup(o: map<string, Value>, k: string): (v: Value) {
    if k in o then o[k] else Undefined
  }
}
