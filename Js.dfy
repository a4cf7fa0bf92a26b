/** The slice of JavaScript's value model that the casewhat script relies on:
    the values a remote object's properties can hold, property access that
    yields `undefined` for a missing key, and truthiness. */
module Js {

  datatype Option<+T> = None | Some(value: T)

  /** A JavaScript value. Numbers are modelled as integers; an object (or
      array) is its map of own properties. */
  datatype Value =
    | Undef
    | Null
    | Bool(b: bool)
    | Num(n: int)
    | Str(s: string)
    | Obj(props: map<string, Value>)

  /** A plain object, as a map from property names to values. */
  type Object = map<string, Value>

  /** `o[key]`: a key the object does not have reads as `undefined`. */
  function Get(o: Object, key: string): Value
  {
    if key in o then o[key] else Undef
  }

  /** `v[key]` for a value that is not `null` or `undefined`: a primitive has
      none of the properties the script reads (`_ref`, `Count`,
      `description`), so they read as `undefined`. */
  function PropOf(v: Value, key: string): Value
  {
    if v.Obj? then Get(v.props, key) else Undef
  }

  /** JavaScript truthiness: `undefined`, `null`, `false`, `0` and `''` are
      falsy; every object is truthy. */
  predicate Truthy(v: Value)
    ensures Truthy(v) <==> v !in {Undef, Null, Bool(false), Num(0), Str("")}
  {
    match v
    case Undef => false
    case Null => false
    case Bool(b) => b
    case Num(n) => n != 0
    case Str(s) => s != ""
    case Obj(_) => true
  }
}
