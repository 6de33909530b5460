/** The JavaScript values the key utilities handle. */
module Json {

  /** A JavaScript value. Numbers are the integers plus the two infinities,
      objects are maps from own property names to values; arrays, functions,
      symbols and NaN are not represented. */
  datatype Value =
    | Undefined
    | Null
    | Bool(b: bool)
    | Num(n: int)
    | Infinity(negative: bool)
    | Text(s: string)
    | Obj(fields: map<string, Value>)

  /** `typeof v === "object"`, which, as in JavaScript, holds of `null` too. */
  predicate IsObjectType(v: Value)
  {
    v.Obj? || v.Null?
  }

  /** JavaScript truthiness: undefined, null, false, 0 and the empty string
      are falsy, every other value is truthy. */
  predicate Truthy(v: Value)
  {
    match v
    case Undefined => false
    case Null => false
    case Bool(b) => b
    case Num(n) => n != 0
    case Infinity(_) => true
    case Text(s) => s != ""
    case Obj(_) => true
  }
}
