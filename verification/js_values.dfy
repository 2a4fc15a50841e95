/**
 * The JavaScript values that travel between the page and the contract worker
 * (request arguments, handler results), with JavaScript's truthiness and the
 * `a || b` operator, which the source uses for every default it applies.
 */
module JsValues {

  /** A JSON-like JavaScript value. Numbers are integers here. */
  datatype Value =
    | Undefined
    | Null
    | Bool(b: bool)
    | Num(n: int)
    | Str(s: string)
    | Obj(fields: map<string, Value>)

  /** JavaScript truthiness: `undefined`, `null`, `false`, `0` and `""` are falsy, every object is truthy. */
  predicate Truthy(v: Value) {
    match v
    case Undefined => false
    case Null => false
    case Bool(b) => b
    case Num(n) => n != 0
    case Str(s) => s != ""
    case Obj(_) => true
  }

  /** `a || b`: the left operand when it is truthy, the right one otherwise. */
  function Or(a: Value, b: Value): Value {
    if Truthy(a) then a else b
  }

  /** Reading property `name` of an object (`v.name`); a missing property reads as `undefined`. */
  function Field(v: Value, name: string): Value {
    if v.Obj? && name in v.fields then v.fields[name] else Undefined
  }
}
