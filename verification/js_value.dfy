/** The slice of JavaScript's value model that the generator's helpers depend on:
    which values are falsy, and what `&&` and `||` return. */
module JsValue {

  /** A JavaScript value. Numbers are integers; `NaN` is kept because it is falsy.
      `Obj` stands for any object that is not an array (a plugin instance, say). */
  datatype Value =
    | Undefined
    | Null
    | Bool(b: bool)
    | Num(n: int)
    | NaN
    | Str(s: string)
    | Arr(elems: seq<Value>)
    | Obj(name: string)

  /** JavaScript truthiness: `undefined`, `null`, `false`, `0`, `NaN` and `""` are falsy;
      every array and object, even an empty one, is truthy. */
  predicate Truthy(v: Value) {
    match v
    case Undefined => false
    case Null => false
    case Bool(b) => b
    case Num(n) => n != 0
    case NaN => false
    case Str(s) => s != []
    case Arr(_) => true
    case Obj(_) => true
  }

  /** `a && b`: returns one of its operands, not a boolean. */
  function And(a: Value, b: Value): (r: Value)
    ensures Truthy(r) <==> Truthy(a) && Truthy(b)
    ensures !Truthy(a) ==> r == a
    ensures Truthy(a) ==> r == b
  {
    if Truthy(a) then b else a
  }

  /** `a || b`: returns one of its operands, not a boolean. */
  function Or(a: Value, b: Value): (r: Value)
    ensures Truthy(r) <==> Truthy(a) || Truthy(b)
    ensures Truthy(a) ==> r == a
    ensures !Truthy(a) ==> r == b
  {
    if Truthy(a) then a else b
  }

  /** `!v` */
  function Not(v: Value): (r: Value)
    ensures r.Bool? && (Truthy(r) <==> !Truthy(v))
  {
    Bool(!Truthy(v))
  }
}
