/** JavaScript values as they arrive from a parsed JSON body, with the two
    pieces of JavaScript semantics the site relies on: truthiness (`!x`) and
    the short-circuit `a || b`. */
module Json {

  datatype Option<+T> = None | Some(value: T)

  /** A JavaScript value. JSON numbers are finite, so NaN is never among them;
      `Undefined` is what reading an absent property yields. */
  datatype Value =
    | Undefined
    | Null
    | Bool(b: bool)
    | Number(x: real)
    | Str(s: string)
    | Array(items: seq<Value>)
    | Object(fields: map<string, Value>)

  /** JavaScript's ToBoolean: undefined, null, false, 0 and "" are falsy;
      every other value, including an empty array or object, is truthy. */
  predicate Truthy(v: Value) {
    match v
    case Undefined => false
    case Null => false
    case Bool(b) => b
    case Number(x) => x != 0.0
    case Str(s) => s != ""
    case Array(_) => true
    case Object(_) => true
  }

  /** The JavaScript expression `a || b`: the first operand when it is
      truthy, the second otherwise. */
  function Or(a: Value, b: Value): (r: Value)
    ensures r == a || r == b
    ensures Truthy(r) <==> Truthy(a) || Truthy(b)
    ensures Truthy(a) ==> r == a
    ensures !Truthy(a) ==> r == b
  {
    if Truthy(a) then a else b
  }

  /** A string is truthy exactly when it is non-empty. */
  lemma StrTruthy(s: string)
    ensures Truthy(Str(s)) <==> |s| > 0
  {
  }

  /** A value that is an object or an array is truthy even when it is empty:
      the check is JavaScript falsiness, not "has content". */
  lemma ContainersTruthy()
    ensures Truthy(Array([])) && Truthy(Object(map[]))
    ensures !Truthy(Number(0.0)) && Truthy(Number(-1.0)) && !Truthy(Bool(false))
  {
  }
}
