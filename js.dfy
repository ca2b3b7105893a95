/** The slice of JavaScript value semantics the generator depends on: the values a
    configuration entry, a command-line option or an import assignee can hold, their
    truthiness (what `if (x)` and `x ? a : b` test), their string conversion (what
    `+=` and template literals apply), and a completion that records a thrown error. */
module Js {
  import opened Strings

  datatype JsValue =
    | Undefined
    | Null
    | Bool(b: bool)
    | Str(s: string)
    | StrArray(items: seq<string>)

  /** JavaScript truthiness: `undefined`, `null`, `false` and `''` are falsy; every
      array, the empty one included, is truthy. */
  predicate Truthy(v: JsValue)
    ensures v.StrArray? ==> Truthy(v)
    ensures v.Str? ==> (Truthy(v) <==> ToJsString(v) != "")
    ensures Truthy(v) && !v.StrArray? ==> ToJsString(v) != ""
  {
    match v
    case Undefined => false
    case Null => false
    case Bool(b) => b
    case Str(s) => s != ""
    case StrArray(_) => true
  }

  /** `String(v)`; an array converts through `join(',')`. */
  function ToJsString(v: JsValue): (r: string)
    ensures v.Str? ==> r == v.s
    ensures v.Bool? ==> (r == "true" <==> v.b) && (r == "false" <==> !v.b)
    ensures v.StrArray? && |v.items| == 1 ==> r == v.items[0]
    ensures v.StrArray? && v.items == [] ==> r == ""
  {
    match v
    case Undefined => "undefined"
    case Null => "null"
    case Bool(b) => if b then "true" else "false"
    case Str(s) => s
    case StrArray(items) => Join(items, ",")
  }

  /** How a step ends: normally with a value, or by throwing (the error's class name). */
  datatype Completion<+T> = Normal(value: T) | Throw(error: string)
}
