/** The few JavaScript values and operators the authorizers and the reporter rely on. */
module Js {

  datatype Option<+T> = None | Some(value: T)

  /** A JavaScript value as it reaches these handlers: a string, or one of the two empty values. */
  datatype Value = Undefined | Null | Str(s: string)

  /** What a handler throws (or passes to the callback as the error). */
  datatype Thrown =
    | ThrownString(s: string)    // `throw "..."`
    | ThrownError(message: string) // `throw new Error("...")`
    | TypeError                   // the engine's own TypeError, e.g. a property read on `undefined`

  /** JavaScript truthiness on these values: only a non-empty string is truthy. */
  predicate Truthy(v: Value) {
    v.Str? && v.s != ""
  }

  /** `a || b`: the left operand when it is truthy, otherwise the right one. */
  function Or(a: Value, b: Value): (r: Value)
    ensures Truthy(a) ==> r == a
    ensures !Truthy(a) ==> r == b
    ensures Truthy(r) <==> Truthy(a) || Truthy(b)
  {
    if Truthy(a) then a else b
  }

  /** `${v}` inside a template literal. */
  function Template(v: Value): (r: string)
    ensures v.Str? ==> r == v.s
    ensures v == Undefined ==> r == "undefined"
    ensures v == Null ==> r == "null"
  {
    match v
    case Undefined => "undefined"
    case Null => "null"
    case Str(s) => s
  }

  /** `xs[i]` on an array of strings: `undefined` past the end. */
  function At(xs: seq<string>, i: nat): (v: Value)
    ensures v.Str? <==> i < |xs|
    ensures v.Str? ==> v.s == xs[i]
    ensures v.Undefined? <==> i >= |xs|
  {
    if i < |xs| then Str(xs[i]) else Undefined
  }

  /** `obj[k]` on an object whose properties are strings: `undefined` when the key is absent. */
  function Get(obj: map<string, string>, k: string): (v: Value)
    ensures v.Str? <==> k in obj
    ensures k in obj ==> v == Str(obj[k])
    ensures k !in obj ==> v == Undefined
  {
    if k in obj then Str(obj[k]) else Undefined
  }
}
