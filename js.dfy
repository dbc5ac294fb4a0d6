/** The few JavaScript value semantics the client code relies on: truthiness,
    `a || b`, strict equality and the string a template literal produces. */
module Js {
  import opened Wrappers
  import opened Text

  /** A JavaScript value as far as the client code inspects it. Numbers are
      integers; an object is characterised by the `id` and `name` properties
      the code reads from it (a missing `name` is `None`). */
  datatype JsValue =
    | Undefined
    | Null
    | Bool(b: bool)
    | Num(n: int)
    | Str(s: string)
    | Obj(id: JsValue, name: Option<string>)

  /** JavaScript truthiness: `undefined`, `null`, `false`, `0` and `""` are falsy. */
  predicate Truthy(v: JsValue) {
    match v
    case Undefined => false
    case Null => false
    case Bool(b) => b
    case Num(n) => n != 0
    case Str(s) => s != ""
    case Obj(_, _) => true
  }

  /** `a || b` evaluates to `a` when it is truthy and to `b` otherwise. */
  function Or(a: JsValue, b: JsValue): (r: JsValue)
    ensures Truthy(a) ==> r == a
    ensures !Truthy(a) ==> r == b
    ensures Truthy(r) <==> Truthy(a) || Truthy(b)
  {
    if Truthy(a) then a else b
  }

  /** `a === b` on primitive values; object values are taken to be
      different objects, since only their contents are modelled. */
  predicate StrictEquals(a: JsValue, b: JsValue) {
    !a.Obj? && a == b
  }

  /** The text `${v}` produces inside a template literal. */
  function TemplateText(v: JsValue): string {
    match v
    case Undefined => "undefined"
    case Null => "null"
    case Bool(b) => if b then "true" else "false"
    case Num(n) => if n < 0 then "-" + NatToDecimal(-n) else NatToDecimal(n)
    case Str(s) => s
    case Obj(_, _) => "[object Object]"
  }
}
