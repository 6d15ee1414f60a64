/**
  The fragment of JavaScript value semantics that the state container relies on:
  the values a handler can return, their truthiness (`!x`), the `typeof`
  operator, reading a property of a value, and the way a call completes
  (normally with a value, or by throwing).
 */
module Js {

  /** A JavaScript value, as far as the container can tell values apart.
      Objects and functions carry an identity; an object also records whether
      its `then` and `catch` properties hold functions (a promise has both). */
  datatype JsValue =
    | Undefined
    | Null
    | Bool(b: bool)
    | Num(n: int)
    | Str(s: string)
    | Obj(id: nat, thenIsFunction: bool, catchIsFunction: bool)
    | Fn(id: nat)

  /** `!!v`: the falsy values are exactly undefined, null, false, 0 and the empty string. */
  predicate Truthy(v: JsValue)
    ensures !Truthy(v) <==> v in {Undefined, Null, Bool(false), Num(0), Str("")}
  {
    match v
    case Undefined => false
    case Null => false
    case Bool(b) => b
    case Num(n) => n != 0
    case Str(s) => s != ""
    case Obj(_, _, _) => true
    case Fn(_) => true
  }

  /** The `typeof` operator; note that `typeof null` is 'object'. */
  function TypeOf(v: JsValue): (t: string)
    ensures t == "object" <==> v.Null? || v.Obj?
    ensures t == "function" <==> v.Fn?
  {
    match v
    case Undefined => "undefined"
    case Null => "object"
    case Bool(_) => "boolean"
    case Num(_) => "number"
    case Str(_) => "string"
    case Obj(_, _, _) => "object"
    case Fn(_) => "function"
  }

  /** Reading a property of undefined or null throws a TypeError. */
  predicate Nullish(v: JsValue)
    ensures Nullish(v) <==> v in {Undefined, Null}
  {
    v.Undefined? || v.Null?
  }

  /** `typeof v[name] === 'function'` for the two promise properties the
      container inspects; primitives and plain functions have neither. */
  predicate PropertyIsFunction(v: JsValue, name: string)
    requires !Nullish(v)
    ensures PropertyIsFunction(v, name) ==> v.Obj? && (name == "then" || name == "catch")
  {
    match v
    case Obj(_, thenIsFunction, catchIsFunction) =>
      (name == "then" && thenIsFunction) || (name == "catch" && catchIsFunction)
    case _ => false
  }

  /** What a throw carries: an `Error` built with a message, or one of the
      TypeErrors the engine raises itself. */
  datatype Failure =
    | Thrown(message: string)          // throw new Error(message)
    | NotAFunction(name: string)       // calling a property that holds undefined
    | NullishPropertyRead(property: string)  // reading a property of undefined or null

  /** How a call completes. */
  datatype Completion = Normal(value: JsValue) | Throw(error: Failure)
}
