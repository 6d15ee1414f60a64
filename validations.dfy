/**
  The parameter checks of src/lib/validations.ts.  Each validator throws
  through `newError`, whose guard is inverted: any non-empty message is
  replaced by 'Parameter just a string', and only the empty message is
  thrown as given.  Since the validators always pass a non-empty message,
  every error they raise carries 'Parameter just a string'.
 */
module Validations {
  import opened Js

  const ParameterMessage := "Parameter just a string"

  /** `newError(err)`: never returns normally; a truthy (non-empty) message
      is thrown as 'Parameter just a string', the empty one as itself. */
  function NewError(err: string): (c: Completion)
    ensures c.Throw? && c.error.Thrown?
    ensures err != "" ==> c.error.message == ParameterMessage
    ensures err == "" ==> c.error.message == ""
  {
    if Truthy(Str(err)) then Throw(Thrown(ParameterMessage))
    else Throw(Thrown(err))
  }

  /** The template `Parameter ${param} just a function` both validators build. */
  function ValidationMessage(param: string): (message: string)
    ensures |message| > |param|
  {
    "Parameter " + param + " just a function"
  }

  /** `functionsValidation(fn, param)`: returns undefined for any function
      and throws for every other value, always with 'Parameter just a string'. */
  function FunctionsValidation(fn: JsValue, param: string): (c: Completion)
    ensures c.Throw? <==> !fn.Fn?
    ensures c.Normal? ==> c.value == Undefined
    ensures c.Throw? ==> c.error == Thrown(ParameterMessage)
  {
    if !Truthy(fn) || TypeOf(fn) != "function" then
      match NewError(ValidationMessage(param))
      case Throw(e) => Throw(e)
      case Normal(_) => Normal(Undefined)
    else Normal(Undefined)
  }

  /** `objectValidation(obj, param)`: returns undefined for any non-null
      object and throws for every other value (null included), always with
      'Parameter just a string'. */
  function ObjectValidation(obj: JsValue, param: string): (c: Completion)
    ensures c.Throw? <==> !obj.Obj?
    ensures c.Normal? ==> c.value == Undefined
    ensures c.Throw? ==> c.error == Thrown(ParameterMessage)
  {
    if !Truthy(obj) || TypeOf(obj) != "object" then
      match NewError(ValidationMessage(param))
      case Throw(e) => Throw(e)
      case Normal(_) => Normal(Undefined)
    else Normal(Undefined)
  }
}
