/** Values as the migration script sees them: command-line arguments that may be
    missing, error values handed to callbacks, and the JavaScript coercions the
    script relies on (truthiness and `${...}` interpolation). */
module JsValues {

  datatype Option<+T> = None | Some(value: T)

  /** A positional argument or an optional string property: `undefined` or a string. */
  datatype Arg = Undefined | Defined(s: string)

  /** JavaScript truthiness of an Arg: `undefined` and the empty string are falsy. */
  predicate Truthy(a: Arg) {
    a.Defined? && a.s != ""
  }

  /** The text JavaScript puts in place of `${a}` in a template literal. */
  function Interpolate(a: Arg): (t: string)
    ensures a.Defined? ==> t == a.s
    ensures a.Undefined? ==> t == "undefined"
  {
    match a
    case Undefined => "undefined"
    case Defined(s) => s
  }

  /** `params[i]`: the i-th element, or `undefined` past the end of the array. */
  function Param(params: seq<string>, i: nat): (a: Arg)
    ensures a.Defined? <==> i < |params|
    ensures i < |params| ==> a.s == params[i]
  {
    if i < |params| then Defined(params[i]) else Undefined
  }

  /** An error value passed to a callback: a plain message string, or an object
      (an Error, a response body) whose `message` property may be empty. */
  datatype Fault = Message(text: string) | ErrorObject(message: string, detail: string)

  /** `err.message || err`: the message of an object that has a non-empty one,
      otherwise the error value itself (a string has no `message`). */
  function Reported(err: Fault): (r: Fault)
    ensures err.ErrorObject? && err.message != "" ==> r == Message(err.message)
    ensures !(err.ErrorObject? && err.message != "") ==> r == err
  {
    if err.ErrorObject? && err.message != "" then Message(err.message) else err
  }
}
