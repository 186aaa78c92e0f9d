/**
 * Small value types shared by the whole model: optional values (the source's
 * `undefined`/`null`), JavaScript truthiness of an optional string, and what a
 * `catch` clause can receive.
 */
module Common {

  /** An optional value: `None` stands for `undefined` or `null`. */
  datatype Option<+T> = None | Some(value: T)

  /** What a `catch (err)` clause receives: an `Error` with its message, or any other thrown value. */
  datatype Thrown = ErrorObject(message: string) | NonError

  /** The message a handler shows for a caught value: the `Error`'s message, or the handler's default text. */
  function MessageOr(err: Thrown, fallback: string): (m: string)
    ensures err.ErrorObject? ==> m == err.message
    ensures err.NonError? ==> m == fallback
  {
    match err
    case ErrorObject(msg) => msg
    case NonError => fallback
  }

  /** JavaScript truthiness of a string that may be absent: `null`, `undefined` and `''` are falsy. */
  predicate Truthy(s: Option<string>)
  {
    s.Some? && s.value != ""
  }

  /** The value of `a || b` for an optional string `a` and a string `b`. */
  function OrElse(a: Option<string>, b: string): (r: string)
    ensures Truthy(a) ==> r == a.value
    ensures !Truthy(a) ==> r == b
  {
    if Truthy(a) then a.value else b
  }
}
