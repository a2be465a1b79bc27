/** Small shared datatypes: an optional value and the abstract outcomes of an HTTP exchange. */
module Wrappers {

  datatype Option<+T> = None | Some(value: T) {
    function GetOr(default: T): T
    {
      match this
      case Some(v) => v
      case None => default
    }
  }

  /** How the admin dashboard sees a `fetch`: a response with `ok` set and its parsed payload,
      a 401, any other non-ok status, or a rejected promise (network failure or unparsable body). */
  datatype Outcome<+T> = Ok(payload: T) | Unauthorized | Failed | Threw

  /** How the public forms see a `fetch`: an ok response with its parsed body, a non-ok response
      whose body was parsed, or an exception (network failure or unparsable body). */
  datatype Reply<+T, +E> = Accepted(body: T) | Rejected(error: E) | NetworkError

  /** The character class `[0-9]`. */
  predicate IsDigit(c: char) { '0' <= c <= '9' }

  /** JavaScript's `a || b` on strings: the empty string is falsy. */
  function OrElse(a: string, b: string): string
  {
    if a != "" then a else b
  }
}
