/**
 * The error values of errors.go, plus the two error shapes the core obtains
 * from the `github.com/pkg/errors` package: `errors.New` (a plain message) and
 * `errors.Wrap` (a context prefixed to a cause).
 */
module Errors {
  datatype Error =
    | Duplicate(what: string, value: string)
    | Unknown(what: string, value: string)
    | ProcessingError(err: Error)
    | Plain(text: string)
    | Wrapped(context: string, cause: Error)

  /** `Error()`: the message a caller sees. */
  function Message(e: Error): (m: string)
    ensures e.Duplicate? ==> m == "duplicate " + e.what + ": " + e.value
    ensures e.Unknown? ==> m == "unknown " + e.what + ": " + e.value
    ensures e.ProcessingError? ==> m == Message(e.err)
    ensures e.Wrapped? ==> m == e.context + ": " + Message(e.cause)
  {
    match e
    case Duplicate(what, value) => "duplicate " + what + ": " + value
    case Unknown(what, value) => "unknown " + what + ": " + value
    case ProcessingError(inner) => Message(inner)
    case Plain(text) => text
    case Wrapped(context, cause) => context + ": " + Message(cause)
  }

  /** No `Duplicate` message can be mistaken for an `Unknown` one: their first letters differ. */
  lemma DuplicateNeverReadsAsUnknown(a: string, b: string, c: string, d: string)
    ensures Message(Duplicate(a, b)) != Message(Unknown(c, d))
  {
    assert Message(Duplicate(a, b))[0] == 'd';
    assert Message(Unknown(c, d))[0] == 'u';
  }
}
