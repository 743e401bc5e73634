/**
 * Optional values and the outcome of an operation that may throw.
 * `Option` stands for a Java reference that may be null; `Result` for a
 * call that either returns a value or throws one of the exceptions below.
 */
module Wrappers {

  datatype Option<T> = None | Some(value: T)

  /** The Java exceptions the modelled code throws, by kind. */
  datatype Error =
    | DuplicateKey                 // IllegalArgumentException from ImmutableMap.Builder.build()
    | IllegalState                 // IllegalStateException from checkState / validate
    | NullPointer                  // NullPointerException (checkNotNull, call on null)
    | InvalidCharacter             // DOMException INVALID_CHARACTER_ERR: an element name that is not an XML name (null included)
    | IllegalArgument(what: string) // IllegalArgumentException from an argument check
    | IndexOutOfBounds             // list or string index out of range
    | NumberFormat                 // Double.parseDouble on a malformed number
    | SqlError                     // SQLException: no such column in the result row
    | WktParse                     // ParseException from the WKT reader

  datatype Result<T> = Success(value: T) | Failure(error: Error)
  {
    predicate IsFailure() { Failure? }

    function PropagateFailure<U>(): Result<U>
      requires Failure?
    {
      Failure(error)
    }

    function Extract(): T
      requires Success?
    {
      value
    }
  }

  /** The outcome of a call that returns nothing or throws. */
  datatype Outcome = Pass | Fail(error: Error)
}
