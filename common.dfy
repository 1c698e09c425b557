/** Small wrapper types shared by every module of the model. */
module Common {

  /** A value that may be absent (JavaScript's `null` / `undefined`). */
  datatype Option<+T> = None | Some(value: T)

  /** The outcome of an operation that either yields a value or fails with an error. */
  datatype Result<+T, +E> = Success(value: T) | Failure(error: E)

  /** What a `throw` or a promise rejection carries: an `Error` object, or any other value. */
  datatype Thrown<+E> = Threw(error: E) | ThrewNonError

  /** The `x instanceof Error ? x : new Error(...)` conversion used by the catch blocks. */
  function AsError<E>(t: Thrown<E>, otherwise: E): (e: E)
    ensures t.Threw? ==> e == t.error
    ensures t.ThrewNonError? ==> e == otherwise
  {
    match t
    case Threw(e) => e
    case ThrewNonError => otherwise
  }
}
