/**
 * The outcome of one call into code outside the model (an awaited GraphQL
 * query or mutation, or the synchronous opening of a subscription). Such a
 * call is an opaque step: it yields a value or throws.
 */
module Calls {

  datatype Option<T> = None | Some(value: T)

  /** What a `catch` block receives: an `Error` object with its message, or any other value. */
  datatype Thrown = ErrorObject(message: string) | OtherValue

  datatype Call<T> = Resolved(value: T) | Rejected(thrown: Thrown)

  /** `error instanceof Error ? error.message : fallback`. */
  function MessageOf(t: Thrown, fallback: string): (m: string)
    ensures t.ErrorObject? ==> m == t.message
    ensures t.OtherValue? ==> m == fallback
  {
    match t
    case ErrorObject(msg) => msg
    case OtherValue => fallback
  }
}
