/** Failure-carrying values shared by every module of the model. */
module Wrappers {

  /** A nullable value: a Java reference that may be null, or a JSON field that may be absent. */
  datatype Option<+T> = None | Some(value: T) {
    /** The value, or `default` when absent (the `x == null ? d : x` idiom). */
    function GetOr(default: T): T {
      match this
      case Some(v) => v
      case None => default
    }
  }

  /** The kinds of exception the repositories hand to `Callback.onError`. */
  datatype Error =
    | IllegalState(message: string)
    | IllegalArgument(message: string)
    | Runtime(message: string)
    | Unsupported(message: string)
    | NullPointer

  /**
   * The outcome of one repository call: exactly one of `onSuccess(value)` or
   * `onError(error)` of InventoryRepository.Callback.
   */
  datatype Result<+T> = Ok(value: T) | Err(error: Error)

  /**
   * The already-decoded answer to one HTTP request: either a body, or the
   * Volley error, described by the text the repository's verboseVolleyError builds.
   */
  datatype Reply<+T> = Delivered(body: T) | NetworkError(description: string)

  /** What one repository operation does: the callback outcome and the requests it issued, in order. */
  datatype Outcome<+T, +C> = Outcome(result: Result<T>, calls: seq<C>)
}
