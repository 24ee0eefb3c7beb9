/** Optional values and error-or-value results, used wherever the source returns
    `undefined`, `null` or throws. */
module Outcomes {

  /** A value that may be absent (`undefined`/`null` in the source). */
  datatype Option<+T> = None | Some(value: T) {

    /** The value, or `default` when absent: the source's `x || default` on objects. */
    function GetOr(default: T): T {
      match this
      case Some(v) => v
      case None => default
    }
  }

  /** The outcome of an operation that may fail with an error value (a thrown `Error`). */
  datatype Result<+T, +E> = Ok(value: T) | Err(error: E)

  /** The outcome of an awaited call into code outside the model (the agent service,
      the Hedera client): the value it returned, or an exception it threw. */
  datatype Call<+T> = Returned(value: T) | Threw
}
