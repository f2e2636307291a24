/** The missing-value and outcome types shared by the rest of the model. */
module Wrappers {

  /** A value that may be missing: pandas' NaN for "not yet defined". */
  datatype Option<+T> = None | Some(value: T) {

    /** The wrapped value, or `default` when missing, as a NaN-skipping sum reads a missing entry. */
    function GetOr(default: T): T {
      if Some? then value else default
    }
  }

  /** The outcome of an operation that raises in the original program. */
  datatype Result<+R, +E> = Success(value: R) | Failure(error: E)
}
