/** Option and Result, the two failure-carrying wrappers the model uses. */
module Wrappers {

  /** `None` stands for a JavaScript value that is `null` or `undefined`. */
  datatype Option<+T> = None | Some(value: T) {

    /** The `??` operator: this value unless it is nullish, else `other`. */
    function OrElse(other: Option<T>): Option<T> {
      if Some? then this else other
    }

    function GetOr(default: T): T {
      if Some? then value else default
    }
  }

  datatype Result<+R, +E> = Success(value: R) | Failure(error: E)
}
