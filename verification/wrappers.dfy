/** Option and Result, used for nullable slots and for the exceptions the library throws. */
module Wrappers {

  datatype Option<+T> = None | Some(value: T) {
    /** This value if present, else the other one. */
    function OrElse(other: Option<T>): Option<T> {
      if Some? then this else other
    }
  }

  datatype Result<+R, +E> = Success(value: R) | Failure(error: E)
}
