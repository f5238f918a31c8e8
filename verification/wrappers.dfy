/**
 Failure-aware values used across the model: an optional value (Python's
 `None` versus a value) and the outcome of a call that may raise an
 exception that no caller catches.
 */
module Wrappers {

  /** A value that may be unavailable; `None` plays the part of Python's `None`. */
  datatype Option<+T> = None | Some(value: T) {

    /** What Python's `x if x is not None else fallback` gives. */
    function ValueOr(fallback: T): (r: T)
      ensures Some? ==> r == value
      ensures None? ==> r == fallback
    {
      if Some? then value else fallback
    }
  }

  /** A call that either raised an exception nobody catches, or returned `value`. */
  datatype Attempt<+T> = Raised | Returned(value: T)
}
