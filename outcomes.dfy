/** Failure-carrying wrappers shared by the whole model. */
module Outcomes {

  /** Rust's `Option`. */
  datatype Option<+T> = None | Some(value: T) {

    /** `Option::unwrap_or`. */
    function UnwrapOr(default: T): T {
      match this
      case Some(v) => v
      case None => default
    }
  }

  /**
   * The result of a computation that may abort the program: a Rust panic
   * raised by `unwrap()` on `None`, by `todo!()` or by `u8` overflow.
   */
  datatype Outcome<+T> = Done(value: T) | Abort
}
