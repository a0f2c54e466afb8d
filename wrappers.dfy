/** The optional value used wherever the game passes or returns Python's `None`. */
module Wrappers {

  /** `None` or a present value. */
  datatype Option<+T> = None | Some(value: T)
}
