/** Small helper datatypes shared by the other modules. */
module Wrappers {

  /** A value that may be missing: a NULL pointer, or a panic() in place of a result. */
  datatype Option<+T> = None | Some(value: T)
}
