/** Shared helper datatypes. */
module Wrappers {

  /** A value that may be absent: Python's `None`, Rust's `Option`. */
  datatype Option<+T> = None | Some(value: T)
}
