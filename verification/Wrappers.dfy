/** The optional value used throughout in place of Python's `None` and Rust's `Option`. */
module Wrappers {
  datatype Option<+T> = None | Some(value: T)
}
