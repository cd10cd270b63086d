/** The optional value used throughout, as in Rust's `Option`. */
module Wrappers {

  datatype Option<+T> = None | Some(value: T)
}
