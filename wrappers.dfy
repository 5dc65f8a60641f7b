/** The optional value that stands for JavaScript's `T | undefined`. */
module Wrappers {

  datatype Option<+T> = None | Some(value: T)
}
