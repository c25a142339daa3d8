/** The optional value that stands for JavaScript's `null` results and references. */
module Wrappers {
  datatype Option<+T> = None | Some(value: T)
}
