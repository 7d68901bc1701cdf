/** The optional result used for the code paths on which the source raises. */
module Wrappers {
  datatype Option<+T> = None | Some(value: T)
}
