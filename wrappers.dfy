/** The optional value used for `Option` in the source. */
module Wrappers {
  datatype Option<+T> = None | Some(value: T)
}
