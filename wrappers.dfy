/** The optional value used where the source has a possibly-NULL pointer. */
module Wrappers {
  datatype Option<+T> = None | Some(value: T)
}
