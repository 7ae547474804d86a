/** The optional value used for the connection's checkpoint and for a signal that may be ignored. */
module Wrappers {
  datatype Option<+T> = None | Some(value: T)
}
