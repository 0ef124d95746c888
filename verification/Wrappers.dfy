/** A value that may be missing, as Python's None. */
module Wrappers {
  datatype Option<+T> = None | Some(value: T)
}
