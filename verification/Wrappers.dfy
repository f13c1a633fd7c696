/** A value that may be absent, shared by all parts of the model. */
module Wrappers {
  datatype Option<+T> = None | Some(value: T)
}
