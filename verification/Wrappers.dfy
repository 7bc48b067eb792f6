/** A present-or-absent value, standing for a nullable struct. */
module Wrappers {
  datatype Option<+T> = None | Some(value: T)
}
