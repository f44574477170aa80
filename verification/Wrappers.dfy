/** The option type for a value that may be missing, where the program carries a found flag or a nil. */
module Wrappers {
  datatype Option<+T> = None | Some(value: T)
}
