/** The Option type used wherever the page script has a value that may be null or missing. */
module Wrappers {
  datatype Option<+T> = None | Some(value: T)
}
