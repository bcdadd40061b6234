/** The optional value used wherever the script reads a possibly-undefined field. */
module Wrappers {
  datatype Option<+T> = None | Some(value: T)
}
