/** The optional value used for absent pointers and failed parses. */
module Wrappers {
  datatype Option<+T> = None | Some(value: T)
}
