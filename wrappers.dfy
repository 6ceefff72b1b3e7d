/** The optional value used for absent fields, absent cells and parse failures. */
module Wrappers {
  datatype Option<+T> = None | Some(value: T)
}
