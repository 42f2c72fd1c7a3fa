/** The optional-value wrapper used for the optional fields of a record. */
module Wrappers {
  datatype Option<+T> = None | Some(value: T)
}
