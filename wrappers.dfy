/** Small shared datatypes. */
module Wrappers {

  /** A value that may be absent (a JS `null`, a failed regular-expression match). */
  datatype Option<+T> = None | Some(value: T)
}
