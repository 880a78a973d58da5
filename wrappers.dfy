/** Small shared datatypes. */
module Wrappers {
  /** A value that may be absent: JavaScript's `null`/`undefined` for an optional field or result. */
  datatype Option<+T> = None | Some(value: T)
}
