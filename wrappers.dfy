/** Small helper types shared by the point-of-sale model. */
module Wrappers {

  /** A value that may be absent: JavaScript's `null`/`undefined` for an optional field. */
  datatype Option<+T> = None | Some(value: T)
}
