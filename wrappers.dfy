/** The optional value used wherever the source has `null`/`undefined` or a callback that may not fire. */
module Wrappers {
  datatype Option<+T> = None | Some(value: T)
}
