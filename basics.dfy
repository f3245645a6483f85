/** Small value types shared by every module of the model. */
module Basics {

  /** Python's `None` or a value. */
  datatype Option<+T> = None | Some(value: T)

  /** One octet of a Python `bytes` object. */
  type byte = x: int | 0 <= x < 256
}
