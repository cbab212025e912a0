/** What several parts share: bytes, and a value that may be absent (a nil pointer of the source). */
module Wrappers {
  type byte = x: int | 0 <= x < 256

  datatype Option<+T> = None | Some(value: T)
}
