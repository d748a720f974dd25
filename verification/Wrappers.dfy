/** Small types several modules share. */
module Wrappers {

  datatype Option<+T> = None | Some(value: T)

  type byte = x: int | 0 <= x < 0x100
}
