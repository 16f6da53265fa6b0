/** The optional value used for `T | undefined` and `string | null` in the source. */
module Wrappers {
  datatype Option<+T> = None | Some(value: T)
}
