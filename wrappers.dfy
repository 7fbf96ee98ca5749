/** The optional value used where the source has `undefined`, `null` or an empty string. */
module Wrappers {
  datatype Option<+T> = None | Some(value: T)
}
