/** A JavaScript value that may be `undefined` or `null` (None) or hold a value (Some). */
module Wrappers {
  datatype Option<+T> = None | Some(value: T)
}
