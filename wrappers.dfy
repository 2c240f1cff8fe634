/** The optional value used wherever the storefront code yields `undefined` for a miss. */
module Wrappers {
  datatype Option<+T> = None | Some(value: T)
}
