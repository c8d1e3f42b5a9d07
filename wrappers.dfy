/** The optional-value datatype used for the source's `field?: T` and `T | undefined` shapes. */
module Wrappers {
  datatype Option<+T> = None | Some(value: T)
}
