/** The "value or nothing" type that stands for JavaScript's `null` results. */
module Wrappers {
  datatype Option<+T> = None | Some(value: T)
}
