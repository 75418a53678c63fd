/** Absent-or-present values: the model's stand-in for JavaScript's `null`/`undefined` fields. */
module Wrappers {
  datatype Option<+T> = None | Some(value: T)
}
