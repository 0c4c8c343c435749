// An optional value: the model's stand-in for `T | undefined` in the source.
module Wrappers {
  datatype Option<+T> = None | Some(value: T)
}
