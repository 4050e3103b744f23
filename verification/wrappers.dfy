/** The Option type stands for a `shared_ptr` that may be null. */
module Wrappers {
  datatype Option<+T> = None | Some(value: T)
}
