/** The optional-value type used throughout the model for absent inputs and fields. */
module Wrappers {
  datatype Option<+T> = None | Some(value: T)
}
