/** The optional-value type used by the decoders. */
module Wrappers {
  datatype Option<+T> = None | Some(value: T)
}
