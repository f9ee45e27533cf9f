/** Small value wrappers shared by the modules of this model. */
module Wrappers {
  /** A value that may be absent: a null pointer or a missing entry in the source. */
  datatype Option<T> = None | Some(value: T)
}
