/** The optional-value wrapper used across the model. */
module Wrappers {

  /** A value that may be absent, as an unset query parameter or a client
      with no limiter record yet. */
  datatype Option<+T> = None | Some(value: T)
}
