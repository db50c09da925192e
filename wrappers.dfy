/** The optional-value wrapper used throughout the model. */
module Wrappers {

  /** `Some(v)` for a present value, `None` for `undefined` or `null`. */
  datatype Option<T> = None | Some(value: T)
}
