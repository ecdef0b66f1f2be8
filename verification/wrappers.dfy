/** Optional values: the model's stand-in for PHP's nullable results and arguments. */
module Wrappers {

  /** `None` plays the role of `null`. */
  datatype Option<+T> = None | Some(value: T)
}
