/** Optional values: the model of Python's `T | None` return annotations. */
module Wrappers {

  /** `None` is Python's `None` used as "no data"; `Some(v)` is a present value. */
  datatype Option<+T> = None | Some(value: T)
}
