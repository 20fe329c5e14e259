/** Optional values: Python's `None` versus a present value, and the
    model's way of saying that an operation raised instead of returning. */
module Wrappers {
  datatype Option<+T> = None | Some(value: T)
}
