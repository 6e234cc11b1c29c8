/** Optional values: `None` stands for a call that raised instead of returning. */
module Wrappers {
  datatype Option<+T> = None | Some(value: T)
}
