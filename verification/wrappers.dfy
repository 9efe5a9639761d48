/** Optional values: `None` stands for JavaScript's `undefined` where a library call returns it. */
module Wrappers {
  datatype Option<+T> = None | Some(value: T)
}
