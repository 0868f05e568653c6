/** Optional values: `None` stands for JavaScript's `undefined`, or for a
    process call that threw. */
module Wrappers {
  datatype Option<+T> = None | Some(value: T)
}
