/** Optional values, used for the source's `undefined`/`null` and for lookups that may miss. */
module Wrappers {
  datatype Option<+T> = None | Some(value: T)
}
