/** Optional values, used wherever the source may come back with nothing (a missing dictionary
    entry, a call that raises instead of returning). */
module Wrappers {
  datatype Option<+T> = None | Some(value: T)
}
