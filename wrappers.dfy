/** Optional values: the source's `null` for "no digit group selected". */
module Wrappers {

  datatype Option<+T> = None | Some(value: T)
}
