/** Optional values: the source's `number | null`. */
module Wrappers {

  datatype Option<+T> = None | Some(value: T)
}
