/** Optional values: the source's `null` / missing fields. */
module Wrappers {

  datatype Option<+T> = None | Some(value: T)
}
