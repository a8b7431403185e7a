/** Optional values, used for the source's "raises" and "None" cases. */
module Wrappers {
  datatype Option<+T> = None | Some(value: T)
}
