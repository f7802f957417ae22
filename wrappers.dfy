/** Optional values, used for key lookups and for reading replies back. */
module Wrappers {

  datatype Option<+T> = None | Some(value: T)
}
