/** Optional values: a resize that needs no correction, a sound that failed to load. */
module Wrappers {

  datatype Option<+T> = None | Some(value: T)
}
