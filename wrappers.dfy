/** Optional values, used for the cache's "absent" answer and the null fields of a search call. */
module Wrappers {

  datatype Option<+T> = None | Some(value: T)
}
