/** Optional values, for the search that may find nothing and the parser that may reject. */
module Wrappers {
  datatype Option<+T> = None | Some(value: T)
}
