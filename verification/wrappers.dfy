/** Optional values, used where the dashboard may have nothing to show. */
module Wrappers {

  datatype Option<+T> = None | Some(value: T)
}
