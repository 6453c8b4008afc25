/** Optional values: a result that may be null, a variable that may be unassigned. */
module Wrappers {
  datatype Option<+T> = None | Some(value: T)
}
