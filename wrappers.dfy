/** Optional values: an absent query parameter, a `parseInt` that gave `NaN`, a record not found. */
module Wrappers {

  datatype Option<+T> = None | Some(value: T)
}
