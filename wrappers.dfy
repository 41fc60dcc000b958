/** Optional values, used for JavaScript results that may be absent (`NaN`, no column start). */
module Wrappers {
  datatype Option<+T> = None | Some(value: T)
}
