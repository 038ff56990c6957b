/** Optional values, used for "file absent", "request failed" and "int() raised". */
module Wrappers {

  datatype Option<+T> = None | Some(value: T)
}
