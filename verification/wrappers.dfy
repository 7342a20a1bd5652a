/** Optional values: a JSON field that may be absent (`undefined`) is `None`. */
module Wrappers {
  datatype Option<+T> = None | Some(value: T)
}
