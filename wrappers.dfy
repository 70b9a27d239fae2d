/** Optional values, standing for the source's `optional<T>` and `expected<T>`. */
module Wrappers {

  datatype Option<+T> = None | Some(value: T)
}
