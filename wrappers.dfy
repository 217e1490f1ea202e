/** Optional values: a C# `null` reference, a missing row, a refused submission. */
module Wrappers {

  datatype Option<+T> = None | Some(value: T)
}
