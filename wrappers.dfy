/** Optional values, used wherever Python code may find nothing (`dict.get`, a failed parse). */
module Wrappers {
  datatype Option<+T> = None | Some(value: T)
}
