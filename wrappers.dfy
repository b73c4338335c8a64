/** Optional values, used wherever the source reads a field that may be absent or a call that may fail. */
module Wrappers {

  datatype Option<+T> = None | Some(value: T)

}
