/** Optional values: a read that produced a packet, a lookup that may fail. */
module Wrappers {
  datatype Option<+T> = None | Some(value: T)
}
