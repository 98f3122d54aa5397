/** Optional values, used for reads that may throw and decoders that may fail. */
module Wrappers {
  datatype Option<+T> = None | Some(value: T)
}
