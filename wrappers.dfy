/** Optional values: `None` stands for a C null pointer or a null runtime handle. */
module Wrappers {

  datatype Option<+T> = None | Some(value: T)
}
