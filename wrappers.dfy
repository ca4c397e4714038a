/** Optional values: used where the source reads past the end of a table. */
module Wrappers {

  datatype Option<+T> = None | Some(value: T)
}
