/** The optional value used for nullable pointers (`*time.Time`) and failed lookups. */
module Wrappers {

  datatype Option<+T> = None | Some(value: T)
}
