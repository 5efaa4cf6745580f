/** Option, for lookups that may find nothing (PHP's nullable return values). */
module Wrappers {

  datatype Option<+T> = None | Some(value: T)

}
