/** Option, for "nothing happened" results of the source's early returns. */
module Wrappers {

  datatype Option<+T> = None | Some(value: T)
}
