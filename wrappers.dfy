/** Go's nil-able values (a nil error, a nil pointer, a nil map) as an explicit option. */
module Wrappers {

  datatype Option<+T> = None | Some(value: T)
}
