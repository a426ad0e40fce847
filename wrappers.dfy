/** Option type used for lookups and for steps of the source that may fail silently. */
module Wrappers {

  datatype Option<+T> = None | Some(value: T)
}
