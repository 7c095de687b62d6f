/** The optional-value type used where a value may be absent (a compile-time
    define that is not set, a frame that does not parse). */
module Wrappers {

  datatype Option<+T> = None | Some(value: T)
}
