/** The optional value used for lookups that may find nothing and for
    errors that may or may not have been raised. */
module Wrappers {

  datatype Option<+T> = None | Some(value: T)

}
