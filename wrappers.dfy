/** The optional-value datatype used for environment variables that may be
    unset, a parse that may fail and an external call that may reject. */
module Wrappers {

  datatype Option<+T> = None | Some(value: T)
}
