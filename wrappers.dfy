/** The optional value used throughout the model: an absent body key, an
    unset schema path, a cast that fails. */
module Wrappers {

  datatype Option<+T> = None | Some(value: T)
}
