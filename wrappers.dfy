/** The optional value used throughout the model: a stored setting that may be
    absent, a tab that may not be found, a handle that may not exist yet. */
module Wrappers {

  datatype Option<+T> = None | Some(value: T)
}
