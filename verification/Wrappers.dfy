/** The option type shared by the models: a Go pointer, map lookup or error
    return that may carry no value. */
module Wrappers {
  datatype Option<+T> = None | Some(value: T)
}
