/** The Option type used for every nullable column and every association
    that may fail to resolve (Ruby's `nil`). */
module Wrappers {

  datatype Option<+T> = None | Some(value: T)
}
