/** The optional value used for the source's optional out-parameters and
    for container lookups that may fail. */
module Wrappers {

  datatype Option<+T> = None | Some(value: T)
}
