/** The optional value used wherever the script can leave something undefined. */
module Wrappers {

  datatype Option<+T> = None | Some(value: T)
}
