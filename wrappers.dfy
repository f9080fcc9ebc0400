/** The usual optional-value wrapper, used for map lookups that can miss. */
module Wrappers {

  datatype Option<+T> = None | Some(value: T)

}
