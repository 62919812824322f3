/** The conventional optional value, used for nullable columns and for
    relationships that may resolve to no row. */
module Wrappers {

  datatype Option<+T> = None | Some(value: T)

}
