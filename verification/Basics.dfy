/** The optional value used by every module: a nullable column, an absent
    field, a lookup that finds nothing. */
module Basics {
  datatype Option<+T> = None | Some(value: T)
}
