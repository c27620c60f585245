/** A value that may be missing: a nullable column, or a lookup that finds no row. */
module Options {
  datatype Option<+T> = None | Some(value: T)
}
