/** An optional value, as `Optional` and nullable pointers are used in the sources. */
module Options {
  datatype Option<+T> = None | Some(value: T)
}
