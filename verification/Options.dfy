/** An optional value, for the source's `Optional[...]`. */
module Options {
  datatype Option<+T> = None | Some(value: T)
}
