/** An optional value: the `null` results of the source. */
module Options {
  datatype Option<+T> = None | Some(value: T)
}
