/** The one shared wrapper. */
module Options {
  datatype Option<+T> = None | Some(value: T)
}
