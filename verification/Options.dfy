/** The optional value used wherever the program uses null. */
module Options {
  datatype Option<+T> = None | Some(value: T)
}
