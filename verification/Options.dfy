/** The optional value that stands for `undefined` and for "no such key" throughout the project. */
module Options {
  datatype Option<+T> = None | Some(value: T)
}
