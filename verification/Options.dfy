// The usual optional value: a null pointer, a missing map entry or a parse that threw.
module Options {
  datatype Option<+T> = None | Some(value: T)
}
