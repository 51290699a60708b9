/** The optional value used by the models of the demos. */
module Options {
  datatype Option<T> = None | Some(value: T)
}
