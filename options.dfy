/** The Some/None datatype used for values a JavaScript lookup may leave `undefined`. */
module Options {
  datatype Option<T> = None | Some(value: T)
}
