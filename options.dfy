/** The optional value used for JavaScript's `null`. */
module Options {
  datatype Option<T> = None | Some(value: T)
}
