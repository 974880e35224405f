/** The optional value used for the page's nullable references and for pointer
    coordinates that may be undefined. */
module Options {
  datatype Option<+T> = None | Some(value: T)
}
