/** The optional value used for the lightning timer handle and the track length. */
module Options {
  datatype Option<T> = None | Some(value: T)
}
