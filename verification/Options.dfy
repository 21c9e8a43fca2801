/** A value or its absence, as the source's optional results are. */
module Options {
  datatype Option<T> = None | Some(value: T)
}
