/** The optional value used for JavaScript's `undefined` and for a search that may find nothing. */
module Options {
  datatype Option<+T> = None | Some(value: T)
}
