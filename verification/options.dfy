/** The optional value used for failed lookups and absent markers. */
module Options {

  datatype Option<T> = None | Some(value: T)
}
