/** An optional value: the answer of a lookup or of a prompt that may have none. */
module Options {

  datatype Option<+T> = None | Some(value: T)
}
