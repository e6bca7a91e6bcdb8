/** The usual optional value; `None` stands for a null pointer of the source. */
module Options {
  datatype Option<+T> = None | Some(value: T)
}
