/** The usual optional value: `None` stands for Python's `None`, and for a call that raised. */
module Options {

  datatype Option<+T> = None | Some(value: T)
}
