/** An optional value: `None` stands for Python's `None` (or an empty CSV cell). */
module Options {

  datatype Option<+T> = None | Some(value: T)
}
