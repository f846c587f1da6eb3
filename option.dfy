/** The optional value shared by every module: `None` stands for Python's
    `None`, Java's `null` or a lookup that finds nothing. */
module Optional {

  datatype Option<T> = None | Some(value: T)
}
