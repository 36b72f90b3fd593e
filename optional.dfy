/** An optional value: the source's `undefined`/`null` fields and results. */
module Optional {
  datatype Option<+T> = None | Some(value: T)
}
