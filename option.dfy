/** An optional value: JavaScript's `undefined`/`null` or a present value. */
module Option {
  datatype Option<+T> = None | Some(value: T)
}
