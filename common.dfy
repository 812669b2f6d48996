/** Small shared datatypes. */
module Common {

  /** A value that may be absent: JavaScript's `undefined`, or a NaN parse result. */
  datatype Option<T> = None | Some(value: T)
}
