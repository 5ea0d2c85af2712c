/** A value that may be absent: JavaScript's `undefined` where the tracker reads
    a key that an object or an array does not have. */
module Options {
  datatype Option<+T> = None | Some(value: T)
}
