/** A value that may be absent: JavaScript's `undefined`/`null` where the source uses them as "no value". */
module Optional {

  datatype Option<+T> = None | Some(value: T)
}
