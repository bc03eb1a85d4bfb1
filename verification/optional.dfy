/** A value that may be absent: a missing JSON field, a null state slice, a NaN parse. */
module Optional {

  datatype Option<+T> = None | Some(value: T)
}
