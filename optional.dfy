/** A value that may be absent: a missing dictionary key, an unset
    environment variable, a lookup with no result. */
module Optional {

  datatype Option<+T> = None | Some(value: T)

}
