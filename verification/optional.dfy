/** A Go pointer field that may be nil. */
module Optional {

  datatype Option<T> = None | Some(value: T) {

    /** What a nil-safe getter returns: the pointed-to value, or the type's
        zero value `zero` for a nil pointer. */
    function GetOr(zero: T): T
    {
      if Some? then value else zero
    }
  }
}
