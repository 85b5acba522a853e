/** An optional value: a key that a loosely typed record may lack. */
module Optional {

  datatype Option<+T> = None | Some(value: T) {

    /** Python's `record.get(key, fallback)`: the value when present, else the fallback. */
    function GetOr(fallback: T): T {
      match this
      case Some(v) => v
      case None => fallback
    }
  }
}
