/** Option and the shape of a value read back from the device's key-value storage. */
module Wrappers {

  /** A value that may be missing (JavaScript `undefined` or `null`). */
  datatype Option<+T> = None | Some(value: T) {

    /** The value, or `default` when missing (JavaScript `x ?? default`). */
    function GetOr(default: T): T
    {
      match this
      case Some(v) => v
      case None => default
    }
  }

  /**
   * What a storage key yields when it is read: nothing stored, a payload that
   * parses, or a payload that `JSON.parse` rejects.
   */
  datatype Stored<+T> = Absent | Parsed(value: T) | Corrupt
}
