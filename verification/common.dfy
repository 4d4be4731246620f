/** Small shared definitions: the source's `null`-able fields become Options. */
module Common {

  /** A value or JavaScript's `null`. */
  datatype Option<+T> = None | Some(value: T)

  /** The last element of a non-empty sequence. */
  function Last<T>(s: seq<T>): T
    requires |s| > 0
  {
    s[|s| - 1]
  }
}
