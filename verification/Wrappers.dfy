/** An optional value: a pointer that may be null. */
module Wrappers {
  datatype Option<+T> = None | Some(value: T)

  /** A sequence without its element `i`. */
  function Erase<T>(s: seq<T>, i: nat): seq<T>
    requires i < |s|
  {
    s[..i] + s[i + 1..]
  }
}
