/** Values shared by every part of the model. */
module Base {

  /** An optional value: a Kotlin nullable, a Java `Optional`, or a file that may be absent. */
  datatype Option<+T> = None | Some(value: T)

  /** One element of a Kotlin `ByteArray`; only its identity matters to the model. */
  newtype byte = x: int | 0 <= x < 256

  type Bytes = seq<byte>

  function Last<T>(s: seq<T>): T
    requires |s| > 0
  {
    s[|s| - 1]
  }

  function AllButLast<T>(s: seq<T>): seq<T>
    requires |s| > 0
  {
    s[..|s| - 1]
  }
}
