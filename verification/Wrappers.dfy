/** Types and predicates that every part of the model uses. */
module Wrappers {
  datatype Option<+T> = None | Some(value: T)

  /** Request ids are unsigned 32-bit numbers; 0 names no request. */
  const ID_LIMIT := 0x1_0000_0000

  /** Every frame of either channel begins with a header of this many bytes. */
  const HEADER_SIZE := 8

  predicate NoDup<T(==)>(s: seq<T>) {
    forall i, j :: 0 <= i < j < |s| ==> s[i] != s[j]
  }
}
