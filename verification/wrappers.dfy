/** Small shared definitions. */
module Wrappers {
  datatype Option<+T> = None | Some(value: T)

  const MAX_U32 := 0xFFFF_FFFF

  /** An unsigned 32-bit counter. */
  type U32 = n: nat | n <= MAX_U32

  /** Concatenation may be regrouped. */
  lemma Regroup<T>(a: seq<T>, b: seq<T>, c: seq<T>)
    ensures (a + b) + c == a + (b + c)
  {
  }
}
