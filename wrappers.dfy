/** Small helper types shared by the rest of the model. */
module Wrappers {

  /** An optional value: the model's stand-in for a C null pointer or a -1 sentinel. */
  datatype Option<+T> = None | Some(value: T)

  /** Regrouping appends to a trace or a byte string; stated once so that callers
    * need not rediscover it by extensionality. */
  lemma AppendAssoc<T>(a: seq<T>, b: seq<T>, c: seq<T>)
    ensures (a + b) + c == a + (b + c)
  {
  }
}
