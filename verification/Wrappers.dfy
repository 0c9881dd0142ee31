/** An optional value, used across the model for absent records and missing facts. */
module Wrappers {
  datatype Option<+T> = None | Some(value: T)

  /** A sequence used as a stack is its rest and its top. */
  lemma SplitLast<T>(s: seq<T>)
    requires s != []
    ensures s == s[..|s| - 1] + [s[|s| - 1]]
  {
  }
}
