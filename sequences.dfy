/** Two facts about sequence concatenation that the pass proofs rely on. */
module Sequences {

  /** Concatenation regroups freely. */
  lemma AppendAssociative<T>(a: seq<T>, b: seq<T>, c: seq<T>)
    ensures a + b + c == a + (b + c)
  {
  }

  /** Overwriting the first element after a prefix moves that element into the prefix. */
  lemma UpdateAtBoundary<T>(a: seq<T>, b: seq<T>, x: T)
    requires |b| > 0
    ensures (a + b)[|a| := x] == a + [x] + b[1..]
  {
  }
}
