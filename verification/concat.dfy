/** Facts about sequence concatenation shared by the loop proofs. */
module Concat {

  /** Moving the boundary of a four-part concatenation. */
  lemma Reassociate<T>(a: seq<T>, b: seq<T>, c: seq<T>, d: seq<T>)
    ensures a + (b + c + d) == (a + b + c) + d
  {
  }
}
