/** Facts about sequences that several stages' loop proofs share. */
module Seqs {

  /** Concatenation is associative: the step that lets a loop append one
      more piece to what a specification function has already built. */
  lemma {:induction false} AppendAssoc<T>(a: seq<T>, b: seq<T>, c: seq<T>)
    ensures (a + b) + c == a + (b + c)
  {
  }
}
