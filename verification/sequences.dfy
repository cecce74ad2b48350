/** Facts about sequences shared by the other modules. */
module Sequences {

  /** Concatenation is associative; stated apart so that callers need not assert it among quantified facts. */
  lemma Reassociate<T>(a: seq<T>, b: seq<T>, c: seq<T>)
    ensures a + b + c == a + (b + c)
  {
  }
}
