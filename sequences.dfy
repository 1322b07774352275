/** Facts about sequences shared by the modules of this project. */
module Sequences {
  /** Concatenation regrouped, as successive appends build it. */
  lemma AppendAssociates<T>(a: seq<T>, b: seq<T>, c: seq<T>)
    ensures (a + b) + c == a + (b + c)
  {
  }
}
