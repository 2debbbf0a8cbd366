/** Regrouping facts about sequence concatenation that the scanners' loop proofs step through. */
module Seqs {
  lemma AppendAssoc<T>(a: seq<T>, b: seq<T>, c: seq<T>)
    ensures a + (b + c) == (a + b) + c
  {
  }

  lemma AppendAssoc4<T>(a: seq<T>, b: seq<T>, c: seq<T>, e: seq<T>)
    ensures (a + b) + (c + e) == a + (b + c) + e
  {
  }

  lemma AppendEmpty<T>(a: seq<T>)
    ensures [] + a == a
  {
  }

  lemma AppendEmpties<T>(a: seq<T>, b: seq<T>, c: seq<T>)
    requires a == [] && b == []
    ensures a + b + c == c
  {
  }
}
