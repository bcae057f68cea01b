/** Order-preserving sublists, the shape every list filter of the web
    front ends produces. */
module Seqs {

  /** `a` is `b` with some elements dropped and the rest kept in order. */
  predicate Sublist<T(==)>(a: seq<T>, b: seq<T>)
    decreases |b|
  {
    if b == [] then a == []
    else (a != [] && a[0] == b[0] && Sublist(a[1..], b[1..])) || Sublist(a, b[1..])
  }

  /** Every list is a sublist of itself. */
  lemma {:induction false} SublistReflexive<T>(a: seq<T>)
    ensures Sublist(a, a)
    decreases |a|
  {
    if a != [] {
      SublistReflexive(a[1..]);
    }
  }

  /** A sublist holds only elements of the list. */
  lemma {:induction false} SublistMembers<T>(a: seq<T>, b: seq<T>, x: T)
    requires Sublist(a, b) && x in a
    ensures x in b
    decreases |b|
  {
    if b != [] {
      if a != [] && a[0] == b[0] && Sublist(a[1..], b[1..]) {
        if x != a[0] {
          SublistMembers(a[1..], b[1..], x);
        }
      } else {
        SublistMembers(a, b[1..], x);
      }
    }
  }
}
