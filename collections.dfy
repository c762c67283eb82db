/** Small facts about Dafny collections shared by the loops that walk a Go
    map's keys. */
module Collections {

  /** A non-empty set of integers has an element to pick. */
  lemma NonEmptyHasElement(s: set<int>)
    ensures s != {} ==> exists x :: x in s
  {
    if forall x :: x !in s {
      assert s == {};
    }
  }

  /** `a` and `b` hold the same keys, each mapped to the same value. */
  predicate SameEntries<K, V(==)>(a: map<K, V>, b: map<K, V>) {
    a.Keys == b.Keys && forall k :: k in a ==> a[k] == b[k]
  }
}
