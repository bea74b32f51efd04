/** Facts about sequences and maps grown one element at a time, used by the loops of
    the slicing utilities to carry their invariants forward. */
module Collections {

  /** No element occurs twice. */
  predicate Distinct<T(==)>(s: seq<T>) {
    forall i, j :: 0 <= i < j < |s| ==> s[i] != s[j]
  }

  lemma DistinctSnoc<T>(s: seq<T>, x: T)
    requires Distinct(s) && x !in s
    ensures Distinct(s + [x])
  {
  }

  /** The members of a non-empty sequence are those of its prefix and its last element. */
  lemma SnocMembers<T>(s: seq<T>)
    requires s != []
    ensures forall x :: x in s <==> x in s[..|s| - 1] || x == s[|s| - 1]
  {
    assert s == s[..|s| - 1] + [s[|s| - 1]];
  }

  lemma ConcatAt<T>(a: seq<T>, b: seq<T>, c: seq<T>, i: nat)
    requires i < |b|
    ensures (a + b + c)[|a| + i] == b[i]
  {
  }

  /** Updating a union at a key is updating its right operand there. */
  lemma UnionUpdate<K, V>(base: map<K, V>, added: map<K, V>, k: K, v: V)
    ensures (base + added)[k := v] == base + added[k := v]
  {
  }

  lemma UnionUpdate2<K, V>(base: map<K, V>, added: map<K, V>, k1: K, v1: V, k2: K, v2: V)
    ensures (base + added)[k1 := v1][k2 := v2] == base + added[k1 := v1][k2 := v2]
  {
  }
}
