/** Orders built by insertion: each position listed once. */
module Permutations {

  /** `order` lists each position below `n` exactly once. */
  ghost predicate Permutation(order: seq<nat>, n: nat) {
    && |order| == n
    && (forall k | 0 <= k < n :: order[k] < n)
    && (forall j, k | 0 <= j < k < n :: order[j] != order[k])
    && (forall p: nat | p < n :: p in order)
  }

  function Inserted<T>(s: seq<T>, k: nat, x: T): seq<T>
    requires k <= |s|
  {
    s[..k] + [x] + s[k..]
  }

  lemma PermutationInsert(order: seq<nat>, k: nat, i: nat)
    requires Permutation(order, i) && k <= i
    ensures Permutation(Inserted(order, k, i), i + 1)
  {
    var next := Inserted(order, k, i);
    forall p: nat | p < i + 1
      ensures p in next
    {
      if p == i {
        assert next[k] == i;
      } else {
        assert p in order;
        var a :| 0 <= a < |order| && order[a] == p;
        assert next[if a < k then a else a + 1] == p;
      }
    }
  }
}
