/** A map after a series of assignments: the last one to a key wins. */
module Overlay {

  /** Assignment `i` sets key `k`, and no later one below `n` does. */
  ghost predicate Last<K(!new)>(n: nat, sets: (nat, K) -> bool, i: nat, k: K) {
    i < n && sets(i, k) && forall j | i < j < n :: !sets(j, k)
  }

  /** Assignments `from` to n - 1, where `sets` says which set a key and `val` to what, take `before` to `after`. */
  ghost predicate Overlaid<K(!new), V(!new)>(before: map<K, V>, after: map<K, V>, from: nat, n: nat,
                                             sets: (nat, K) -> bool, val: nat -> V) {
    forall k ::
      && (forall i | from <= i && Last(n, sets, i, k) :: k in after && after[k] == val(i))
      && ((forall i | from <= i < n :: !sets(i, k)) ==>
          (k in after <==> k in before) && (k in after ==> after[k] == before[k]))
  }

  lemma OverlaidNone<K(!new), V(!new)>(before: map<K, V>, n: nat, sets: (nat, K) -> bool, val: nat -> V)
    ensures Overlaid(before, before, n, n, sets, val)
  {
  }

  lemma OverlaidSkip<K(!new), V(!new)>(before: map<K, V>, after: map<K, V>, from: nat, n: nat,
                                       sets: (nat, K) -> bool, val: nat -> V)
    requires from < n && Overlaid(before, after, from + 1, n, sets, val) && forall k :: !sets(from, k)
    ensures Overlaid(before, after, from, n, sets, val)
  {
    forall k
      ensures forall i | from <= i && Last(n, sets, i, k) :: k in after && after[k] == val(i)
      ensures (forall i | from <= i < n :: !sets(i, k)) ==>
                (k in after <==> k in before) && (k in after ==> after[k] == before[k])
    {
    }
  }

  lemma OverlaidSet<K(!new), V(!new)>(before: map<K, V>, key: K, after: map<K, V>, from: nat, n: nat,
                                      sets: (nat, K) -> bool, val: nat -> V)
    requires from < n && Overlaid(before[key := val(from)], after, from + 1, n, sets, val)
    requires forall k :: sets(from, k) <==> k == key
    ensures Overlaid(before, after, from, n, sets, val)
  {
    forall k
      ensures forall i | from <= i && Last(n, sets, i, k) :: k in after && after[k] == val(i)
      ensures (forall i | from <= i < n :: !sets(i, k)) ==>
                (k in after <==> k in before) && (k in after ==> after[k] == before[k])
    {
      if k != key {
        assert !sets(from, k);
      } else {
        assert sets(from, k);
        if Last(n, sets, from, k) {
          assert forall i | from + 1 <= i < n :: !sets(i, k);
        }
      }
    }
  }

  lemma {:induction false} SomeLast<K(!new)>(n: nat, sets: (nat, K) -> bool, i: nat, k: K) returns (last: nat)
    requires i < n && sets(i, k)
    ensures i <= last && Last(n, sets, last, k)
    decreases n - i
  {
    if j :| i < j < n && sets(j, k) {
      last := SomeLast(n, sets, j, k);
    } else {
      last := i;
    }
  }

  /** The outcome is one. */
  lemma OverlaidOnce<K(!new), V(!new)>(before: map<K, V>, a: map<K, V>, b: map<K, V>, n: nat, sets: (nat, K) -> bool,
                                       val: nat -> V)
    requires Overlaid(before, a, 0, n, sets, val) && Overlaid(before, b, 0, n, sets, val)
    ensures a == b
  {
    forall k
      ensures (k in a <==> k in b) && (k in a ==> a[k] == b[k])
    {
      if i: nat :| i < n && sets(i, k) {
        var last := SomeLast(n, sets, i, k);
      } else {
        assert forall i | 0 <= i < n :: !sets(i, k);
      }
    }
  }
}
