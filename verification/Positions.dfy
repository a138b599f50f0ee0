/** A sublist by its positions in the list, in rising order of the positions. */
module Positions {

  predicate Rising(idx: seq<nat>) {
    forall j, k | 0 <= j < k < |idx| :: idx[j] < idx[k]
  }

  predicate AllPositive(idx: seq<nat>) {
    forall k | 0 <= k < |idx| :: 0 < idx[k]
  }

  /** `out` is what stands in `xs` at these positions. */
  predicate StandAt<T(==)>(xs: seq<T>, out: seq<T>, idx: seq<nat>) {
    |out| == |idx| && forall k | 0 <= k < |idx| :: idx[k] < |xs| && out[k] == xs[idx[k]]
  }

  /** The positions are those `takes` says. */
  predicate Chosen(takes: seq<bool>, idx: seq<nat>) {
    forall i | 0 <= i < |takes| :: i in idx <==> takes[i]
  }

  /** `out` lists, in order, exactly the elements `takes` picks. */
  predicate Picked<T(==)>(xs: seq<T>, takes: seq<bool>, out: seq<T>, idx: seq<nat>) {
    |takes| == |xs| && Rising(idx) && StandAt(xs, out, idx) && Chosen(takes, idx)
  }

  lemma PrependRises(idx: seq<nat>)
    requires Rising(idx) && AllPositive(idx)
    ensures Rising([0] + idx)
  {
  }

  lemma PrependIn(idx: seq<nat>, i: nat)
    ensures i in [0] + idx <==> i == 0 || i in idx
  {
  }

  lemma PrependStands<T>(xs: seq<T>, out: seq<T>, idx: seq<nat>)
    requires xs != [] && StandAt(xs, out, idx)
    ensures StandAt(xs, [xs[0]] + out, [0] + idx)
  {
  }

  lemma ZeroOut(idx: seq<nat>)
    requires AllPositive(idx)
    ensures 0 !in idx
  {
  }

  lemma ShiftedIn(rest: seq<nat>, idx: seq<nat>, i: nat)
    requires |idx| == |rest| && i > 0 && forall k | 0 <= k < |rest| :: idx[k] == rest[k] + 1
    ensures i in idx <==> i - 1 in rest
  {
    if i - 1 in rest {
      var k :| 0 <= k < |rest| && rest[k] == i - 1;
      assert idx[k] == i;
    }
    if i in idx {
      var k :| 0 <= k < |idx| && idx[k] == i;
      assert rest[k] == i - 1;
    }
  }

  /** Positions in the tail, as positions in the whole. */
  lemma Shifted<T>(xs: seq<T>, takes: seq<bool>, out: seq<T>, rest: seq<nat>) returns (idx: seq<nat>)
    requires xs != [] && |takes| == |xs| && Picked(xs[1..], takes[1..], out, rest)
    ensures Rising(idx) && AllPositive(idx) && StandAt(xs, out, idx)
    ensures forall i: nat | 0 < i < |xs| :: i in idx <==> takes[i]
  {
    idx := seq(|rest|, k requires 0 <= k < |rest| => rest[k] + 1);
    forall i: nat | 0 < i < |xs|
      ensures i in idx <==> takes[i]
    {
      ShiftedIn(rest, idx, i);
      assert takes[1..][i - 1] == takes[i];
    }
    forall k | 0 <= k < |idx|
      ensures idx[k] < |xs| && out[k] == xs[idx[k]]
    {
      assert xs[1..][rest[k]] == xs[idx[k]];
    }
  }

  lemma PickMore<T>(xs: seq<T>, takes: seq<bool>, out: seq<T>, rest: seq<nat>) returns (idx: seq<nat>)
    requires xs != [] && |takes| == |xs| && Picked(xs[1..], takes[1..], out, rest)
    ensures Picked(xs, takes, (if takes[0] then [xs[0]] else []) + out, idx)
  {
    var shifted := Shifted(xs, takes, out, rest);
    hide Rising;
    hide StandAt;
    if takes[0] {
      idx := [0] + shifted;
      PrependStands(xs, out, shifted);
      PrependRises(shifted);
      forall i: nat | i < |xs|
        ensures i in idx <==> takes[i]
      {
        PrependIn(shifted, i);
      }
    } else {
      idx := shifted;
      ZeroOut(shifted);
      assert [] + out == out;
    }
  }
}
