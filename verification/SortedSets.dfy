/** Python's `sorted` on a set of natural numbers, as a sequence. */
module SortedSets {

  /** The members in ascending order. */
  function Sorted(s: set<nat>): (r: seq<nat>)
    ensures |r| == |s|
    ensures forall x :: x in r <==> x in s
    ensures forall i, j | 0 <= i < j < |r| :: r[i] < r[j]
    decreases |s|
  {
    if s == {} then []
    else
      var x := Largest(s);
      var rest := Sorted(s - {x});
      SortedSnoc(s, x, rest);
      rest + [x]
  }

  lemma SortedSnoc(s: set<nat>, x: nat, rest: seq<nat>)
    requires IsLargest(s, x) && |rest| == |s - {x}| && (forall y :: y in rest <==> y in s - {x})
    requires forall i, j | 0 <= i < j < |rest| :: rest[i] < rest[j]
    ensures |rest + [x]| == |s| && (forall y :: y in rest + [x] <==> y in s)
    ensures forall i, j | 0 <= i < j < |rest + [x]| :: (rest + [x])[i] < (rest + [x])[j]
  {
    var out := rest + [x];
    assert |s - {x}| == |s| - 1;
    forall i, j | 0 <= i < j < |out|
      ensures out[i] < out[j]
    {
      if j == |rest| { assert out[i] == rest[i] && rest[i] in rest && rest[i] in s - {x}; }
    }
    forall y
      ensures y in out <==> y in s
    {
      if y == x { assert out[|rest|] == x; } else { assert y in out <==> y in rest; }
    }
  }

  function Largest(s: set<nat>): (m: nat)
    requires s != {}
    ensures IsLargest(s, m)
  {
    LargestExists(s);
    var m :| IsLargest(s, m);
    m
  }

  predicate IsLargest(s: set<nat>, m: nat) {
    m in s && forall x | x in s :: x <= m
  }

  lemma {:induction false} LargestExists(s: set<nat>)
    requires s != {}
    ensures exists m :: IsLargest(s, m)
    decreases s
  {
    var x :| x in s;
    var t := s - {x};
    if t == {} {
      assert s == {x};
      assert IsLargest(s, x);
    } else {
      LargestExists(t);
      var m :| IsLargest(t, m);
      assert forall y | y in s :: y == x || y in t;
      assert IsLargest(s, if m > x then m else x);
    }
  }
}
