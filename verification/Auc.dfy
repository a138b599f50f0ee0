/** The rank AUC of harness/decoy_audit.py, over exact reals. */
module Auc {
  import opened Common
  import opened Permutations

  /** What one pair is worth to its left score: a win 1, a tie 1/2. */
  function Worth(x: real, y: real): real {
    if y < x then 1.0 else if y == x then 0.5 else 0.0
  }

  /** The worth of `x` against every score of `ys`. */
  function Wins(x: real, ys: seq<real>): real {
    if ys == [] then 0.0 else Wins(x, ys[..|ys| - 1]) + Worth(x, ys[|ys| - 1])
  }

  /** The worth of every pair of a score of `xs` with a score of `ys`. */
  function PairWins(xs: seq<real>, ys: seq<real>): real {
    if xs == [] then 0.0 else PairWins(xs[..|xs| - 1], ys) + Wins(xs[|xs| - 1], ys)
  }

  function Sum(xs: seq<real>): real {
    if xs == [] then 0.0 else Sum(xs[..|xs| - 1]) + xs[|xs| - 1]
  }

  // ---------------------------------------------------------------- counting does not see order

  lemma {:induction false} WinsAppend(x: real, a: seq<real>, b: seq<real>)
    ensures Wins(x, a + b) == Wins(x, a) + Wins(x, b)
    decreases b
  {
    if b == [] {
      assert a + b == a;
    } else {
      assert (a + b)[..|a + b| - 1] == a + b[..|b| - 1];
      WinsAppend(x, a, b[..|b| - 1]);
    }
  }

  /** The same scores the same number of times. */
  ghost predicate SameBag(a: seq<real>, b: seq<real>) {
    multiset(a) == multiset(b)
  }

  lemma {:induction false} WinsOrderless(x: real, a: seq<real>, b: seq<real>)
    requires SameBag(a, b)
    ensures Wins(x, a) == Wins(x, b)
    decreases |a|
  {
    hide SameBag;
    hide Worth;
    if a == [] {
      EmptyBag(b);
    } else {
      var last := a[|a| - 1];
      var init := a[..|a| - 1];
      assert a == init + [last];
      var i := WithoutOne(init, last, b);
      WinsOrderless(x, init, b[..i] + b[i + 1..]);
      WinsMiddle(x, b[..i], last, b[i + 1..]);
      assert b == b[..i] + ([last] + b[i + 1..]);
    }
  }

  lemma EmptyBag(b: seq<real>)
    requires SameBag([], b)
    ensures b == []
  {
    assert |multiset(b)| == 0;
  }

  lemma WithoutOne(init: seq<real>, last: real, b: seq<real>) returns (i: nat)
    requires SameBag(init + [last], b)
    ensures i < |b| && b[i] == last && SameBag(init, b[..i] + b[i + 1..])
  {
    assert last in multiset(init + [last]);
    assert last in b;
    i :| 0 <= i < |b| && b[i] == last;
    BagDrop(init, last, b[..i], b[i + 1..], b);
  }

  lemma BagDrop(init: seq<real>, last: real, l: seq<real>, r: seq<real>, b: seq<real>)
    requires SameBag(init + [last], b) && b == l + [last] + r
    ensures SameBag(init, l + r)
  {
    assert multiset(init) == multiset(init + [last]) - multiset{last};
    assert multiset(b) == multiset(l) + multiset{last} + multiset(r);
    assert multiset(l + r) == multiset(b) - multiset{last};
  }

  lemma WinsMiddle(x: real, l: seq<real>, y: real, r: seq<real>)
    ensures Wins(x, l + ([y] + r)) == Wins(x, l + r) + Worth(x, y)
  {
    hide Worth;
    WinsAppend(x, l, r);
    WinsAppend(x, l, [y] + r);
    WinsAppend(x, [y], r);
    assert [y][..0] == [];
    assert Wins(x, [y]) == Wins(x, []) + Worth(x, y);
  }

  /** Against itself a list wins half of its square: each pair is worth 1 to the two scores together. */
  lemma {:induction false} SelfPairs(xs: seq<real>)
    ensures PairWins(xs, xs) == (|xs| * |xs|) as real / 2.0
    decreases xs
  {
    if xs != [] {
      var n := |xs| - 1;
      var x, ys := xs[n], xs[..n];
      SelfPairs(ys);
      assert xs == ys + [x];
      Widen(ys, ys, x);
      Opposed(ys, x);
      assert (n + 1) * (n + 1) == n * n + 2 * n + 1;
    }
  }

  lemma {:induction false} Widen(zs: seq<real>, ys: seq<real>, x: real)
    ensures PairWins(zs, ys + [x]) == PairWins(zs, ys) + Against(zs, x)
    decreases zs
  {
    assert (ys + [x])[..|ys|] == ys;
    if zs != [] { Widen(zs[..|zs| - 1], ys, x); }
  }

  /** The worth of every score of `zs` against `x`. */
  function Against(zs: seq<real>, x: real): real {
    if zs == [] then 0.0 else Against(zs[..|zs| - 1], x) + Worth(zs[|zs| - 1], x)
  }

  lemma {:induction false} Opposed(ys: seq<real>, x: real)
    ensures Against(ys, x) + Wins(x, ys) == |ys| as real
    decreases ys
  {
    if ys != [] { Opposed(ys[..|ys| - 1], x); }
  }

  // ---------------------------------------------------------------- ranks

  predicate Ascending(xs: seq<real>) {
    forall i, j | 0 <= i < j < |xs| :: xs[i] <= xs[j]
  }

  /** The averaged rank of a score among all of them, counted from 1. */
  function Rank(x: real, all: seq<real>): real {
    Wins(x, all) + 0.5
  }

  lemma {:induction false} WinsBelow(x: real, a: seq<real>)
    requires forall i | 0 <= i < |a| :: a[i] < x
    ensures Wins(x, a) == |a| as real
    decreases a
  {
    if a != [] { WinsBelow(x, a[..|a| - 1]); }
  }

  lemma {:induction false} WinsTied(x: real, a: seq<real>)
    requires forall i | 0 <= i < |a| :: a[i] == x
    ensures Wins(x, a) == |a| as real / 2.0
    decreases a
  {
    if a != [] { WinsTied(x, a[..|a| - 1]); }
  }

  lemma {:induction false} WinsAbove(x: real, a: seq<real>)
    requires forall i | 0 <= i < |a| :: x < a[i]
    ensures Wins(x, a) == 0.0
    decreases a
  {
    if a != [] { WinsAbove(x, a[..|a| - 1]); }
  }

  /** A maximal run of equal scores at positions i..j of the sorted list has rank (i + j) / 2 + 1. */
  lemma RunRank(all: seq<real>, i: nat, j: nat)
    requires Ascending(all) && i <= j < |all| && all[i] == all[j]
    requires i > 0 ==> all[i - 1] < all[i]
    requires j + 1 < |all| ==> all[j] < all[j + 1]
    ensures Rank(all[i], all) == (i + j) as real / 2.0 + 1.0
  {
    var x := all[i];
    var lo, mid, hi := all[..i], all[i..j + 1], all[j + 1..];
    hide Wins;
    hide Ascending;
    RunParts(all, i, j, lo, mid, hi);
    WinsParts(x, lo, mid, hi);
    Halves(i, j);
  }

  lemma WinsParts(x: real, lo: seq<real>, mid: seq<real>, hi: seq<real>)
    requires forall k | 0 <= k < |lo| :: lo[k] < x
    requires forall k | 0 <= k < |mid| :: mid[k] == x
    requires forall k | 0 <= k < |hi| :: x < hi[k]
    ensures Wins(x, lo + (mid + hi)) == |lo| as real + |mid| as real / 2.0
  {
    hide Wins;
    WinsAppend(x, lo, mid + hi);
    WinsAppend(x, mid, hi);
    WinsBelow(x, lo);
    WinsTied(x, mid);
    WinsAbove(x, hi);
  }

  lemma RunParts(all: seq<real>, i: nat, j: nat, lo: seq<real>, mid: seq<real>, hi: seq<real>)
    requires Ascending(all) && i <= j < |all| && all[i] == all[j]
    requires i > 0 ==> all[i - 1] < all[i]
    requires j + 1 < |all| ==> all[j] < all[j + 1]
    requires lo == all[..i] && mid == all[i..j + 1] && hi == all[j + 1..]
    ensures all == lo + (mid + hi) && |lo| == i && |mid| == j + 1 - i
    ensures forall k | 0 <= k < |lo| :: lo[k] < all[i]
    ensures forall k | 0 <= k < |mid| :: mid[k] == all[i]
    ensures forall k | 0 <= k < |hi| :: all[i] < hi[k]
  {
    hide Ascending;
    forall k | 0 <= k < |lo|
      ensures lo[k] < all[i]
    {
      InOrder(all, k, i - 1);
    }
    forall k | 0 <= k < |hi|
      ensures all[i] < hi[k]
    {
      InOrder(all, j + 1, j + 1 + k);
    }
    forall k | 0 <= k < |mid|
      ensures mid[k] == all[i]
    {
      InOrder(all, i, i + k);
      InOrder(all, i + k, j);
    }
  }

  lemma InOrder(all: seq<real>, i: nat, j: nat)
    requires Ascending(all) && i <= j < |all|
    ensures all[i] <= all[j]
  {
  }

  lemma Halves(i: nat, j: nat)
    requires i <= j
    ensures i as real + (j + 1 - i) as real / 2.0 + 0.0 + 0.5 == (i + j) as real / 2.0 + 1.0
  {
  }

  // ---------------------------------------------------------------- argsort

  function Gather(xs: seq<real>, order: seq<nat>): (ys: seq<real>)
    requires forall k | 0 <= k < |order| :: order[k] < |xs|
    ensures |ys| == |order|
  {
    seq(|order|, k requires 0 <= k < |order| => xs[order[k]])
  }

  /** Where the next position goes: after every smaller or equal score, so ties keep their order. */
  function InsertAt(xs: seq<real>, order: seq<nat>, x: real): (k: nat)
    requires forall i | 0 <= i < |order| :: order[i] < |xs|
    ensures k <= |order|
    ensures forall i | k <= i < |order| :: x < xs[order[i]]
    ensures k > 0 ==> xs[order[k - 1]] <= x
  {
    if order == [] || xs[order[|order| - 1]] <= x then |order| else InsertAt(xs, order[..|order| - 1], x)
  }

  lemma GatherInsert(xs: seq<real>, order: seq<nat>, k: nat, i: nat)
    requires i < |xs| && k <= |order| && forall a | 0 <= a < |order| :: order[a] < |xs|
    ensures forall a | 0 <= a <= |order| :: Inserted(order, k, i)[a] < |xs|
    ensures Gather(xs, Inserted(order, k, i)) == Inserted(Gather(xs, order), k, xs[i])
  {
  }

  lemma MultisetInsert<T>(s: seq<T>, k: nat, x: T)
    requires k <= |s|
    ensures multiset(Inserted(s, k, x)) == multiset(s) + multiset{x}
  {
    assert s == s[..k] + s[k..];
  }

  lemma AscendingInsert(s: seq<real>, k: nat, x: real)
    requires Ascending(s) && k <= |s| && (forall a | k <= a < |s| :: x < s[a]) && (k > 0 ==> s[k - 1] <= x)
    ensures Ascending(Inserted(s, k, x))
  {
    assert forall a | 0 <= a < k :: s[a] <= x;
  }

  /** Equal scores appear in their original order. */
  predicate Stable(xs: seq<real>, order: seq<nat>)
    requires forall k | 0 <= k < |order| :: order[k] < |xs|
  {
    forall j, k | 0 <= j < k < |order| && xs[order[j]] == xs[order[k]] :: order[j] < order[k]
  }

  lemma StableInsert(xs: seq<real>, order: seq<nat>, k: nat, i: nat)
    requires Permutation(order, i) && i < |xs| && k <= i && Stable(xs, order)
    requires forall a | k <= a < |order| :: xs[i] < xs[order[a]]
    ensures forall a | 0 <= a <= |order| :: Inserted(order, k, i)[a] < |xs|
    ensures Stable(xs, Inserted(order, k, i))
  {
  }

  /** `order` sorts the first `n` scores, stably. */
  ghost predicate SortsFirst(xs: seq<real>, n: nat, order: seq<nat>)
    requires n <= |xs|
  {
    && Permutation(order, n)
    && Ascending(Gather(xs, order)) && SameBag(Gather(xs, order), xs[..n])
    && Stable(xs, order)
  }

  lemma SortsNext(xs: seq<real>, n: nat, order: seq<nat>, k: nat)
    requires n < |xs| && SortsFirst(xs, n, order) && k <= n
    requires (forall a | k <= a < n :: xs[n] < xs[order[a]]) && (k > 0 ==> xs[order[k - 1]] <= xs[n])
    ensures SortsFirst(xs, n + 1, Inserted(order, k, n))
  {
    hide Ascending;
    hide Stable;
    PermutationInsert(order, k, n);
    GatherInsert(xs, order, k, n);
    var g := Gather(xs, order);
    AscendingInsert(g, k, xs[n]);
    StableInsert(xs, order, k, n);
    assert SameBag(Inserted(g, k, xs[n]), xs[..n + 1]) by {
      MultisetInsert(g, k, xs[n]);
      assert xs[..n + 1] == xs[..n] + [xs[n]];
    }
    hide *;
  }

  /** A stable sorting permutation. */
  method ArgSort(xs: seq<real>) returns (order: seq<nat>)
    ensures SortsFirst(xs, |xs|, order)
  {
    order := [];
    for i := 0 to |xs|
      invariant SortsFirst(xs, i, order)
    {
      var k := InsertAt(xs, order, xs[i]);
      SortsNext(xs, i, order, k);
      hide *;
      order := Inserted(order, k, i);
    }
  }

  // ---------------------------------------------------------------- the AUC

  /** The scores whose label passes, in order. */
  function Pick(scores: seq<real>, labels: seq<int>, positive: bool): seq<real>
    requires |scores| == |labels|
  {
    if scores == [] then []
    else
      var n := |scores| - 1;
      Pick(scores[..n], labels[..n], positive) +
      (if (if positive then labels[n] > 0 else labels[n] == 0) then [scores[n]] else [])
  }

  method PickLoop(scores: seq<real>, labels: seq<int>, positive: bool) returns (r: seq<real>)
    requires |scores| == |labels|
    ensures r == Pick(scores, labels, positive)
  {
    r := [];
    for i := 0 to |scores|
      invariant r == Pick(scores[..i], labels[..i], positive)
    {
      assert scores[..i + 1][..i] == scores[..i] && labels[..i + 1][..i] == labels[..i];
      if (if positive then labels[i] > 0 else labels[i] == 0) {
        r := r + [scores[i]];
      }
    }
    assert scores[..|scores|] == scores && labels[..|labels|] == labels;
  }

  /** The tie loop: each maximal run of equal scores gets its averaged rank. */
  method TieRanks(all: seq<real>) returns (ranks: array<real>)
    requires Ascending(all)
    ensures fresh(ranks) && ranks.Length == |all|
    ensures forall k | 0 <= k < |all| :: ranks[k] == Rank(all[k], all)
  {
    ranks := new real[|all|];
    var i := 0;
    while i < |all|
      invariant 0 <= i <= |all|
      invariant 0 < i < |all| ==> all[i - 1] < all[i]
      invariant forall k | 0 <= k < i :: ranks[k] == Rank(all[k], all)
    {
      var j := i;
      while j + 1 < |all| && all[j + 1] == all[i]
        invariant i <= j < |all|
        invariant forall k | i <= k <= j :: all[k] == all[i]
      {
        j := j + 1;
      }
      RunRank(all, i, j);
      for k := i to j + 1
        invariant forall h | 0 <= h < i :: ranks[h] == Rank(all[h], all)
        invariant forall h | i <= h < k :: ranks[h] == Rank(all[i], all)
      {
        ranks[k] := (i + j) as real / 2.0 + 1.0;
      }
      i := j + 1;
    }
  }

  /** Each rank goes to the position its score came from. */
  method Scatter(ranks: array<real>, order: seq<nat>) returns (r: array<real>)
    requires Permutation(order, ranks.Length)
    ensures fresh(r) && r.Length == ranks.Length
    ensures forall k | 0 <= k < ranks.Length :: r[order[k]] == ranks[k]
  {
    r := new real[ranks.Length];
    for k := 0 to ranks.Length
      invariant forall h | 0 <= h < k :: r[order[h]] == ranks[h]
    {
      r[order[k]] := ranks[k];
    }
  }

  /** The ranks of the positives sum to their pair wins against everybody, plus a half each. */
  lemma {:induction false} RankSum(pos: seq<real>, all: seq<real>, r: seq<real>)
    requires |r| == |pos| && forall k | 0 <= k < |pos| :: r[k] == Rank(pos[k], all)
    ensures Sum(r) == PairWins(pos, all) + |pos| as real / 2.0
    decreases pos
  {
    if pos != [] {
      var n := |pos| - 1;
      RankSum(pos[..n], all, r[..n]);
    }
  }

  lemma {:induction false} PairAppend(xs: seq<real>, a: seq<real>, b: seq<real>)
    ensures PairWins(xs, a + b) == PairWins(xs, a) + PairWins(xs, b)
    decreases xs
  {
    if xs != [] {
      PairAppend(xs[..|xs| - 1], a, b);
      WinsAppend(xs[|xs| - 1], a, b);
    }
  }

  function PerPair(total: real, p: nat, n: nat): real
    requires p > 0 && n > 0
  {
    total / (p as real * n as real)
  }

  /** The pairwise definition: wins plus half the ties, over all positive-negative pairs. */
  function PairwiseAuc(pos: seq<real>, neg: seq<real>): real
    requires pos != [] && neg != []
  {
    PerPair(PairWins(pos, neg), |pos|, |neg|)
  }

  function Triangle(p: nat): real {
    p as real * (p as real + 1.0) / 2.0
  }

  /** The AUC from the rank sum `rp` of the positives. */
  function FromRankSum(rp: real, p: nat, n: nat): real
    requires p > 0 && n > 0
  {
    PerPair(rp - Triangle(p), p, n)
  }

  lemma RankSumIsPairwise(pos: seq<real>, neg: seq<real>, r: seq<real>)
    requires pos != [] && neg != []
    requires |r| == |pos| && forall k | 0 <= k < |pos| :: r[k] == Rank(pos[k], pos + neg)
    ensures FromRankSum(Sum(r), |pos|, |neg|) == PairwiseAuc(pos, neg)
  {
    hide Sum;
    hide PairWins;
    hide Rank;
    RankSum(pos, pos + neg, r);
    PairAppend(pos, pos, neg);
    SelfPairs(pos);
    SquareReal(|pos|);
    hide PerPair;
    hide Triangle;
    assert Sum(r) - Triangle(|pos|) == PairWins(pos, neg);
  }

  lemma SquareReal(p: nat)
    ensures Triangle(p) == (p * p) as real / 2.0 + p as real / 2.0
  {
    assert (p * p) as real == p as real * p as real;
  }

  /** The averaged-tie rank formula computes the pairwise AUC; None stands for NaN. */
  method RankAuc(scores: seq<real>, labels: seq<int>) returns (a: Option<real>)
    requires |scores| == |labels|
    ensures var pos, neg := Pick(scores, labels, true), Pick(scores, labels, false);
            a == if pos == [] || neg == [] then None else Some(PairwiseAuc(pos, neg))
  {
    var pos := PickLoop(scores, labels, true);
    var neg := PickLoop(scores, labels, false);
    if |pos| == 0 || |neg| == 0 {
      return None;
    }
    hide Pick;
    hide PairwiseAuc;
    hide FromRankSum;
    hide Sum;
    hide Rank;
    hide Ascending;
    hide Stable;
    hide SameBag;
    var joined := pos + neg;
    var order := ArgSort(joined);
    var sorted := Gather(joined, order);
    var ranks := TieRanks(sorted);
    var r := Scatter(ranks, order);
    forall i: nat | i < |pos|
      ensures r[i] == Rank(pos[i], joined)
    {
      assert i in order;
      var k :| 0 <= k < |order| && order[k] == i;
      assert r[order[k]] == Rank(sorted[k], sorted);
      assert joined[..|joined|] == joined;
      RankOrderless(pos[i], sorted, joined);
    }
    RankSumIsPairwise(pos, neg, r[..|pos|]);
    a := Some(FromRankSum(Sum(r[..|pos|]), |pos|, |neg|));
  }

  lemma RankOrderless(x: real, a: seq<real>, b: seq<real>)
    requires SameBag(a, b)
    ensures Rank(x, a) == Rank(x, b)
  {
    WinsOrderless(x, a, b);
  }

  /** The AUC as counts: strictly greater pairs plus half the equal ones. */
  lemma {:induction false} WinsCounts(x: real, ys: seq<real>)
    ensures Wins(x, ys) == Greater(x, ys) as real + Equal(x, ys) as real / 2.0
    decreases ys
  {
    if ys != [] { WinsCounts(x, ys[..|ys| - 1]); }
  }

  function Greater(x: real, ys: seq<real>): nat {
    if ys == [] then 0 else Greater(x, ys[..|ys| - 1]) + (if x > ys[|ys| - 1] then 1 else 0)
  }

  function Equal(x: real, ys: seq<real>): nat {
    if ys == [] then 0 else Equal(x, ys[..|ys| - 1]) + (if x == ys[|ys| - 1] then 1 else 0)
  }

  /** Exchanging the classes gives the complement. */
  lemma {:induction false} AucComplement(pos: seq<real>, neg: seq<real>)
    ensures PairWins(pos, neg) + PairWins(neg, pos) == |pos| as real * |neg| as real
    decreases pos
  {
    if pos == [] {
      NoPairs(neg);
    } else {
      var n := |pos| - 1;
      var x := pos[n];
      AucComplement(pos[..n], neg);
      assert pos == pos[..n] + [x];
      Widen(neg, pos[..n], x);
      Opposed(neg, x);
      assert |pos| as real * |neg| as real == n as real * |neg| as real + |neg| as real;
    }
  }

  lemma {:induction false} NoPairs(xs: seq<real>)
    ensures PairWins(xs, []) == 0.0
    decreases xs
  {
    if xs != [] { NoPairs(xs[..|xs| - 1]); }
  }
}
