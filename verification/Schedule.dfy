/** Largest-remainder apportionment of data/gen/__main__.py, over exact rationals. */
module Schedule {
  import opened Common
  import opened Permutations

  /** `weights`, a dict in insertion order: later parts with the same level overwrite in place. */
  type Weights = seq<(int, real)>

  predicate DistinctLevels(ws: Weights) {
    forall i, j | 0 <= i < j < |ws| :: ws[i].0 != ws[j].0
  }

  function IndexOf(ws: Weights, level: int): (i: nat)
    ensures i <= |ws|
    ensures i < |ws| ==> ws[i].0 == level
    ensures forall j | 0 <= j < i :: ws[j].0 != level
  {
    if ws == [] || ws[0].0 == level then 0 else 1 + IndexOf(ws[1..], level)
  }

  function Get(ws: Weights, level: int): Option<real> {
    var k := IndexOf(ws, level);
    if k < |ws| then Some(ws[k].1) else None
  }

  /** Storing a weight: an existing level keeps its place. */
  function Put(ws: Weights, part: (int, real)): Weights {
    var k := IndexOf(ws, part.0);
    if k < |ws| then ws[k := part] else ws + [part]
  }

  lemma PutGet(ws: Weights, part: (int, real), level: int)
    requires DistinctLevels(ws)
    ensures DistinctLevels(Put(ws, part))
    ensures Get(Put(ws, part), level) == if level == part.0 then Some(part.1) else Get(ws, level)
  {
    var k := IndexOf(ws, part.0);
    var out := Put(ws, part);
    if level == part.0 {
      IndexUnique(out, k);
    } else if IndexOf(ws, level) < |ws| {
      IndexUnique(out, IndexOf(ws, level));
    } else {
      IndexAbsent(out, level);
    }
  }

  /** The weight the last part for a level gives it. */
  function Latest(parts: seq<(int, real)>, level: int): Option<real> {
    if parts == [] then None
    else if parts[|parts| - 1].0 == level then Some(parts[|parts| - 1].1)
    else Latest(parts[..|parts| - 1], level)
  }

  /** Where the first part for each level stands. */
  function Firsts(parts: seq<(int, real)>, ws: Weights): (at: seq<nat>)
    ensures |at| == |ws|
  {
    seq(|ws|, j requires 0 <= j < |ws| => IndexOf(parts, ws[j].0))
  }

  predicate Climbing(at: seq<nat>, bound: nat) {
    (forall j | 0 <= j < |at| :: at[j] < bound) && forall i, j | 0 <= i < j < |at| :: at[i] < at[j]
  }

  /** Levels stand in the order of their first parts. */
  predicate FirstOrder(parts: seq<(int, real)>, ws: Weights) {
    Climbing(Firsts(parts, ws), |parts|)
  }

  lemma {:induction false} IndexPrefix(parts: seq<(int, real)>, part: (int, real), level: int)
    ensures IndexOf(parts + [part], level) ==
            if IndexOf(parts, level) < |parts| then IndexOf(parts, level)
            else |parts| + if part.0 == level then 0 else 1
    decreases parts
  {
    if parts != [] {
      assert (parts + [part])[1..] == parts[1..] + [part];
      IndexPrefix(parts[1..], part, level);
    } else {
      assert (parts + [part])[1..] == [];
    }
  }

  /** Every level that has a part has a weight. */
  ghost predicate AllWeighed(parts: seq<(int, real)>, ws: Weights) {
    forall i | 0 <= i < |parts| :: IndexOf(ws, parts[i].0) < |ws|
  }

  lemma PutLevels(ws: Weights, part: (int, real))
    ensures var out := Put(ws, part);
            && |ws| <= |out| <= |ws| + 1 && (forall j | 0 <= j < |ws| :: out[j].0 == ws[j].0)
            && (|out| == |ws| + 1 ==> out[|ws|].0 == part.0 && IndexOf(ws, part.0) == |ws|)
            && IndexOf(out, part.0) < |out|
            && forall level :: IndexOf(ws, level) < |ws| ==> IndexOf(out, level) < |out|
  {
    var out, k := Put(ws, part), IndexOf(ws, part.0);
    assert out[k].0 == part.0;
    forall level | IndexOf(ws, level) < |ws|
      ensures IndexOf(out, level) < |out|
    {
      assert out[IndexOf(ws, level)].0 == level;
    }
  }

  lemma PutWeighed(parts: seq<(int, real)>, ws: Weights, part: (int, real))
    requires AllWeighed(parts, ws)
    ensures AllWeighed(parts + [part], Put(ws, part))
    ensures IndexOf(ws, part.0) == |ws| ==> IndexOf(parts, part.0) == |parts|
  {
    PutLevels(ws, part);
    hide Put;
    hide IndexOf;
    var at := IndexOf(parts, part.0);
    if at < |parts| { assert IndexOf(ws, parts[at].0) < |ws|; }
  }

  lemma PutFirsts(parts: seq<(int, real)>, ws: Weights, part: (int, real), j: nat)
    requires AllWeighed(parts, ws) && Climbing(Firsts(parts, ws), |parts|) && j < |Put(ws, part)|
    ensures Firsts(parts + [part], Put(ws, part))[j] == if j < |ws| then Firsts(parts, ws)[j] else |parts|
  {
    PutLevels(ws, part);
    PutWeighed(parts, ws, part);
    hide AllWeighed;
    hide Put;
    IndexPrefix(parts, part, Put(ws, part)[j].0);
    hide IndexOf;
    if j < |ws| { assert Firsts(parts, ws)[j] < |parts|; }
  }

  lemma PutOrder(parts: seq<(int, real)>, ws: Weights, part: (int, real))
    requires FirstOrder(parts, ws) && AllWeighed(parts, ws)
    ensures FirstOrder(parts + [part], Put(ws, part)) && AllWeighed(parts + [part], Put(ws, part))
  {
    PutLevels(ws, part);
    PutWeighed(parts, ws, part);
    hide Put;
    var all, out := parts + [part], Put(ws, part);
    forall j: nat | j < |out|
      ensures Firsts(all, out)[j] == if j < |ws| then Firsts(parts, ws)[j] else |parts|
    {
      PutFirsts(parts, ws, part, j);
    }
    hide AllWeighed;
    hide Firsts;
  }

  method ReadWeights(parts: seq<(int, real)>) returns (ws: Weights)
    ensures DistinctLevels(ws) && FirstOrder(parts, ws)
    ensures forall level :: Get(ws, level) == Latest(parts, level)
  {
    hide Get;
    hide Put;
    hide DistinctLevels;
    hide FirstOrder;
    hide AllWeighed;
    hide IndexOf;
    ws := [];
    assert DistinctLevels(ws) && forall level :: Get(ws, level) == None by { NoWeights(); }
    assert FirstOrder(parts[..0], ws) && AllWeighed(parts[..0], ws) by { NoLevels(); }
    for n := 0 to |parts|
      invariant DistinctLevels(ws) && FirstOrder(parts[..n], ws)
      invariant AllWeighed(parts[..n], ws)
      invariant forall level :: Get(ws, level) == Latest(parts[..n], level)
    {
      assert parts[..n + 1][..n] == parts[..n];
      assert parts[..n] + [parts[n]] == parts[..n + 1];
      PutOrder(parts[..n], ws, parts[n]);
      PutGet(ws, parts[n], 0);
      forall level
        ensures Get(Put(ws, parts[n]), level) == Latest(parts[..n + 1], level)
      {
        PutGet(ws, parts[n], level);
      }
      ws := Put(ws, parts[n]);
    }
    assert parts[..|parts|] == parts;
  }

  lemma NoLevels()
    ensures FirstOrder([], []) && AllWeighed([], [])
  {
  }

  lemma NoWeights()
    ensures DistinctLevels([]) && forall level :: Get([], level) == None
  {
  }

  lemma IndexUnique(ws: Weights, at: nat)
    requires DistinctLevels(ws) && at < |ws|
    ensures IndexOf(ws, ws[at].0) == at
  {
  }

  lemma {:induction false} IndexAbsent(ws: Weights, level: int)
    requires forall j | 0 <= j < |ws| :: ws[j].0 != level
    ensures IndexOf(ws, level) == |ws|
    decreases ws
  {
    if ws != [] { IndexAbsent(ws[1..], level); }
  }

  lemma IndexInit(ws: Weights, level: int)
    requires ws != [] && DistinctLevels(ws)
    ensures var m := |ws| - 1; var k := IndexOf(ws[..m], level);
            IndexOf(ws, level) == if ws[m].0 == level then m else if k < m then k else |ws|
    ensures IndexOf(ws[..|ws| - 1], ws[|ws| - 1].0) == |ws| - 1
  {
    var m := |ws| - 1;
    IndexAbsent(ws[..m], ws[m].0);
    var k := IndexOf(ws[..m], level);
    if ws[m].0 == level {
      IndexUnique(ws, m);
    } else if k < m {
      IndexUnique(ws, k);
    } else {
      assert forall j | 0 <= j < m :: ws[..m][j].0 != level;
      IndexAbsent(ws, level);
    }
  }

  function Total(xs: seq<real>): real {
    if xs == [] then 0.0 else Total(xs[..|xs| - 1]) + xs[|xs| - 1]
  }

  function WeightsOf(ws: Weights): seq<real> {
    seq(|ws|, i requires 0 <= i < |ws| => ws[i].1)
  }

  /** Each level's quota: its share of the total weight, times `n`. */
  function Quotas(n: nat, ws: Weights): (q: seq<real>)
    requires Total(WeightsOf(ws)) > 0.0
    ensures |q| == |ws|
  {
    var total := Total(WeightsOf(ws));
    seq(|ws|, i requires 0 <= i < |ws| => n as real * ws[i].1 / total)
  }

  /** The integer part of a non-negative quota. */
  function Floors(q: seq<real>): (c: seq<int>)
    ensures |c| == |q|
    ensures forall i | 0 <= i < |q| :: c[i] as real <= q[i] < c[i] as real + 1.0
  {
    seq(|q|, i requires 0 <= i < |q| => q[i].Floor)
  }

  function Sum(c: seq<int>): int {
    if c == [] then 0 else Sum(c[..|c| - 1]) + c[|c| - 1]
  }

  function Remainder(q: real): real {
    q - q.Floor as real
  }

  // ---------------------------------------------------------------- quotas add up

  lemma {:induction false} ScaledTotal(xs: seq<real>, ys: seq<real>, k: real)
    requires |xs| == |ys| && forall i | 0 <= i < |xs| :: ys[i] == k * xs[i]
    ensures Total(ys) == k * Total(xs)
    decreases xs
  {
    if xs != [] {
      var m := |xs| - 1;
      ScaledTotal(xs[..m], ys[..m], k);
      Distribute(k, Total(xs[..m]), xs[m]);
    }
  }

  lemma Distribute(k: real, a: real, b: real)
    ensures k * (a + b) == k * a + k * b
  {
  }

  lemma QuotasTotal(n: nat, ws: Weights)
    requires Total(WeightsOf(ws)) > 0.0
    ensures Total(Quotas(n, ws)) == n as real
  {
    hide Total;
    var total := Total(WeightsOf(ws));
    var k := n as real / total;
    forall i | 0 <= i < |ws|
      ensures Quotas(n, ws)[i] == k * WeightsOf(ws)[i]
    {
      MoveDivision(n as real, ws[i].1, total);
    }
    ScaledTotal(WeightsOf(ws), Quotas(n, ws), k);
    Cancel(n as real, total);
  }

  lemma MoveDivision(a: real, b: real, c: real)
    requires c > 0.0
    ensures a * b / c == a / c * b
  {
  }

  lemma Cancel(a: real, c: real)
    requires c > 0.0
    ensures a / c * c == a
  {
  }

  lemma QuotaNonNegative(n: nat, w: real, total: real)
    requires w >= 0.0 && total > 0.0
    ensures n as real * w / total >= 0.0
    ensures w == 0.0 ==> n as real * w / total == 0.0
  {
    var p := n as real * w;
    assert p >= 0.0;
  }

  /** How many quotas have a fractional part. */
  function Fractions(q: seq<real>): nat {
    if q == [] then 0 else Fractions(q[..|q| - 1]) + (if Remainder(q[|q| - 1]) > 0.0 then 1 else 0)
  }

  /** The floors fall short of the total by less than the number of fractional quotas, unless there are none. */
  lemma {:induction false} Shortfall(q: seq<real>)
    ensures Sum(Floors(q)) as real <= Total(q)
    ensures Total(q) <= Sum(Floors(q)) as real + Fractions(q) as real
    ensures Fractions(q) > 0 ==> Total(q) < Sum(Floors(q)) as real + Fractions(q) as real
    decreases q
  {
    if q != [] {
      var m := |q| - 1;
      Shortfall(q[..m]);
      assert Floors(q)[..m] == Floors(q[..m]);
      assert Floors(q)[m] == q[m].Floor;
      assert Sum(Floors(q)) as real == Sum(Floors(q[..m])) as real + q[m].Floor as real;
    }
  }

  // ---------------------------------------------------------------- who gets an extra one

  /** Positions by falling remainder, ties in dict order. */
  function InsertPlace(q: seq<real>, order: seq<nat>, r: real): (k: nat)
    requires forall i | 0 <= i < |order| :: order[i] < |q|
    ensures k <= |order|
    ensures forall i | k <= i < |order| :: Remainder(q[order[i]]) < r
    ensures k > 0 ==> Remainder(q[order[k - 1]]) >= r
  {
    if order == [] || Remainder(q[order[|order| - 1]]) >= r then |order| else InsertPlace(q, order[..|order| - 1], r)
  }

  predicate Falling(q: seq<real>, order: seq<nat>)
    requires forall i | 0 <= i < |order| :: order[i] < |q|
  {
    forall i, j | 0 <= i < j < |order| ::
      Remainder(q[order[i]]) > Remainder(q[order[j]]) ||
      (Remainder(q[order[i]]) == Remainder(q[order[j]]) && order[i] < order[j])
  }

  lemma FallingInsert(q: seq<real>, order: seq<nat>, k: nat, n: nat)
    requires n < |q| && k <= |order| && (forall i | 0 <= i < |order| :: order[i] < n) && Falling(q, order)
    requires forall i | k <= i < |order| :: Remainder(q[order[i]]) < Remainder(q[n])
    requires k > 0 ==> Remainder(q[order[k - 1]]) >= Remainder(q[n])
    ensures forall i | 0 <= i <= |order| :: Inserted(order, k, n)[i] < |q|
    ensures Falling(q, Inserted(order, k, n))
  {
    hide Remainder;
    assert forall i | 0 <= i < k :: Remainder(q[order[i]]) >= Remainder(q[n]);
  }

  method ByRemainder(q: seq<real>) returns (order: seq<nat>)
    ensures Permutation(order, |q|) && Falling(q, order)
  {
    hide Permutation;
    hide Falling;
    hide Remainder;
    order := [];
    assert Permutation(order, 0) && Falling(q, order) by { NoneListed(q); }
    for n := 0 to |q|
      invariant Permutation(order, n) && (forall i | 0 <= i < |order| :: order[i] < |q|) && Falling(q, order)
    {
      ListedLength(order, n, q);
      var k := InsertPlace(q, order, Remainder(q[n]));
      PermutationInsert(order, k, n);
      FallingInsert(q, order, k, n);
      hide Inserted;
      order := Inserted(order, k, n);
      ListedLength(order, n + 1, q);
    }
  }

  lemma NoneListed(q: seq<real>)
    ensures Permutation([], 0) && Falling(q, [])
  {
  }

  lemma ListedLength(order: seq<nat>, n: nat, q: seq<real>)
    requires Permutation(order, n) && n <= |q|
    ensures |order| == n && forall i | 0 <= i < |order| :: order[i] < n
  {
  }

  /** The first `short` positions of the order get one more. */
  function Extra(order: seq<nat>, short: nat, i: nat): int
    requires short <= |order|
  {
    if i in order[..short] then 1 else 0
  }

  /** Among the first `short` of a falling order, all have a remainder if that many positions do. */
  lemma {:induction false} FractionsFirst(q: seq<real>, order: seq<nat>, short: nat)
    requires Permutation(order, |q|) && Falling(q, order) && short <= Fractions(q)
    ensures short <= |order|
    ensures forall i | 0 <= i < short :: Remainder(q[order[i]]) > 0.0
  {
    hide Remainder;
    var positive := Positive(q);
    FractionsCount(q);
    FractionBound(q);
    if exists i | 0 <= i < short :: !(Remainder(q[order[i]]) > 0.0) {
      var i :| 0 <= i < short && !(Remainder(q[order[i]]) > 0.0);
      var before := set j | 0 <= j < i :: order[j];
      assert positive <= before by {
        forall p | p in positive
          ensures p in before
        {
          assert p in order;
          var j :| 0 <= j < |order| && order[j] == p;
          RemainderSign(q[order[i]]);
          assert j < i;
        }
      }
      FewBefore(order, i);
      Smaller(positive, before);
      assert false;
    }
  }

  lemma RemainderSign(x: real)
    ensures 0.0 <= Remainder(x) < 1.0
  {
  }

  function Positive(q: seq<real>): set<nat> {
    set p: nat | p < |q| && Remainder(q[p]) > 0.0
  }

  lemma {:induction false} FractionsCount(q: seq<real>)
    ensures |Positive(q)| == Fractions(q)
    decreases q
  {
    hide Remainder;
    if q != [] {
      var m := |q| - 1;
      FractionsCount(q[..m]);
      var rest := Positive(q[..m]);
      if Remainder(q[m]) > 0.0 {
        assert Positive(q) == rest + {m};
      } else {
        assert Positive(q) == rest;
      }
    }
  }

  lemma {:induction false} FractionBound(q: seq<real>)
    ensures Fractions(q) <= |q|
    decreases q
  {
    if q != [] { FractionBound(q[..|q| - 1]); }
  }

  lemma {:induction false} FewBefore(order: seq<nat>, i: nat)
    requires i <= |order|
    ensures |set j | 0 <= j < i :: order[j]| <= i
  {
    if i > 0 {
      FewBefore(order, i - 1);
      var less := set j | 0 <= j < i - 1 :: order[j];
      assert (set j | 0 <= j < i :: order[j]) == less + {order[i - 1]};
    }
  }

  lemma Smaller<T>(a: set<T>, b: set<T>)
    requires a <= b
    ensures |a| <= |b|
  {
    assert b == a + (b - a);
  }

  // ---------------------------------------------------------------- counts

  /** The counts a schedule owes each level. */
  ghost predicate Apportioned(n: nat, q: seq<real>, counts: seq<int>) {
    && |counts| == |q|
    && Sum(counts) == n
    && (forall i | 0 <= i < |q| :: counts[i] == q[i].Floor || (counts[i] == q[i].Floor + 1 && Remainder(q[i]) > 0.0))
    && (forall i, j | 0 <= i < |q| && 0 <= j < |q| && Ahead(q, j, i) && counts[i] == q[i].Floor + 1 ::
          counts[j] == q[j].Floor + 1)
  }

  /** Position `j` comes before `i`: by a larger remainder, or by its place where they are equal. */
  predicate Ahead(q: seq<real>, j: nat, i: nat)
    requires i < |q| && j < |q|
  {
    Remainder(q[j]) > Remainder(q[i]) || (Remainder(q[j]) == Remainder(q[i]) && j < i)
  }

  lemma {:induction false} SumBump(c: seq<int>, k: nat)
    requires k < |c|
    ensures Sum(c[k := c[k] + 1]) == Sum(c) + 1
    decreases c
  {
    var m := |c| - 1;
    var d := c[k := c[k] + 1];
    if k == m {
      assert d[..m] == c[..m];
    } else {
      assert d[..m] == c[..m][k := c[k] + 1];
      SumBump(c[..m], k);
    }
  }

  /** `counts`: floors, then one more for the largest remainders. */
  method Apportion(n: nat, q: seq<real>) returns (counts: seq<int>)
    requires Total(q) == n as real
    ensures Apportioned(n, q, counts)
  {
    Shortfall(q);
    FractionBound(q);
    hide Total;
    hide Sum;
    hide Fractions;
    var floors := Floors(q);
    counts := floors;
    var short := n - Sum(counts);
    var order := ByRemainder(q);
    FractionsFirst(q, order, short);
    hide Remainder;
    var k := 0;
    while k < short
      invariant 0 <= k <= short && |counts| == |q|
      invariant Sum(counts) == Sum(floors) + k
      invariant forall i | 0 <= i < |q| :: counts[i] == floors[i] + Extra(order, k, i)
    {
      SumBump(counts, order[k]);
      assert order[..k + 1] == order[..k] + [order[k]];
      counts := counts[order[k] := counts[order[k]] + 1];
      k := k + 1;
    }
    Fair(q, order, short, counts);
  }

  lemma Fair(q: seq<real>, order: seq<nat>, short: nat, counts: seq<int>)
    requires Permutation(order, |q|) && Falling(q, order) && short <= |order| && |counts| == |q|
    requires forall i | 0 <= i < short :: Remainder(q[order[i]]) > 0.0
    requires forall i | 0 <= i < |q| :: counts[i] == q[i].Floor + Extra(order, short, i)
    ensures forall i | 0 <= i < |q| :: counts[i] == q[i].Floor || (counts[i] == q[i].Floor + 1 && Remainder(q[i]) > 0.0)
    ensures forall i, j | 0 <= i < |q| && 0 <= j < |q| && Ahead(q, j, i) && counts[i] == q[i].Floor + 1 ::
              counts[j] == q[j].Floor + 1
  {
    hide Remainder;
    forall i, j | 0 <= i < |q| && 0 <= j < |q| && Ahead(q, j, i) && counts[i] == q[i].Floor + 1
      ensures counts[j] == q[j].Floor + 1
    {
      assert i in order[..short] && j in order;
      var a :| 0 <= a < short && order[a] == i;
      var b :| 0 <= b < |order| && order[b] == j;
      assert b < a;
      assert order[..short][b] == j;
    }
  }

  // ---------------------------------------------------------------- the schedule

  /** How often a level occurs. */
  function Times(s: seq<int>, level: int): nat {
    multiset(s)[level]
  }

  /** The seeded shuffle: from the back, each entry swaps with one at or before it; `picks` is the generator. */
  method Shuffle(a: array<int>, picks: nat -> nat)
    modifies a
    ensures multiset(a[..]) == multiset(old(a[..]))
  {
    var i := a.Length;
    while i > 1
      invariant 0 <= i <= a.Length
      invariant multiset(a[..]) == multiset(old(a[..]))
    {
      i := i - 1;
      var j := picks(i) % (i + 1);
      a[i], a[j] := a[j], a[i];
    }
  }

  function InsertLevel(levels: seq<int>, x: int): seq<int> {
    if levels == [] || levels[|levels| - 1] <= x then levels + [x]
    else InsertLevel(levels[..|levels| - 1], x) + [levels[|levels| - 1]]
  }

  /** The levels in ascending order. */
  function SortedLevels(ws: Weights): seq<int> {
    if ws == [] then [] else InsertLevel(SortedLevels(ws[..|ws| - 1]), ws[|ws| - 1].0)
  }

  predicate Rising(levels: seq<int>) {
    forall i, j | 0 <= i < j < |levels| :: levels[i] < levels[j]
  }

  lemma {:induction false} InsertLevelMembers(levels: seq<int>, x: int, y: int)
    ensures y in InsertLevel(levels, x) <==> y == x || y in levels
    decreases levels
  {
    if levels != [] && levels[|levels| - 1] > x {
      assert levels == levels[..|levels| - 1] + [levels[|levels| - 1]];
      InsertLevelMembers(levels[..|levels| - 1], x, y);
    }
  }

  lemma {:induction false} InsertLevelRising(levels: seq<int>, x: int)
    requires Rising(levels) && x !in levels
    ensures Rising(InsertLevel(levels, x))
    decreases levels
  {
    if levels != [] && levels[|levels| - 1] > x {
      var m := |levels| - 1;
      InsertLevelRising(levels[..m], x);
      var out := InsertLevel(levels[..m], x);
      forall i | 0 <= i < |out|
        ensures out[i] < levels[m]
      {
        InsertLevelMembers(levels[..m], x, out[i]);
      }
    }
  }

  lemma {:induction false} SortedLevelsRising(ws: Weights)
    requires DistinctLevels(ws)
    ensures Rising(SortedLevels(ws))
    ensures forall y :: y in SortedLevels(ws) <==> IndexOf(ws, y) < |ws|
    decreases ws
  {
    hide IndexOf;
    hide InsertLevel;
    if ws != [] {
      var m := |ws| - 1;
      SortedLevelsRising(ws[..m]);
      forall y
        ensures IndexOf(ws, y) < |ws| <==> y in SortedLevels(ws)
      {
        IndexInit(ws, y);
        InsertLevelMembers(SortedLevels(ws[..m]), ws[m].0, y);
      }
      InsertLevelRising(SortedLevels(ws[..m]), ws[m].0);
    }
  }

  /** What the counts ask for. */
  function Bag(ws: Weights, counts: seq<int>): multiset<int>
    requires |counts| == |ws| && forall i | 0 <= i < |ws| :: counts[i] >= 0
  {
    if ws == [] then multiset{}
    else Bag(ws[..|ws| - 1], counts[..|ws| - 1]) + multiset{}[ws[|ws| - 1].0 := counts[|ws| - 1]]
  }

  lemma {:induction false} BagSize(ws: Weights, counts: seq<int>)
    requires |counts| == |ws| && forall i | 0 <= i < |ws| :: counts[i] >= 0
    ensures |Bag(ws, counts)| == Sum(counts)
    decreases ws
  {
    if ws != [] { BagSize(ws[..|ws| - 1], counts[..|ws| - 1]); }
  }

  lemma {:induction false} BagAt(ws: Weights, counts: seq<int>, level: int)
    requires DistinctLevels(ws) && |counts| == |ws| && forall i | 0 <= i < |ws| :: counts[i] >= 0
    ensures Bag(ws, counts)[level] == if IndexOf(ws, level) < |ws| then counts[IndexOf(ws, level)] else 0
    decreases ws
  {
    hide IndexOf;
    if ws != [] {
      BagAt(ws[..|ws| - 1], counts[..|ws| - 1], level);
      IndexInit(ws, level);
    }
  }

  function Copies(x: int, n: nat): (s: seq<int>)
    ensures |s| == n && multiset(s) == multiset{}[x := n]
  {
    if n == 0 then [] else Copies(x, n - 1) + [x]
  }

  /** The schedule before shuffling: each level, in ascending order, as often as it is counted. */
  method Spread(ws: Weights, counts: seq<int>) returns (s: seq<int>)
    requires DistinctLevels(ws) && |counts| == |ws| && forall i | 0 <= i < |ws| :: counts[i] >= 0
    ensures multiset(s) == Bag(ws, counts)
  {
    var levels := SortedLevels(ws);
    SortedLevelsRising(ws);
    s := [];
    for k := 0 to |levels|
      invariant forall level :: multiset(s)[level] == if level in levels[..k] then counts[IndexOf(ws, level)] else 0
    {
      assert levels[k] in levels;
      assert levels[..k + 1] == levels[..k] + [levels[k]];
      assert levels[k] !in levels[..k];
      s := s + Copies(levels[k], counts[IndexOf(ws, levels[k])]);
    }
    assert levels[..|levels|] == levels;
    forall level
      ensures multiset(s)[level] == Bag(ws, counts)[level]
    {
      BagAt(ws, counts, level);
    }
  }

  /** The weighted branch of `build_schedule`: n entries, each level its apportioned share of them. */
  method BuildSchedule(n: nat, parts: seq<(int, real)>, picks: nat -> nat) returns (s: seq<int>, ws: Weights,
                       counts: seq<int>)
    requires (forall i | 0 <= i < |parts| :: parts[i].1 >= 0.0) && exists level :: Weighs(Latest(parts, level))
    ensures DistinctLevels(ws) && FirstOrder(parts, ws) && (forall level :: Get(ws, level) == Latest(parts, level))
    ensures Total(WeightsOf(ws)) > 0.0 && Apportioned(n, Quotas(n, ws), counts)
    ensures |s| == n
    ensures forall level :: Times(s, level) == if IndexOf(ws, level) < |ws| then counts[IndexOf(ws, level)] else 0
  {
    hide *;
    ws := ReadWeights(parts);
    PositiveTotal(parts, ws);
    QuotasTotal(n, ws);
    var q := Quotas(n, ws);
    counts := Apportion(n, q);
    CountsNonNegative(n, ws, counts);
    var sorted := Spread(ws, counts);
    var a := new int[|sorted|](i requires 0 <= i < |sorted| => sorted[i]);
    assert a[..] == sorted;
    Shuffle(a, picks);
    s := a[..];
    BagCounts(ws, counts, s);
    assert Sum(counts) == n by { ApportionedSum(n, q, counts); }
  }

  lemma ApportionedSum(n: nat, q: seq<real>, counts: seq<int>)
    requires Apportioned(n, q, counts)
    ensures Sum(counts) == n
  {
  }

  lemma CountsNonNegative(n: nat, ws: Weights, counts: seq<int>)
    requires Total(WeightsOf(ws)) > 0.0 && (forall i | 0 <= i < |ws| :: ws[i].1 >= 0.0) &&
             Apportioned(n, Quotas(n, ws), counts)
    ensures |counts| == |ws| && forall i | 0 <= i < |ws| :: counts[i] >= 0
  {
    hide Total;
    hide Sum;
    hide Remainder;
    forall i | 0 <= i < |ws|
      ensures counts[i] >= 0
    {
      QuotaNonNegative(n, ws[i].1, Total(WeightsOf(ws)));
    }
  }

  lemma BagCounts(ws: Weights, counts: seq<int>, s: seq<int>)
    requires DistinctLevels(ws) && |counts| == |ws| && (forall i | 0 <= i < |ws| :: counts[i] >= 0) &&
             multiset(s) == Bag(ws, counts)
    ensures |s| == Sum(counts)
    ensures forall level :: Times(s, level) == if IndexOf(ws, level) < |ws| then counts[IndexOf(ws, level)] else 0
  {
    hide Bag;
    BagSize(ws, counts);
    assert |multiset(s)| == |s|;
    forall level
      ensures Times(s, level) == if IndexOf(ws, level) < |ws| then counts[IndexOf(ws, level)] else 0
    {
      BagAt(ws, counts, level);
    }
  }

  predicate Weighs(w: Option<real>) {
    w.Some? && w.value > 0.0
  }

  lemma {:induction false} LatestNonNegative(parts: seq<(int, real)>, level: int)
    requires forall i | 0 <= i < |parts| :: parts[i].1 >= 0.0
    ensures var w := Latest(parts, level); w.Some? ==> w.value >= 0.0
    decreases parts
  {
    if parts != [] { LatestNonNegative(parts[..|parts| - 1], level); }
  }

  lemma PositiveTotal(parts: seq<(int, real)>, ws: Weights)
    requires (forall i | 0 <= i < |parts| :: parts[i].1 >= 0.0) && exists level :: Weighs(Latest(parts, level))
    requires DistinctLevels(ws) && forall level :: Get(ws, level) == Latest(parts, level)
    ensures forall i | 0 <= i < |ws| :: ws[i].1 >= 0.0
    ensures Total(WeightsOf(ws)) > 0.0
  {
    hide Latest;
    hide Total;
    forall i | 0 <= i < |ws|
      ensures ws[i].1 >= 0.0
    {
      IndexUnique(ws, i);
      assert Get(ws, ws[i].0) == Some(ws[i].1);
      LatestNonNegative(parts, ws[i].0);
    }
    var level :| Weighs(Latest(parts, level));
    assert Get(ws, level) == Latest(parts, level);
    TotalAtLeast(WeightsOf(ws), IndexOf(ws, level));
  }

  lemma {:induction false} TotalAtLeast(xs: seq<real>, k: nat)
    requires k < |xs| && forall i | 0 <= i < |xs| :: xs[i] >= 0.0
    ensures Total(xs) >= xs[k]
    decreases xs
  {
    var m := |xs| - 1;
    if k < m {
      TotalAtLeast(xs[..m], k);
    } else {
      NonNegativeTotal(xs[..m]);
    }
  }

  lemma {:induction false} NonNegativeTotal(xs: seq<real>)
    requires forall i | 0 <= i < |xs| :: xs[i] >= 0.0
    ensures Total(xs) >= 0.0
    decreases xs
  {
    if xs != [] { NonNegativeTotal(xs[..|xs| - 1]); }
  }
}
