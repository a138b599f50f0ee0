/** What MOST, LEAST and SORT answer (runtime/sandbox.js). */
module MostLeast {
  import opened Common
  import opened Runtime

  /** The key an element counts under. */
  function KeyOf(x: Value, name: string): Value {
    NarrowId(Prop(x, name))
  }

  /** How many elements count under `k`. */
  function Occurrences(xs: seq<Value>, name: string, k: Value): nat {
    if xs == [] then 0 else (if KeyOf(xs[0], name) == k then 1 else 0) + Occurrences(xs[1..], name, k)
  }

  predicate DistinctKeys(t: Tally) {
    forall i, j | 0 <= i < j < |t| :: t[i].0 != t[j].0
  }

  ghost predicate HasKey(t: Tally, k: Value) {
    exists i :: 0 <= i < |t| && t[i].0 == k
  }

  ghost predicate AmongKeys(xs: seq<Value>, name: string, k: Value) {
    exists i :: 0 <= i < |xs| && KeyOf(xs[i], name) == k
  }

  /** Keys of the elements that are new, in the order they first appear. */
  predicate KeysExtend(t: Tally, out: Tally) {
    |t| <= |out| && forall i | 0 <= i < |t| :: out[i].0 == t[i].0
  }

  lemma BumpExact(t: Tally, k: Value, open: bool)
    requires DistinctKeys(t)
    ensures var out := Bumped(t, k, open);
            && DistinctKeys(out) && KeysExtend(t, out) && |out| <= |t| + 1
            && (|out| > |t| ==> open && out[|t|] == (k, 1) && !HasKey(t, k))
            && (forall i | 0 <= i < |t| :: out[i].1 == t[i].1 + (if t[i].0 == k then 1 else 0))
            && (open ==> HasKey(out, k))
  {
    var i := KeyAt(t, k);
    var out := Bumped(t, k, open);
    if i < |t| { assert out[i].0 == k; } else if open { assert out[|t|].0 == k; }
  }

  /** After the counting loop each key's count is what it was plus its occurrences; new keys are elements' keys. */
  lemma {:induction false} TallyExact(t: Tally, xs: seq<Value>, name: string, open: bool)
    requires DistinctKeys(t)
    ensures var out := Tallied(t, xs, name, open);
            && DistinctKeys(out) && KeysExtend(t, out) && (!open ==> |out| == |t|)
            && (forall i | 0 <= i < |t| :: out[i].1 == t[i].1 + Occurrences(xs, name, out[i].0))
            && (forall i | |t| <= i < |out| ::
                out[i].1 == Occurrences(xs, name, out[i].0) && AmongKeys(xs, name, out[i].0))
            && (open ==> forall k | AmongKeys(xs, name, k) :: HasKey(out, k))
    decreases xs
  {
    hide KeyOf;
    hide Bumped;
    if xs != [] {
      var k := KeyOf(xs[0], name);
      var b := Bumped(t, k, open);
      assert k == NarrowId(Prop(xs[0], name)) by { KeyOfIs(xs[0], name); }
      BumpExact(t, k, open);
      TallyExact(b, xs[1..], name, open);
      var out := Tallied(b, xs[1..], name, open);
      assert Tallied(t, xs, name, open) == out;
      forall i | |t| <= i < |out|
        ensures out[i].1 == Occurrences(xs, name, out[i].0) && AmongKeys(xs, name, out[i].0)
      {
        if i < |b| {
          assert KeyOf(xs[0], name) == out[i].0;
        } else {
          var j :| 0 <= j < |xs[1..]| && KeyOf(xs[1..][j], name) == out[i].0;
          assert KeyOf(xs[j + 1], name) == out[i].0;
        }
      }
      if open {
        forall k' | AmongKeys(xs, name, k')
          ensures HasKey(out, k')
        {
          var j :| 0 <= j < |xs| && KeyOf(xs[j], name) == k';
          if j == 0 {
            var m :| 0 <= m < |b| && b[m].0 == k;
            assert out[m].0 == k';
          } else {
            assert KeyOf(xs[1..][j - 1], name) == k';
          }
        }
      }
    }
  }

  lemma KeyOfIs(x: Value, name: string)
    ensures KeyOf(x, name) == NarrowId(Prop(x, name))
  {
  }

  /** Candidate seeding: distinct candidate ids in candidate order, all at zero. */
  lemma {:induction false} SeedExact(t: Tally, cands: seq<Value>)
    requires DistinctKeys(t) && forall i | 0 <= i < |t| :: t[i].1 == 0
    ensures var out := Seeded(t, cands);
            && DistinctKeys(out) && KeysExtend(t, out)
            && (forall i | 0 <= i < |out| :: out[i].1 == 0)
            && (forall i | 0 <= i < |cands| :: HasKey(out, NarrowId(cands[i])))
            && (forall i | |t| <= i < |out| :: exists j :: 0 <= j < |cands| && NarrowId(cands[j]) == out[i].0)
    decreases cands
  {
    hide NarrowId;
    if cands != [] {
      var k := NarrowId(cands[0]);
      var i := KeyAt(t, k);
      var t1 := if i < |t| then t[i := (k, 0)] else t + [(k, 0)];
      SeedExact(t1, cands[1..]);
      var out := Seeded(t1, cands[1..]);
      assert t1[i].0 == k && out[i].0 == k;
      forall j | 0 <= j < |cands|
        ensures HasKey(out, NarrowId(cands[j]))
      {
        if j > 0 { assert cands[j] == cands[1..][j - 1]; }
      }
      forall m | |t| <= m < |out|
        ensures exists j :: 0 <= j < |cands| && NarrowId(cands[j]) == out[m].0
      {
        if m < |t1| {
          assert NarrowId(cands[0]) == out[m].0;
        } else {
          var j :| 0 <= j < |cands[1..]| && NarrowId(cands[1..][j]) == out[m].0;
          assert NarrowId(cands[j + 1]) == out[m].0;
        }
      }
    }
  }

  /** `i` is the winning position: no key beats it, and it beats every earlier one. */
  ghost predicate Wins(t: Tally, i: nat, least: bool) {
    i < |t| && (forall j | 0 <= j < |t| :: !Beats(t[j].1, t[i].1, least)) &&
        (forall j | 0 <= j < i :: Beats(t[i].1, t[j].1, least))
  }

  lemma {:induction false} BestFrom(t: Tally, i: nat, b: nat, least: bool) returns (k: nat)
    requires b < i <= |t|
    requires (forall j | 0 <= j < i :: !Beats(t[j].1, t[b].1, least)) &&
             (forall j | 0 <= j < b :: Beats(t[b].1, t[j].1, least))
    ensures Wins(t, k, least) && Best(t, i, Some(t[b]), least) == t[k].0
    decreases |t| - i
  {
    if i == |t| {
      k := b;
    } else if Beats(t[i].1, t[b].1, least) {
      k := BestFrom(t, i + 1, i, least);
    } else {
      k := BestFrom(t, i + 1, b, least);
    }
  }

  /** MOST / LEAST without candidates answer a key shared by the most (fewest) elements: present among the elements,
      beaten by no other key present, and null only when there are no elements. */
  lemma ExtremeAmongPresent(xs: seq<Value>, name: string, least: bool)
    ensures var r := Best(CountsOf(xs, name, Nil), 0, None, least);
            if xs == [] then r == Nil
            else AmongKeys(xs, name, r) &&
                 forall k | AmongKeys(xs, name, k) :: !Beats(Occurrences(xs, name, k), Occurrences(xs, name, r), least)
  {
    assert Tallied([], [], name, true) == [];
    hide KeyOf;
    hide Tallied;
    TallyExact([], xs, name, true);
    var t := CountsOf(xs, name, Nil);
    if xs == [] {
      assert t == [];
    } else {
      assert AmongKeys(xs, name, KeyOf(xs[0], name));
      assert HasKey(t, KeyOf(xs[0], name));
      var k := BestFrom(t, 1, 0, least);
      forall q | AmongKeys(xs, name, q)
        ensures !Beats(Occurrences(xs, name, q), Occurrences(xs, name, t[k].0), least)
      {
        var m :| 0 <= m < |t| && t[m].0 == q;
      }
    }
  }

  /** With a candidate list the answer is a candidate's id, zeros included: no candidate is shared by more (fewer). */
  lemma ExtremeAmongCandidates(xs: seq<Value>, name: string, cands: seq<Value>, least: bool)
    ensures var r := Best(CountsOf(xs, name, List(cands)), 0, None, least);
            if cands == [] then r == Nil
            else (exists j :: 0 <= j < |cands| && NarrowId(cands[j]) == r) &&
                 forall j | 0 <= j < |cands| ::
                   !Beats(Occurrences(xs, name, NarrowId(cands[j])), Occurrences(xs, name, r), least)
  {
    assert Seeded([], []) == [];
    hide NarrowId;
    hide Tallied;
    hide Seeded;
    SeedExact([], cands);
    var s := Seeded([], cands);
    TallyExact(s, xs, name, false);
    var t := CountsOf(xs, name, List(cands));
    if cands == [] {
      assert t == [];
    } else {
      assert HasKey(s, NarrowId(cands[0]));
      var k := BestFrom(t, 1, 0, least);
      assert t[k].0 == s[k].0;
      forall j | 0 <= j < |cands|
        ensures !Beats(Occurrences(xs, name, NarrowId(cands[j])), Occurrences(xs, name, t[k].0), least)
      {
        var m :| 0 <= m < |s| && s[m].0 == NarrowId(cands[j]);
        assert t[m].0 == NarrowId(cands[j]);
      }
    }
  }

  /** `extremeBy`: the counting loop over the elements and the scan over the counts. */
  method ExtremeBy(xs: seq<Value>, name: string, cands: Value, least: bool) returns (best: Value)
    ensures best == Best(CountsOf(xs, name, cands), 0, None, least)
  {
    var counts: Tally := [];
    if cands.List? {
      for i := 0 to |cands.elems|
        invariant Seeded(counts, cands.elems[i..]) == Seeded([], cands.elems)
      {
        assert cands.elems[i..][1..] == cands.elems[i + 1..];
        var k := NarrowId(cands.elems[i]);
        var at := KeyAt(counts, k);
        counts := if at < |counts| then counts[at := (k, 0)] else counts + [(k, 0)];
      }
    }
    ghost var seeded := counts;
    for i := 0 to |xs|
      invariant Tallied(counts, xs[i..], name, !cands.List?) == Tallied(seeded, xs, name, !cands.List?)
    {
      assert xs[i..][1..] == xs[i + 1..];
      counts := Bumped(counts, NarrowId(Prop(xs[i], name)), !cands.List?);
    }
    var found: Option<(Value, nat)> := None;
    for i := 0 to |counts|
      invariant Best(counts, i, found, least) == Best(counts, 0, None, least)
    {
      if found.None? || Beats(counts[i].1, found.value.1, least) { found := Some(counts[i]); }
    }
    best := if found.Some? then found.value.0 else Nil;
  }

  // ---------------------------------------------------------------- SORT

  lemma {:induction false} InsertPermutes(before: (Value, Value) -> bool, x: Value, ys: seq<Value>)
    ensures multiset(Inserted(before, x, ys)) == multiset(ys) + multiset{x}
    decreases ys
  {
    if ys != [] && before(ys[0], x) {
      InsertPermutes(before, x, ys[1..]);
      assert ys == [ys[0]] + ys[1..];
    }
  }

  lemma {:induction false} SortPermutes(before: (Value, Value) -> bool, xs: seq<Value>)
    ensures multiset(StableSort(before, xs)) == multiset(xs)
    decreases xs
  {
    if xs != [] {
      SortPermutes(before, xs[1..]);
      InsertPermutes(before, xs[0], StableSort(before, xs[1..]));
      assert xs == [xs[0]] + xs[1..];
    }
  }

  /** Among the values of `dom`, `before` orders strictly and weakly. */
  ghost predicate WeakOrder(before: (Value, Value) -> bool, dom: set<Value>) {
    && (forall x, y | x in dom && y in dom :: before(x, y) ==> !before(y, x))
    && (forall x, y, z | x in dom && y in dom && z in dom :: !before(y, x) && !before(z, y) ==> !before(z, x))
  }

  predicate Among(xs: seq<Value>, dom: set<Value>) {
    forall x | x in xs :: x in dom
  }

  ghost predicate Ordered(before: (Value, Value) -> bool, xs: seq<Value>) {
    forall i, j | 0 <= i < j < |xs| :: !before(xs[j], xs[i])
  }

  lemma {:induction false} InsertOrders(before: (Value, Value) -> bool, x: Value, ys: seq<Value>, dom: set<Value>)
    requires WeakOrder(before, dom) && x in dom && Among(ys, dom) && Ordered(before, ys)
    ensures Ordered(before, Inserted(before, x, ys))
    ensures forall y | y in Inserted(before, x, ys) :: y == x || y in ys
    decreases ys
  {
    if ys != [] {
      if before(ys[0], x) {
        InsertOrders(before, x, ys[1..], dom);
        var rest := Inserted(before, x, ys[1..]);
        forall y | y in rest
          ensures !before(y, ys[0])
        {
          if y in ys[1..] { var j :| 0 <= j < |ys[1..]| && ys[1..][j] == y; assert ys[j + 1] == y; }
        }
      } else {
        forall y | y in ys
          ensures !before(y, x)
        {
          var j :| 0 <= j < |ys| && ys[j] == y;
        }
      }
    }
  }

  lemma SortAmong(before: (Value, Value) -> bool, xs: seq<Value>, dom: set<Value>)
    requires Among(xs, dom)
    ensures Among(StableSort(before, xs), dom)
  {
    SortPermutes(before, xs);
    forall x | x in StableSort(before, xs)
      ensures x in dom
    {
      assert x in multiset(StableSort(before, xs));
      assert x in multiset(xs);
    }
  }

  lemma {:induction false} SortOrders(before: (Value, Value) -> bool, xs: seq<Value>, dom: set<Value>)
    requires WeakOrder(before, dom) && Among(xs, dom)
    ensures Ordered(before, StableSort(before, xs))
    decreases xs
  {
    hide Ordered;
    hide WeakOrder;
    if xs != [] {
      SortOrders(before, xs[1..], dom);
      SortAmong(before, xs[1..], dom);
      InsertOrders(before, xs[0], StableSort(before, xs[1..]), dom);
    } else {
      NothingOrdered(before);
    }
  }

  lemma NothingOrdered(before: (Value, Value) -> bool)
    ensures Ordered(before, [])
  {
  }

  /** The elements `before` cannot tell from `k`, in their order. */
  function Equivalent(before: (Value, Value) -> bool, k: Value, xs: seq<Value>): seq<Value> {
    if xs == [] then []
    else (if !before(xs[0], k) && !before(k, xs[0]) then [xs[0]] else []) + Equivalent(before, k, xs[1..])
  }

  lemma EquivalentHead(before: (Value, Value) -> bool, k: Value, x: Value, ys: seq<Value>)
    ensures Equivalent(before, k, [x] + ys) == (if !before(x, k) && !before(k, x) then [x] else []) +
            Equivalent(before, k, ys)
  {
    assert ([x] + ys)[1..] == ys;
  }

  lemma {:induction false} InsertStable(before: (Value, Value) -> bool, k: Value, x: Value, ys: seq<Value>,
                                        dom: set<Value>)
    requires WeakOrder(before, dom) && k in dom && x in dom && Among(ys, dom)
    ensures Equivalent(before, k, Inserted(before, x, ys)) ==
            (if !before(x, k) && !before(k, x) then [x] else []) + Equivalent(before, k, ys)
    decreases ys
  {
    hide Equivalent;
    var here := if !before(x, k) && !before(k, x) then [x] else [];
    if ys != [] && before(ys[0], x) {
      var y, rest := ys[0], ys[1..];
      assert ys == [y] + rest;
      InsertStable(before, k, x, rest, dom);
      EquivalentHead(before, k, y, Inserted(before, x, rest));
      EquivalentHead(before, k, y, rest);
      var first := if !before(y, k) && !before(k, y) then [y] else [];
      assert first == [] || here == [];
      hide *;
      var same := Equivalent(before, k, rest);
      assert first + (here + same) == here + (first + same);
    } else {
      EquivalentHead(before, k, x, ys);
    }
  }

  lemma {:induction false} SortStable(before: (Value, Value) -> bool, k: Value, xs: seq<Value>, dom: set<Value>)
    requires WeakOrder(before, dom) && k in dom && Among(xs, dom)
    ensures Equivalent(before, k, StableSort(before, xs)) == Equivalent(before, k, xs)
    decreases xs
  {
    hide WeakOrder;
    if xs != [] {
      SortStable(before, k, xs[1..], dom);
      SortAmong(before, xs[1..], dom);
      InsertStable(before, k, xs[0], StableSort(before, xs[1..]), dom);
    }
  }

  // ---------------------------------------------------------------- the comparator

  lemma {:induction false} TextAsymmetric(a: string, b: string)
    ensures TextLess(a, b) ==> !TextLess(b, a)
    decreases a
  {
    if a != "" && b != "" { TextAsymmetric(a[1..], b[1..]); }
  }

  lemma {:induction false} TextWeak(a: string, b: string, c: string)
    ensures !TextLess(b, a) && !TextLess(c, b) ==> !TextLess(c, a)
    decreases a
  {
    if a != "" && b != "" && c != "" { TextWeak(a[1..], b[1..], c[1..]); }
  }

  /** Texts neither of which is less are the same. */
  lemma {:induction false} TextTotal(a: string, b: string)
    ensures TextLess(a, b) || TextLess(b, a) || a == b
    decreases a
  {
    if a != "" && b != "" {
      TextTotal(a[1..], b[1..]);
      assert a == [a[0]] + a[1..] && b == [b[0]] + b[1..];
    }
  }

  /** Every key compares as a number: numbers, truth values and nulls. */
  predicate NumberKeys(xs: seq<Value>, name: string) {
    forall x | x in xs :: AsNumber(Raw(x, name)).Some?
  }

  predicate TextKeys(xs: seq<Value>, name: string) {
    forall x | x in xs :: Raw(x, name).Str?
  }

  /** The comparator of `sortBy`. */
  function Comparator(cfg: Config, name: string, desc: bool): (Value, Value) -> bool {
    (x, y) => Before(cfg, name, desc, x, y)
  }

  lemma ComparatorOrders(cfg: Config, name: string, desc: bool, xs: seq<Value>)
    requires NumberKeys(xs, name) || TextKeys(xs, name)
    ensures WeakOrder(Comparator(cfg, name, desc), set x | x in xs)
  {
    hide AsNumber;
    hide TextLess;
    hide Raw;
    var dom := set x | x in xs;
    var before := Comparator(cfg, name, desc);
    if TextKeys(xs, name) {
      forall x, y | x in dom && y in dom
        ensures before(x, y) ==> !before(y, x)
      {
        TextAsymmetric(Raw(x, name).s, Raw(y, name).s);
      }
      forall x, y, z | x in dom && y in dom && z in dom
        ensures !before(y, x) && !before(z, y) ==> !before(z, x)
      {
        TextOrder(cfg, name, desc, x, y, z);
      }
    } else {
      forall x, y, z | x in dom && y in dom && z in dom
        ensures before(x, y) ==> !before(y, x)
        ensures !before(y, x) && !before(z, y) ==> !before(z, x)
      {
        NumberOrder(cfg, name, desc, x, y, z);
      }
    }
  }

  lemma TextOrder(cfg: Config, name: string, desc: bool, x: Value, y: Value, z: Value)
    requires Raw(x, name).Str? && Raw(y, name).Str? && Raw(z, name).Str?
    ensures !Before(cfg, name, desc, y, x) && !Before(cfg, name, desc, z, y) ==> !Before(cfg, name, desc, z, x)
  {
    hide TextLess;
    var a, b, c := Raw(x, name).s, Raw(y, name).s, Raw(z, name).s;
    TextAsymmetric(a, b);
    TextAsymmetric(b, c);
    TextAsymmetric(a, c);
    TextWeak(a, b, c);
    TextWeak(c, b, a);
  }

  lemma NumberOrder(cfg: Config, name: string, desc: bool, x: Value, y: Value, z: Value)
    requires AsNumber(Raw(x, name)).Some? && AsNumber(Raw(y, name)).Some? && AsNumber(Raw(z, name)).Some?
    ensures Before(cfg, name, desc, x, y) ==> !Before(cfg, name, desc, y, x)
    ensures !Before(cfg, name, desc, y, x) && !Before(cfg, name, desc, z, y) ==> !Before(cfg, name, desc, z, x)
  {
    hide TextLess;
  }

  /** In order of their keys: ascending, or descending, as numbers or as texts. */
  predicate KeysSorted(xs: seq<Value>, name: string, desc: bool)
    requires NumberKeys(xs, name) || TextKeys(xs, name)
  {
    if TextKeys(xs, name) then
      forall i, j | 0 <= i < j < |xs| ::
        var a, b := Raw(xs[i], name).s, Raw(xs[j], name).s;
        a == b || (if desc then TextLess(b, a) else TextLess(a, b))
    else
      forall i, j | 0 <= i < j < |xs| ::
        var a, b := AsNumber(Raw(xs[i], name)).value, AsNumber(Raw(xs[j], name)).value;
        if desc then a >= b else a <= b
  }

  lemma OrderedKeys(cfg: Config, xs: seq<Value>, name: string, desc: bool)
    requires (NumberKeys(xs, name) || TextKeys(xs, name)) && Ordered(Comparator(cfg, name, desc), xs)
    ensures KeysSorted(xs, name, desc)
  {
    hide TextLess;
    hide Raw;
    hide AsNumber;
    forall i, j | 0 <= i < j < |xs|
      ensures !Before(cfg, name, desc, xs[j], xs[i])
      ensures TextKeys(xs, name) ==>
              var a, b := Raw(xs[i], name).s, Raw(xs[j], name).s;
              a == b || (if desc then TextLess(b, a) else TextLess(a, b))
      ensures !TextKeys(xs, name) ==>
              var a, b := AsNumber(Raw(xs[i], name)).value, AsNumber(Raw(xs[j], name)).value;
              if desc then a >= b else a <= b
    {
      assert !Comparator(cfg, name, desc)(xs[j], xs[i]);
      KeysInOrder(cfg, name, desc, xs[i], xs[j]);
    }
  }

  lemma KeysInOrder(cfg: Config, name: string, desc: bool, x: Value, y: Value)
    requires !Before(cfg, name, desc, y, x)
    ensures Raw(x, name).Str? && Raw(y, name).Str? ==>
            var a, b := Raw(x, name).s, Raw(y, name).s;
            a == b || (if desc then TextLess(b, a) else TextLess(a, b))
    ensures AsNumber(Raw(x, name)).Some? && AsNumber(Raw(y, name)).Some? ==>
            var a, b := AsNumber(Raw(x, name)).value, AsNumber(Raw(y, name)).value;
            if desc then a >= b else a <= b
  {
    hide TextLess;
    if Raw(x, name).Str? && Raw(y, name).Str? {
      TextTotal(Raw(x, name).s, Raw(y, name).s);
      TextAsymmetric(Raw(x, name).s, Raw(y, name).s);
    }
  }

  /** SORT by a field whose values compare, all as numbers or all as texts: the same elements, in order of that field,
      and elements the comparator cannot tell apart in the order they had. */
  lemma SortByKeys(cfg: Config, v: Value, sym: string, desc: bool)
    requires SortValue(cfg, v, sym, desc).Ok?
    requires NumberKeys(v.elems, cfg.fields[sym]) || TextKeys(v.elems, cfg.fields[sym])
    ensures var name, r := cfg.fields[sym], SortValue(cfg, v, sym, desc).value;
            && r.List? && multiset(r.elems) == multiset(v.elems)
            && (NumberKeys(r.elems, name) || TextKeys(r.elems, name)) && KeysSorted(r.elems, name, desc)
            && forall k | k in v.elems ::
                 Equivalent(Comparator(cfg, name, desc), k, r.elems) ==
                     Equivalent(Comparator(cfg, name, desc), k, v.elems)
  {
    hide StableSort;
    hide Raw;
    hide AsNumber;
    hide KeysSorted;
    hide Ordered;
    hide WeakOrder;
    hide Equivalent;
    var name, xs := cfg.fields[sym], v.elems;
    var before := Comparator(cfg, name, desc);
    var dom := set x | x in xs;
    var out := SortValue(cfg, v, sym, desc).value.elems;
    SameSort(before, (x, y) => Before(cfg, name, desc, x, y), xs);
    assert out == StableSort(before, xs);
    ComparatorOrders(cfg, name, desc, xs);
    SortPermutes(before, xs);
    SortAmong(before, xs, dom);
    SortOrders(before, xs, dom);
    assert NumberKeys(xs, name) ==> NumberKeys(out, name);
    assert TextKeys(xs, name) ==> TextKeys(out, name);
    OrderedKeys(cfg, out, name, desc);
    forall k | k in xs
      ensures Equivalent(before, k, out) == Equivalent(before, k, xs)
    {
      SortStable(before, k, xs, dom);
    }
  }

  lemma {:induction false} SameSort(before1: (Value, Value) -> bool, before2: (Value, Value) -> bool, xs: seq<Value>)
    requires forall x, y :: before1(x, y) == before2(x, y)
    ensures StableSort(before1, xs) == StableSort(before2, xs)
    decreases xs
  {
    if xs != [] {
      SameSort(before1, before2, xs[1..]);
      SameInsert(before1, before2, xs[0], StableSort(before1, xs[1..]));
    }
  }

  lemma {:induction false} SameInsert(before1: (Value, Value) -> bool, before2: (Value, Value) -> bool, x: Value,
                                      ys: seq<Value>)
    requires forall x, y :: before1(x, y) == before2(x, y)
    ensures Inserted(before1, x, ys) == Inserted(before2, x, ys)
    decreases ys
  {
    if ys != [] { SameInsert(before1, before2, x, ys[1..]); }
  }
}
