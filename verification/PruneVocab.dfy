/** The vocabulary prune (baselines/qwen/prune_vocab.py). */
module PruneVocab {
  import opened SortedSets

  /** Two token strings that merge into their concatenation; a merge's rank is its place in the list. */
  type Merge = (string, string)

  function Product(m: Merge): string {
    m.0 + m.1
  }

  datatype Added = Added(id: nat, content: string)

  datatype Tokenizer = Tokenizer(vocab: map<string, nat>, merges: seq<Merge>, added: seq<Added>)

  // ---------------------------------------------------------------- byte-pair tokenization

  /** The first adjacent occurrence of the pair, or |s|. */
  function FirstAt(s: seq<string>, m: Merge): (i: nat)
    ensures i < |s| ==> i + 1 < |s| && s[i] == m.0 && s[i + 1] == m.1
    ensures i <= |s|
    ensures forall j | 0 <= j < i && j + 1 < |s| :: (s[j], s[j + 1]) != m
  {
    if |s| < 2 then |s|
    else if (s[0], s[1]) == m then 0
    else 1 + FirstAt(s[1..], m)
  }

  function Joined(s: seq<string>, i: nat): (r: seq<string>)
    requires i + 1 < |s|
  {
    s[..i] + [s[i] + s[i + 1]] + s[i + 2..]
  }

  /** One round: the earliest merge in the list that occurs anywhere, at its first occurrence. */
  function Next(merges: seq<Merge>, s: seq<string>): (r: seq<string>)
    ensures |r| == |s| || |r| == |s| - 1
  {
    if merges == [] then s
    else
      var i := FirstAt(s, merges[0]);
      if i < |s| then Joined(s, i) else Next(merges[1..], s)
  }

  /** Rounds until no merge applies. */
  function Tokenize(merges: seq<Merge>, s: seq<string>): seq<string>
    decreases |s|
  {
    var t := Next(merges, s);
    if |t| == |s| then s else Tokenize(merges, t)
  }

  // ---------------------------------------------------------------- the parents table

  /** `parents`: the sides of the last merge that produces each token. */
  function Parents(vocab: map<string, nat>, merges: seq<Merge>): map<nat, (nat, nat)>
    requires SidesKnown(vocab, merges)
  {
    if merges == [] then map[]
    else
      var last := merges[|merges| - 1];
      var rest := Parents(vocab, merges[..|merges| - 1]);
      if Product(last) in vocab then rest[vocab[Product(last)] := (vocab[last.0], vocab[last.1])] else rest
  }

  /** `vocab[a]` and `vocab[b]` are looked up whenever the product is a token. */
  predicate SidesKnown(vocab: map<string, nat>, merges: seq<Merge>) {
    forall i | 0 <= i < |merges| :: Product(merges[i]) in vocab ==> merges[i].0 in vocab && merges[i].1 in vocab
  }

  method BuildParents(vocab: map<string, nat>, merges: seq<Merge>) returns (parents: map<nat, (nat, nat)>)
    requires SidesKnown(vocab, merges)
    ensures parents == Parents(vocab, merges)
  {
    parents := map[];
    for i := 0 to |merges|
      invariant parents == Parents(vocab, merges[..i])
    {
      var m := merges[i];
      assert merges[..i + 1][..i] == merges[..i];
      if Product(m) in vocab {
        parents := parents[vocab[Product(m)] := (vocab[m.0], vocab[m.1])];
      }
    }
    assert merges[..|merges|] == merges;
  }

  // ---------------------------------------------------------------- closing the keep-set

  predicate ClosedAt(parents: map<nat, (nat, nat)>, keep: set<nat>, t: nat) {
    t in parents ==> parents[t].0 in keep && parents[t].1 in keep
  }

  predicate ClosedUnder(parents: map<nat, (nat, nat)>, keep: set<nat>) {
    forall t | t in keep :: ClosedAt(parents, keep, t)
  }

  function AllParents(parents: map<nat, (nat, nat)>): set<nat> {
    (set t | t in parents :: parents[t].0) + (set t | t in parents :: parents[t].1)
  }

  /** Some enumeration of the set. */
  method Listed(s: set<nat>) returns (xs: seq<nat>)
    ensures forall x :: x in xs <==> x in s
  {
    xs := [];
    var rest := s;
    while rest != {}
      invariant rest <= s
      invariant forall x :: x in xs <==> x in s - rest
      decreases rest
    {
      var x :| x in rest;
      xs := xs + [x];
      rest := rest - {x};
    }
  }

  /** `keep` lies in every closed set that holds the seeds. */
  ghost predicate Least(parents: map<nat, (nat, nat)>, seeds: set<nat>, keep: set<nat>) {
    forall c: set<nat> | seeds <= c && ClosedUnder(parents, c) :: keep <= c
  }

  lemma LeastGrows(parents: map<nat, (nat, nat)>, seeds: set<nat>, keep: set<nat>, t: nat, p: nat)
    requires Least(parents, seeds, keep) && t in keep && t in parents && (p == parents[t].0 || p == parents[t].1)
    ensures Least(parents, seeds, keep + {p})
  {
    forall c: set<nat> | seeds <= c && ClosedUnder(parents, c)
      ensures keep + {p} <= c
    {
      assert t in c && ClosedAt(parents, c, t);
    }
  }

  /** Every kept token is on the stack or has its parents kept. */
  ghost predicate Pending(parents: map<nat, (nat, nat)>, keep: set<nat>, stack: seq<nat>) {
    && (forall t | t in stack :: t in keep)
    && (forall t | t in keep :: t in stack || ClosedAt(parents, keep, t))
  }

  lemma PendingPush(parents: map<nat, (nat, nat)>, keep: set<nat>, stack: seq<nat>, t: nat, p: nat)
    requires t in keep && Pending(parents, keep, stack + [t]) && p !in keep
    ensures Pending(parents, keep + {p}, stack + [p] + [t])
  {
    var keep', stack' := keep + {p}, stack + [p] + [t];
    forall x | x in keep'
      ensures x in stack' || ClosedAt(parents, keep', x)
    {
      if x == p {
        assert stack'[|stack|] == p;
      } else if x in stack + [t] {
        assert x in stack || x == t;
      } else {
        assert ClosedAt(parents, keep, x);
      }
    }
  }

  lemma PendingPop(parents: map<nat, (nat, nat)>, keep: set<nat>, stack: seq<nat>, t: nat)
    requires Pending(parents, keep, stack + [t]) && ClosedAt(parents, keep, t)
    ensures Pending(parents, keep, stack)
  {
    forall x | x in stack
      ensures x in keep
    {
      assert x in stack + [t];
    }
    forall x | x in keep
      ensures x in stack || ClosedAt(parents, keep, x)
    {
      if x in stack + [t] { assert x in stack || x == t; }
    }
  }

  /** The worklist ends with the least set that holds the seeds and the parents of each of its tokens. */
  method Close(parents: map<nat, (nat, nat)>, seeds: set<nat>) returns (keep: set<nat>)
    ensures seeds <= keep && ClosedUnder(parents, keep) && Least(parents, seeds, keep)
  {
    hide Least;
    hide Pending;
    hide ClosedUnder;
    hide AllParents;
    keep := seeds;
    var stack := Listed(keep);
    assert Least(parents, seeds, keep) by { Seeded(parents, seeds, stack); }
    assert Pending(parents, keep, stack) by { Seeded(parents, seeds, stack); }
    ghost var universe := seeds + AllParents(parents);
    while stack != []
      invariant seeds <= keep <= universe
      invariant Pending(parents, keep, stack)
      invariant Least(parents, seeds, keep)
      decreases |universe - keep|, |stack|
    {
      ghost var before := keep;
      var t := stack[|stack| - 1];
      assert t in keep by { OnStack(parents, keep, stack, t); }
      assert stack == stack[..|stack| - 1] + [t];
      stack := stack[..|stack| - 1];
      if t in parents {
        ParentsListed(parents, t);
        if parents[t].0 !in keep {
          PendingPush(parents, keep, stack, t, parents[t].0);
          LeastGrows(parents, seeds, keep, t, parents[t].0);
          keep := keep + {parents[t].0};
          stack := stack + [parents[t].0];
        }
        if parents[t].1 !in keep {
          PendingPush(parents, keep, stack, t, parents[t].1);
          LeastGrows(parents, seeds, keep, t, parents[t].1);
          keep := keep + {parents[t].1};
          stack := stack + [parents[t].1];
        }
      }
      PendingPop(parents, keep, stack, t);
      if keep != before {
        assert universe - keep < universe - before;
        StrictSubset(universe - keep, universe - before);
      }
    }
    assert ClosedUnder(parents, keep) by { NothingPending(parents, keep); }
  }

  lemma Seeded(parents: map<nat, (nat, nat)>, seeds: set<nat>, stack: seq<nat>)
    requires forall x :: x in stack <==> x in seeds
    ensures Least(parents, seeds, seeds) && Pending(parents, seeds, stack)
  {
  }

  lemma OnStack(parents: map<nat, (nat, nat)>, keep: set<nat>, stack: seq<nat>, t: nat)
    requires Pending(parents, keep, stack) && t in stack
    ensures t in keep
  {
  }

  lemma ParentsListed(parents: map<nat, (nat, nat)>, t: nat)
    requires t in parents
    ensures parents[t].0 in AllParents(parents) && parents[t].1 in AllParents(parents)
  {
  }

  lemma NothingPending(parents: map<nat, (nat, nat)>, keep: set<nat>)
    requires Pending(parents, keep, [])
    ensures ClosedUnder(parents, keep)
  {
  }

  lemma StrictSubset(a: set<nat>, b: set<nat>)
    requires a < b
    ensures |a| < |b|
  {
    assert b == a + (b - a) && b - a != {};
  }

  // ---------------------------------------------------------------- renumbering

  /** `remap`: each kept id to its position among the kept ids. */
  function Remap(oldIds: seq<nat>): map<nat, nat> {
    map o | o in oldIds :: IndexOf(oldIds, o)
  }

  function IndexOf(xs: seq<nat>, x: nat): (i: nat)
    requires x in xs
    ensures i < |xs| && xs[i] == x
  {
    if xs[0] == x then 0 else 1 + IndexOf(xs[1..], x)
  }

  lemma RemapIndex(ids: seq<nat>, o: nat)
    requires o in ids
    ensures o in Remap(ids) && Remap(ids)[o] == IndexOf(ids, o)
  {
  }

  lemma RemapKeys(ids: seq<nat>, kept: set<nat>)
    requires forall x :: x in ids <==> x in kept
    ensures Remap(ids).Keys == kept
  {
  }

  lemma RemapAt(kept: set<nat>, o: nat)
    requires o in kept
    ensures var xs := Sorted(kept); o in Remap(xs) && Remap(xs)[o] < |xs| && xs[Remap(xs)[o]] == o
  {
    RemapIndex(Sorted(kept), o);
  }

  lemma InOrder(xs: seq<nat>, a: nat, b: nat)
    requires a < |xs| && b < |xs| && forall i, j | 0 <= i < j < |xs| :: xs[i] < xs[j]
    ensures a < b <==> xs[a] < xs[b]
    ensures xs[a] == xs[b] ==> a == b
  {
  }

  lemma RemapHits(kept: set<nat>, n: nat)
    requires n < |kept|
    ensures var xs := Sorted(kept); xs[n] in kept && xs[n] in Remap(xs) && Remap(xs)[xs[n]] == n
  {
    hide Remap;
    hide Sorted;
    var xs := Sorted(kept);
    assert xs[n] in xs;
    RemapAt(kept, xs[n]);
    InOrder(xs, Remap(xs)[xs[n]], n);
  }

  lemma RemapRises(kept: set<nat>, o: nat, p: nat)
    requires o in kept && p in kept
    ensures var r := Remap(Sorted(kept)); o in r && p in r && (o < p <==> r[o] < r[p])
  {
    hide Remap;
    hide Sorted;
    RemapAt(kept, o);
    RemapAt(kept, p);
    InOrder(Sorted(kept), Remap(Sorted(kept))[o], Remap(Sorted(kept))[p]);
  }

  lemma RemapDomain(kept: set<nat>)
    ensures Remap(Sorted(kept)).Keys == kept
  {
    hide Remap;
    hide Sorted;
    RemapKeys(Sorted(kept), kept);
  }

  /** The renumbering is an order-preserving bijection from the kept ids onto 0..n-1: the n-th id in order gets number
      n. */
  lemma RemapOrderBijection(kept: set<nat>)
    ensures Remap(Sorted(kept)).Keys == kept
    ensures forall n: nat | n < |kept| :: Sorted(kept)[n] in kept && Remap(Sorted(kept))[Sorted(kept)[n]] == n
    ensures forall o | o in kept :: Remap(Sorted(kept))[o] < |kept|
    ensures forall o, p | o in kept && p in kept :: o < p <==> Remap(Sorted(kept))[o] < Remap(Sorted(kept))[p]
  {
    hide *;
    RemapDomain(kept);
    forall n: nat | n < |kept|
      ensures Sorted(kept)[n] in kept && Remap(Sorted(kept))[Sorted(kept)[n]] == n
    {
      RemapHits(kept, n);
    }
    forall o | o in kept
      ensures Remap(Sorted(kept))[o] < |kept|
    {
      RemapAt(kept, o);
    }
    forall o, p | o in kept && p in kept
      ensures o < p <==> Remap(Sorted(kept))[o] < Remap(Sorted(kept))[p]
    {
      RemapRises(kept, o, p);
    }
  }

  // ---------------------------------------------------------------- the pruned tokenizer

  predicate AddedId(added: seq<Added>, id: nat) {
    exists i | 0 <= i < |added| :: added[i].id == id
  }

  /** Kept ids that name a token of the vocabulary or an added token. */
  function OldIds(t: Tokenizer, keep: set<nat>): seq<nat> {
    Sorted(set o | o in keep && (o in t.vocab.Values || AddedId(t.added, o)))
  }

  predicate KeptToken(vocab: map<string, nat>, keep: set<nat>, tok: string) {
    tok in vocab && vocab[tok] in keep
  }

  predicate KeptMerge(vocab: map<string, nat>, keep: set<nat>, m: Merge) {
    KeptToken(vocab, keep, Product(m)) && KeptToken(vocab, keep, m.0) && KeptToken(vocab, keep, m.1)
  }

  /** `new_merges`: the merges whose product and sides are all kept, in their old order. */
  function Filtered(vocab: map<string, nat>, keep: set<nat>, merges: seq<Merge>): seq<Merge> {
    if merges == [] then []
    else (if KeptMerge(vocab, keep, merges[0]) then [merges[0]] else []) + Filtered(vocab, keep, merges[1..])
  }

  lemma {:induction false} FilteredSnoc(vocab: map<string, nat>, keep: set<nat>, merges: seq<Merge>, m: Merge)
    ensures Filtered(vocab, keep, merges + [m]) ==
            Filtered(vocab, keep, merges) + (if KeptMerge(vocab, keep, m) then [m] else [])
    decreases merges
  {
    hide KeptMerge;
    if merges == [] {
      assert [] + [m] == [m] && [m][1..] == [];
    } else {
      assert (merges + [m])[1..] == merges[1..] + [m] && (merges + [m])[0] == merges[0];
      FilteredSnoc(vocab, keep, merges[1..], m);
      var head := if KeptMerge(vocab, keep, merges[0]) then [merges[0]] else [];
      var tail := if KeptMerge(vocab, keep, m) then [m] else [];
      var mid := Filtered(vocab, keep, merges[1..]);
      assert Filtered(vocab, keep, merges + [m]) == head + (mid + tail);
      assert head + (mid + tail) == (head + mid) + tail;
    }
  }

  method FilterMerges(vocab: map<string, nat>, keep: set<nat>, merges: seq<Merge>) returns (kept: seq<Merge>)
    ensures kept == Filtered(vocab, keep, merges)
  {
    hide KeptMerge;
    kept := [];
    for i := 0 to |merges|
      invariant kept == Filtered(vocab, keep, merges[..i])
    {
      FilteredSnoc(vocab, keep, merges[..i], merges[i]);
      assert merges[..i + 1] == merges[..i] + [merges[i]];
      if KeptMerge(vocab, keep, merges[i]) {
        kept := kept + [merges[i]];
      }
    }
    assert merges[..|merges|] == merges;
  }

  /** `setdefault` of every kept added token. */
  function WithAdded(vocab: map<string, nat>, remap: map<nat, nat>, added: seq<Added>): map<string, nat>
    decreases added
  {
    if added == [] then vocab
    else
      var a := added[0];
      WithAdded(if a.id in remap && a.content !in vocab then vocab[a.content := remap[a.id]]
                else vocab, remap, added[1..])
  }

  function NewVocab(t: Tokenizer, keep: set<nat>): map<string, nat> {
    var remap := Remap(OldIds(t, keep));
    var kept := map tok | tok in t.vocab && t.vocab[tok] in keep && t.vocab[tok] in remap :: remap[t.vocab[tok]];
    WithAdded(kept, remap, t.added)
  }

  function Pruned(t: Tokenizer, keep: set<nat>): Tokenizer {
    Tokenizer(NewVocab(t, keep), Filtered(t.vocab, keep, t.merges), AddedKept(Remap(OldIds(t, keep)), t.added))
  }

  function AddedKept(remap: map<nat, nat>, added: seq<Added>): seq<Added> {
    if added == [] then []
    else (if added[0].id in remap then [added[0].(id := remap[added[0].id])] else []) + AddedKept(remap, added[1..])
  }

  lemma {:induction false} SetdefaultKeeps(vocab: map<string, nat>, remap: map<nat, nat>, added: seq<Added>,
                                           tok: string)
    requires tok in vocab
    ensures tok in WithAdded(vocab, remap, added) && WithAdded(vocab, remap, added)[tok] == vocab[tok]
    decreases added
  {
    if added != [] {
      var a := added[0];
      var next := if a.id in remap && a.content !in vocab then vocab[a.content := remap[a.id]] else vocab;
      SetdefaultKeeps(next, remap, added[1..], tok);
    }
  }

  // ---------------------------------------------------------------- tokenization is unchanged

  /** No merge that makes a kept token is dropped. */
  predicate KeepsItsMerges(vocab: map<string, nat>, keep: set<nat>, merges: seq<Merge>) {
    forall i | 0 <= i < |merges| :: KeptToken(vocab, keep, Product(merges[i])) ==> KeptMerge(vocab, keep, merges[i])
  }

  /** Each token is the product of at most one merge. */
  predicate UniqueProducer(merges: seq<Merge>) {
    forall i, j | 0 <= i < |merges| && 0 <= j < |merges| && Product(merges[i]) == Product(merges[j]) ::
        merges[i] == merges[j]
  }

  predicate Injective(vocab: map<string, nat>) {
    forall a, b | a in vocab && b in vocab && vocab[a] == vocab[b] :: a == b
  }

  lemma {:induction false} ParentsOfProduct(vocab: map<string, nat>, merges: seq<Merge>, i: nat)
    requires SidesKnown(vocab, merges) && UniqueProducer(merges) && Injective(vocab)
    requires i < |merges| && Product(merges[i]) in vocab
    ensures var p := Parents(vocab, merges); var r := vocab[Product(merges[i])];
            r in p && p[r] == (vocab[merges[i].0], vocab[merges[i].1])
    decreases merges
  {
    var n := |merges| - 1;
    var last := merges[n];
    if Product(last) == Product(merges[i]) {
      assert last == merges[i];
    } else {
      assert forall k | 0 <= k < n :: merges[..n][k] == merges[k];
      ParentsOfProduct(vocab, merges[..n], i);
    }
  }

  /** With unique producers the parents table sees every merge, so closing under it drops no merge of a kept token. */
  lemma ClosureKeepsMerges(vocab: map<string, nat>, keep: set<nat>, merges: seq<Merge>)
    requires SidesKnown(vocab, merges) && UniqueProducer(merges) && Injective(vocab)
    requires ClosedUnder(Parents(vocab, merges), keep)
    ensures KeepsItsMerges(vocab, keep, merges)
  {
    hide Parents;
    forall i | 0 <= i < |merges| && KeptToken(vocab, keep, Product(merges[i]))
      ensures KeptMerge(vocab, keep, merges[i])
    {
      ParentsOfProduct(vocab, merges, i);
      assert ClosedAt(Parents(vocab, merges), keep, vocab[Product(merges[i])]);
    }
  }

  predicate AllKept(vocab: map<string, nat>, keep: set<nat>, toks: seq<string>) {
    forall i | 0 <= i < |toks| :: KeptToken(vocab, keep, toks[i])
  }

  /** If the round's result is all kept, so were its inputs, and the filtered list takes the same round. */
  lemma {:induction false} SameRound(vocab: map<string, nat>, keep: set<nat>, merges: seq<Merge>, s: seq<string>)
    requires KeepsItsMerges(vocab, keep, merges) && AllKept(vocab, keep, Next(merges, s))
    ensures AllKept(vocab, keep, s)
    ensures Next(Filtered(vocab, keep, merges), s) == Next(merges, s)
    decreases merges
  {
    hide KeptToken;
    if merges != [] {
      var m := merges[0];
      var i := FirstAt(s, m);
      if i < |s| {
        var r := Joined(s, i);
        assert r[i] == Product(m);
        assert KeptMerge(vocab, keep, m);
        forall j | 0 <= j < |s|
          ensures KeptToken(vocab, keep, s[j])
        {
          if j < i { assert r[j] == s[j]; } else if j > i + 1 { assert r[j - 1] == s[j]; }
        }
        assert Filtered(vocab, keep, merges)[0] == m;
      } else {
        SameRound(vocab, keep, merges[1..], s);
        var rest := Filtered(vocab, keep, merges[1..]);
        if KeptMerge(vocab, keep, m) {
          assert Filtered(vocab, keep, merges) == [m] + rest && ([m] + rest)[1..] == rest;
        } else {
          assert Filtered(vocab, keep, merges) == rest;
        }
      }
    }
  }

  /** Tokenization with the filtered merges is the old tokenization, for every text whose tokens are all kept. */
  lemma {:induction false} SameTokens(vocab: map<string, nat>, keep: set<nat>, merges: seq<Merge>, s: seq<string>)
    requires KeepsItsMerges(vocab, keep, merges) && AllKept(vocab, keep, Tokenize(merges, s))
    ensures AllKept(vocab, keep, s)
    ensures Tokenize(Filtered(vocab, keep, merges), s) == Tokenize(merges, s)
    decreases |s|
  {
    hide Next;
    hide Filtered;
    hide KeptToken;
    hide KeptMerge;
    var t := Next(merges, s);
    if |t| < |s| {
      SameTokens(vocab, keep, merges, t);
    } else {
      NoRound(merges, s);
    }
    SameRound(vocab, keep, merges, s);
  }

  lemma {:induction false} NoRound(merges: seq<Merge>, s: seq<string>)
    requires |Next(merges, s)| == |s|
    ensures Next(merges, s) == s
    decreases merges
  {
    if merges != [] && FirstAt(s, merges[0]) == |s| { NoRound(merges[1..], s); }
  }

  /** A kept token is in the pruned vocabulary, under its renumbered id. */
  predicate Renumbered(t: Tokenizer, keep: set<nat>, tok: string) {
    var p, remap := Pruned(t, keep), Remap(OldIds(t, keep));
    tok in t.vocab && t.vocab[tok] in remap && tok in p.vocab && p.vocab[tok] == remap[t.vocab[tok]]
  }

  lemma KeptRenumbered(t: Tokenizer, keep: set<nat>, tok: string)
    requires KeptToken(t.vocab, keep, tok)
    ensures Renumbered(t, keep, tok)
  {
    hide WithAdded;
    hide Remap;
    hide Filtered;
    hide AddedKept;
    var remap := Remap(OldIds(t, keep));
    var kept := map x | x in t.vocab && t.vocab[x] in keep && t.vocab[x] in remap :: remap[t.vocab[x]];
    assert t.vocab[tok] in t.vocab.Values;
    RemapDomain(set o | o in keep && (o in t.vocab.Values || AddedId(t.added, o)));
    SetdefaultKeeps(kept, remap, t.added, tok);
  }

  /** The pruned tokenizer gives such a text the old token ids, renumbered. */
  lemma PruneKeepsTokenization(t: Tokenizer, keep: set<nat>, s: seq<string>)
    requires SidesKnown(t.vocab, t.merges) && UniqueProducer(t.merges) && Injective(t.vocab)
    requires ClosedUnder(Parents(t.vocab, t.merges), keep)
    requires AllKept(t.vocab, keep, Tokenize(t.merges, s))
    ensures var before, after := Tokenize(t.merges, s), Tokenize(Pruned(t, keep).merges, s);
            after == before && forall i | 0 <= i < |before| :: Renumbered(t, keep, before[i])
  {
    hide Tokenize;
    hide Parents;
    hide Filtered;
    hide Renumbered;
    hide NewVocab;
    hide KeptToken;
    ClosureKeepsMerges(t.vocab, keep, t.merges);
    SameTokens(t.vocab, keep, t.merges, s);
    var before := Tokenize(t.merges, s);
    forall i | 0 <= i < |before|
      ensures Renumbered(t, keep, before[i])
    {
      KeptRenumbered(t, keep, before[i]);
    }
  }

  // ---------------------------------------------------------------- other texts fall back to kept pieces

  lemma {:induction false} FilteredRoundKept(vocab: map<string, nat>, keep: set<nat>, merges: seq<Merge>,
                                             s: seq<string>)
    requires AllKept(vocab, keep, s)
    ensures AllKept(vocab, keep, Next(Filtered(vocab, keep, merges), s))
    decreases merges
  {
    hide KeptToken;
    if merges != [] {
      FilteredRoundKept(vocab, keep, merges[1..], s);
      var m, rest := merges[0], Filtered(vocab, keep, merges[1..]);
      if KeptMerge(vocab, keep, m) {
        assert Filtered(vocab, keep, merges) == [m] + rest && ([m] + rest)[1..] == rest;
        var i := FirstAt(s, m);
        if i < |s| {
          var r := Joined(s, i);
          forall j | 0 <= j < |r|
            ensures KeptToken(vocab, keep, r[j])
          {
            if j < i { assert r[j] == s[j]; } else if j == i { assert r[j] == Product(m); } else {
              assert r[j] == s[j + 1];
            }
          }
        }
      } else {
        assert Filtered(vocab, keep, merges) == rest;
      }
    }
  }

  lemma {:induction false} FilteredKept(vocab: map<string, nat>, keep: set<nat>, merges: seq<Merge>, s: seq<string>)
    requires AllKept(vocab, keep, s)
    ensures AllKept(vocab, keep, Tokenize(Filtered(vocab, keep, merges), s))
    decreases |s|
  {
    hide Next;
    hide Filtered;
    hide KeptToken;
    var t := Next(Filtered(vocab, keep, merges), s);
    FilteredRoundKept(vocab, keep, merges, s);
    if |t| < |s| { FilteredKept(vocab, keep, merges, t); }
  }

  /** The text a token sequence spells. */
  function Spelled(s: seq<string>): string {
    if s == [] then "" else s[0] + Spelled(s[1..])
  }

  lemma {:induction false} JoinedSpells(s: seq<string>, i: nat)
    requires i + 1 < |s|
    ensures Spelled(Joined(s, i)) == Spelled(s)
    decreases i
  {
    var r := Joined(s, i);
    if i == 0 {
      assert r == [s[0] + s[1]] + s[2..] && r[1..] == s[2..];
      assert s[1..][1..] == s[2..];
      assert Spelled(s) == s[0] + (s[1] + Spelled(s[2..]));
    } else {
      JoinedSpells(s[1..], i - 1);
      assert r[0] == s[0] && r[1..] == Joined(s[1..], i - 1);
    }
  }

  lemma {:induction false} RoundSpells(merges: seq<Merge>, s: seq<string>)
    ensures Spelled(Next(merges, s)) == Spelled(s)
    decreases merges
  {
    hide Joined;
    hide Spelled;
    if merges != [] {
      var i := FirstAt(s, merges[0]);
      if i < |s| { JoinedSpells(s, i); } else { RoundSpells(merges[1..], s); }
    }
  }

  lemma {:induction false} TokensSpell(merges: seq<Merge>, s: seq<string>)
    ensures Spelled(Tokenize(merges, s)) == Spelled(s)
    decreases |s|
  {
    hide Next;
    hide Spelled;
    RoundSpells(merges, s);
    var t := Next(merges, s);
    if |t| < |s| { TokensSpell(merges, t); }
  }

  /** Any text over kept bases, whatever tokens it had, becomes kept tokens that spell it, each known to the pruned
      vocabulary: none is unknown. */
  lemma NeverUnknown(t: Tokenizer, keep: set<nat>, s: seq<string>)
    requires AllKept(t.vocab, keep, s)
    ensures var after := Tokenize(Pruned(t, keep).merges, s);
            Spelled(after) == Spelled(s) && forall i | 0 <= i < |after| :: Renumbered(t, keep, after[i])
  {
    hide Tokenize;
    hide Filtered;
    hide NewVocab;
    hide Renumbered;
    hide KeptToken;
    hide Spelled;
    FilteredKept(t.vocab, keep, t.merges, s);
    TokensSpell(Pruned(t, keep).merges, s);
    var after := Tokenize(Pruned(t, keep).merges, s);
    forall i | 0 <= i < |after|
      ensures Renumbered(t, keep, after[i])
    {
      KeptRenumbered(t, keep, after[i]);
    }
  }

  // ---------------------------------------------------------------- the whole prune

  /** The ids kept before closing: those in use, the byte bases, added and special tokens, and the products of the first
      merges. */
  function Seeds(t: Tokenizer, used: set<nat>, special: set<nat>, floor: nat): set<nat> {
    used + ByteIds(256) + (set i | 0 <= i < |t.added| :: t.added[i].id) + special +
    (set i | 0 <= i < |t.merges| && i < floor && Product(t.merges[i]) in t.vocab :: t.vocab[Product(t.merges[i])])
  }

  function ByteIds(n: nat): set<nat> {
    if n == 0 then {} else ByteIds(n - 1) + {n - 1}
  }

  method Prune(t: Tokenizer, used: set<nat>, special: set<nat>, floor: nat) returns (p: Tokenizer, keep: set<nat>)
    requires SidesKnown(t.vocab, t.merges)
    ensures var parents, seeds := Parents(t.vocab, t.merges), Seeds(t, used, special, floor);
            seeds <= keep && ClosedUnder(parents, keep) && Least(parents, seeds, keep)
    ensures p == Pruned(t, keep)
  {
    hide *;
    var parents := BuildParents(t.vocab, t.merges);
    keep := Close(parents, Seeds(t, used, special, floor));
    var merges := FilterMerges(t.vocab, keep, t.merges);
    p := Tokenizer(NewVocab(t, keep), merges, AddedKept(Remap(OldIds(t, keep)), t.added));
    PrunedIs(t, keep);
  }

  lemma PrunedIs(t: Tokenizer, keep: set<nat>)
    ensures Pruned(t, keep) ==
            Tokenizer(NewVocab(t, keep), Filtered(t.vocab, keep, t.merges), AddedKept(Remap(OldIds(t, keep)), t.added))
  {
  }

  // ---------------------------------------------------------------- why producers must be unique

  /** The first merge in the list that occurs fires at its first occurrence. */
  lemma {:induction false} NextHit(merges: seq<Merge>, k: nat, i: nat, s: seq<string>)
    requires k < |merges| && i + 1 < |s| && (s[i], s[i + 1]) == merges[k]
    requires forall h, j | 0 <= h < k && 0 <= j && j + 1 < |s| :: (s[j], s[j + 1]) != merges[h]
    requires forall j | 0 <= j < i :: (s[j], s[j + 1]) != merges[k]
    ensures Next(merges, s) == Joined(s, i)
    decreases k
  {
    hide FirstAt;
    if k > 0 {
      assert FirstAt(s, merges[0]) == |s|;
      NextHit(merges[1..], k - 1, i, s);
    } else {
      assert FirstAt(s, merges[0]) == i;
    }
  }

  /** "abc" can be made from "ab" and "c" or from "a" and "bc". */
  const MERGES: seq<Merge> := [("a", "b"), ("ab", "c"), ("c", "d"), ("b", "c"), ("a", "bc")]
  const VOCAB: map<string, nat> := map["a" := 0, "b" := 1, "c" := 2, "d" := 3, "ab" := 4, "abc" := 5, "cd" := 6,
                                       "bc" := 7]
  const KEEP: set<nat> := {0, 1, 2, 3, 5, 6, 7}
  const FEWER: seq<Merge> := [("c", "d"), ("b", "c"), ("a", "bc")]

  /** One token with two producing merges: only the last one's sides are kept, and a text of kept tokens comes apart. */
  lemma TwoProducersBreak()
    ensures SidesKnown(VOCAB, MERGES) && Injective(VOCAB)
    ensures ClosedUnder(Parents(VOCAB, MERGES), KEEP)
    ensures Tokenize(MERGES, ["a", "b", "c", "d"]) == ["abc", "d"] && AllKept(VOCAB, KEEP, ["abc", "d"])
    ensures Tokenize(Filtered(VOCAB, KEEP, MERGES), ["a", "b", "c", "d"]) == ["a", "b", "cd"]
  {
    hide *;
    TwoProducersTables();
    KeepIsClosed();
    FullRun();
    FewerRun();
  }

  lemma KeepIsClosed()
    ensures ClosedUnder(map[4 := (0, 1), 5 := (0, 7), 6 := (2, 3), 7 := (1, 2)], KEEP)
    ensures Injective(VOCAB) && AllKept(VOCAB, KEEP, ["abc", "d"])
  {
    var parents: map<nat, (nat, nat)> := map[4 := (0, 1), 5 := (0, 7), 6 := (2, 3), 7 := (1, 2)];
    forall t | t in KEEP
      ensures ClosedAt(parents, KEEP, t)
    {
    }
  }

  lemma Spellings()
    ensures "a" + "b" == "ab" && "ab" + "c" == "abc" && "c" + "d" == "cd" && "b" + "c" == "bc" && "a" + "bc" == "abc"
  {
  }

  lemma FullRun()
    ensures Tokenize(MERGES, ["a", "b", "c", "d"]) == ["abc", "d"]
  {
    hide Next;
    Spellings();
    NextHit(MERGES, 0, 0, ["a", "b", "c", "d"]);
    assert Joined(["a", "b", "c", "d"], 0) == ["ab", "c", "d"];
    NextHit(MERGES, 1, 0, ["ab", "c", "d"]);
    assert Joined(["ab", "c", "d"], 0) == ["abc", "d"];
    Inert(MERGES, ["abc", "d"]);
    assert Tokenize(MERGES, ["ab", "c", "d"]) == ["abc", "d"];
  }

  lemma FewerRun()
    ensures Tokenize(FEWER, ["a", "b", "c", "d"]) == ["a", "b", "cd"]
  {
    hide Next;
    Spellings();
    NextHit(FEWER, 0, 2, ["a", "b", "c", "d"]);
    assert Joined(["a", "b", "c", "d"], 2) == ["a", "b", "cd"];
    Inert(FEWER, ["a", "b", "cd"]);
  }

  lemma {:induction false} Inert(merges: seq<Merge>, s: seq<string>)
    requires forall i, j | 0 <= i < |merges| && 0 <= j && j + 1 < |s| :: (s[j], s[j + 1]) != merges[i]
    ensures Next(merges, s) == s && Tokenize(merges, s) == s
    decreases merges
  {
    if merges != [] { Inert(merges[1..], s); }
  }

  lemma ParentsSnoc(vocab: map<string, nat>, merges: seq<Merge>, m: Merge)
    requires SidesKnown(vocab, merges) && m.0 in vocab && m.1 in vocab && Product(m) in vocab
    ensures SidesKnown(vocab, merges + [m])
    ensures Parents(vocab, merges + [m]) == Parents(vocab, merges)[vocab[Product(m)] := (vocab[m.0], vocab[m.1])]
  {
    assert (merges + [m])[..|merges|] == merges;
  }

  lemma TwoProducersTables()
    ensures SidesKnown(VOCAB, MERGES)
    ensures Parents(VOCAB, MERGES) == map[4 := (0, 1), 5 := (0, 7), 6 := (2, 3), 7 := (1, 2)]
    ensures Filtered(VOCAB, KEEP, MERGES) == FEWER
  {
    Spellings();
    hide Filtered;
    var m1: seq<Merge> := [("a", "b")];
    var m2 := m1 + [("ab", "c")];
    var m3 := m2 + [("c", "d")];
    var m4 := m3 + [("b", "c")];
    assert MERGES == m4 + [("a", "bc")];
    assert [] + [("a", "b")] == m1;
    FilteredSnoc(VOCAB, KEEP, [], ("a", "b"));
    FilteredSnoc(VOCAB, KEEP, m1, ("ab", "c"));
    FilteredSnoc(VOCAB, KEEP, m2, ("c", "d"));
    FilteredSnoc(VOCAB, KEEP, m3, ("b", "c"));
    FilteredSnoc(VOCAB, KEEP, m4, ("a", "bc"));
    assert Filtered(VOCAB, KEEP, []) == [] by { NothingFiltered(VOCAB, KEEP); }
    hide Parents;
    assert Parents(VOCAB, []) == map[] by { NoParents(VOCAB); }
    ParentsSnoc(VOCAB, [], ("a", "b"));
    ParentsSnoc(VOCAB, m1, ("ab", "c"));
    ParentsSnoc(VOCAB, m2, ("c", "d"));
    ParentsSnoc(VOCAB, m3, ("b", "c"));
    ParentsSnoc(VOCAB, m4, ("a", "bc"));
  }

  lemma NothingFiltered(vocab: map<string, nat>, keep: set<nat>)
    ensures Filtered(vocab, keep, []) == []
  {
  }

  lemma NoParents(vocab: map<string, nat>)
    ensures Parents(vocab, []) == map[]
  {
  }

  // ---------------------------------------------------------------- the embedding

  /** The kept rows in their new order, then zero rows up to the padded size. */
  function Sliced<R>(rows: seq<R>, oldIds: seq<nat>, zero: R, padTo: nat): seq<R>
    requires padTo > 0 && forall i | 0 <= i < |oldIds| :: oldIds[i] < |rows|
  {
    var n := |oldIds|;
    var padded := ((n + padTo - 1) / padTo) * padTo;
    assert n <= padded by { Padding(n, padTo); }
    seq(padded, i requires 0 <= i < padded => if i < n then rows[oldIds[i]] else zero)
  }

  lemma SlicedAt<R>(rows: seq<R>, oldIds: seq<nat>, zero: R, padTo: nat, i: nat)
    requires padTo > 0 && (forall j | 0 <= j < |oldIds| :: oldIds[j] < |rows|) && i < |oldIds|
    ensures var new' := Sliced(rows, oldIds, zero, padTo);
            |oldIds| <= |new'| < |oldIds| + padTo && new'[i] == rows[oldIds[i]]
  {
    Padding(|oldIds|, padTo);
  }

  /** Every kept token finds its old embedding row under its new id. */
  lemma EmbeddingFollowsRemap<R>(rows: seq<R>, kept: set<nat>, zero: R, padTo: nat)
    requires padTo > 0 && forall o | o in kept :: o < |rows|
    ensures forall i | 0 <= i < |Sorted(kept)| :: Sorted(kept)[i] in Sorted(kept) && Sorted(kept)[i] < |rows|
    ensures forall o | o in kept ::
              var new' := Sliced(rows, Sorted(kept), zero, padTo);
              o in Remap(Sorted(kept)) && Remap(Sorted(kept))[o] < |new'| && new'[Remap(Sorted(kept))[o]] == rows[o]
  {
    hide Sorted;
    hide Remap;
    hide Sliced;
    var ids := Sorted(kept);
    forall i | 0 <= i < |ids|
      ensures ids[i] < |rows|
    {
      assert ids[i] in ids;
    }
    forall o | o in kept
      ensures var new' := Sliced(rows, ids, zero, padTo);
              o in Remap(ids) && Remap(ids)[o] < |new'| && new'[Remap(ids)[o]] == rows[o]
    {
      assert o in ids;
      RemapIndex(ids, o);
      SlicedAt(rows, ids, zero, padTo, IndexOf(ids, o));
    }
  }

  lemma Padding(n: nat, p: nat)
    requires p > 0
    ensures n <= ((n + p - 1) / p) * p < n + p
  {
    DivMod(n + p - 1, p);
  }

  lemma DivMod(a: nat, p: nat)
    requires p > 0
    ensures a == (a / p) * p + a % p
  {
  }
}
