/** The pruned tokenizer. */
module PruneLaws {
  import opened SortedSets
  import opened Positions
  import opened PruneVocab

  // ---------------------------------------------------------------- what is kept

  predicate Holds(t: Tokenizer, keep: set<nat>, tok: string) {
    tok in t.vocab && t.vocab[tok] in keep
  }

  /** The id names a token of the vocabulary or an added one. */
  predicate Named(t: Tokenizer, id: nat) {
    (exists tok | tok in t.vocab :: t.vocab[tok] == id) || exists i | 0 <= i < |t.added| :: t.added[i].id == id
  }

  /** `r` numbers the kept ids that name something from 0 on, in their order. */
  ghost predicate Numbers(t: Tokenizer, keep: set<nat>, r: map<nat, nat>) {
    && (forall o :: o in r <==> o in keep && Named(t, o))
    && (forall o | o in r :: r[o] < |r|)
    && forall o, p | o in r && p in r :: o < p <==> r[o] < r[p]
  }

  /** The first added token of this content with a kept id. */
  predicate FirstAdded(added: seq<Added>, r: map<nat, nat>, tok: string, i: nat) {
    i < |added| && added[i].content == tok && added[i].id in r &&
    forall j | 0 <= j < i :: !(added[j].content == tok && added[j].id in r)
  }

  /** Where a text stands in the new vocabulary: a kept token under its new id, a kept added token that has none yet
      under its own, and anything else nowhere. */
  ghost predicate TokenIs(t: Tokenizer, keep: set<nat>, r: map<nat, nat>, v: map<string, nat>, tok: string) {
    if Holds(t, keep, tok) then t.vocab[tok] in r && tok in v && v[tok] == r[t.vocab[tok]]
    else if exists i: nat :: FirstAdded(t.added, r, tok, i)
    then exists i: nat :: FirstAdded(t.added, r, tok, i) && tok in v && v[tok] == r[t.added[i].id]
    else tok !in v
  }

  function KeepsMerge(t: Tokenizer, keep: set<nat>, m: Merge): bool {
    Holds(t, keep, m.0) && Holds(t, keep, m.1) && Holds(t, keep, m.0 + m.1)
  }

  /** The new tokenizer has the new vocabulary, in order exactly the merges whose sides and product are kept, and in
      order exactly the added tokens whose id is kept, renumbered. */
  ghost predicate PrunesTo(t: Tokenizer, keep: set<nat>, p: Tokenizer, r: map<nat, nat>, mIdx: seq<nat>,
                           aIdx: seq<nat>) {
    && Numbers(t, keep, r) && (forall tok :: TokenIs(t, keep, r, p.vocab, tok))
    && Picked(t.merges, seq(|t.merges|, i requires 0 <= i < |t.merges| => KeepsMerge(t, keep, t.merges[i])), p.merges,
              mIdx)
    && AddedAre(t.added, r, p.added, aIdx)
  }

  ghost predicate AddedAre(added: seq<Added>, r: map<nat, nat>, out: seq<Added>, idx: seq<nat>) {
    && Rising(idx) && (forall i | 0 <= i < |added| :: i in idx <==> added[i].id in r)
    && |out| == |idx|
    && forall k | 0 <= k < |idx| :: idx[k] < |added| && added[idx[k]].id in r &&
         out[k] == Added(r[added[idx[k]].id], added[idx[k]].content)
  }

  // ---------------------------------------------------------------- merges and added tokens

  function Takes(vocab: map<string, nat>, keep: set<nat>, merges: seq<Merge>): seq<bool> {
    seq(|merges|, i requires 0 <= i < |merges| => KeptMerge(vocab, keep, merges[i]))
  }

  lemma {:induction false} FilteredPicks(vocab: map<string, nat>, keep: set<nat>, merges: seq<Merge>)
    returns (idx: seq<nat>)
    ensures Picked(merges, Takes(vocab, keep, merges), Filtered(vocab, keep, merges), idx)
    decreases merges
  {
    hide KeptMerge;
    idx := [];
    if merges != [] {
      var rest := FilteredPicks(vocab, keep, merges[1..]);
      assert Takes(vocab, keep, merges)[1..] == Takes(vocab, keep, merges[1..]);
      idx := PickMore(merges, Takes(vocab, keep, merges), Filtered(vocab, keep, merges[1..]), rest);
    }
  }

  lemma MergesExactly(t: Tokenizer, keep: set<nat>) returns (idx: seq<nat>)
    ensures Picked(t.merges, seq(|t.merges|, i requires 0 <= i < |t.merges| => KeepsMerge(t, keep, t.merges[i])),
                   Filtered(t.vocab, keep, t.merges), idx)
  {
    idx := FilteredPicks(t.vocab, keep, t.merges);
    hide Picked;
    assert Takes(t.vocab, keep, t.merges) ==
           seq(|t.merges|, i requires 0 <= i < |t.merges| => KeepsMerge(t, keep, t.merges[i]));
  }

  function KeptAdded(added: seq<Added>, r: map<nat, nat>): seq<bool> {
    seq(|added|, i requires 0 <= i < |added| => added[i].id in r)
  }

  /** The kept added tokens with their old ids. */
  lemma {:induction false} AddedPicks(added: seq<Added>, r: map<nat, nat>) returns (out: seq<Added>, idx: seq<nat>)
    ensures Picked(added, KeptAdded(added, r), out, idx)
    ensures |AddedKept(r, added)| == |out|
    ensures forall k | 0 <= k < |out| :: out[k].id in r && AddedKept(r, added)[k] == Added(r[out[k].id], out[k].content)
    decreases added
  {
    out, idx := [], [];
    if added != [] {
      var tail, rest := AddedPicks(added[1..], r);
      assert KeptAdded(added, r)[1..] == KeptAdded(added[1..], r);
      idx := PickMore(added, KeptAdded(added, r), tail, rest);
      hide Picked;
      out := (if added[0].id in r then [added[0]] else []) + tail;
    }
  }

  lemma AddedExactly(added: seq<Added>, r: map<nat, nat>) returns (idx: seq<nat>)
    ensures AddedAre(added, r, AddedKept(r, added), idx)
  {
    var out: seq<Added>;
    out, idx := AddedPicks(added, r);
    hide AddedKept;
    hide Rising;
    forall i | 0 <= i < |added|
      ensures i in idx <==> added[i].id in r
    {
      assert KeptAdded(added, r)[i] == (added[i].id in r);
    }
  }

  // ---------------------------------------------------------------- the vocabulary

  lemma FirstShifts(added: seq<Added>, r: map<nat, nat>, tok: string, i: nat)
    requires added != [] && !(added[0].content == tok && added[0].id in r)
    ensures FirstAdded(added, r, tok, i + 1) <==> FirstAdded(added[1..], r, tok, i)
    ensures !FirstAdded(added, r, tok, 0)
  {
    if FirstAdded(added, r, tok, i + 1) {
      forall j | 0 <= j < i
        ensures !(added[1..][j].content == tok && added[1..][j].id in r)
      {
        assert added[1..][j] == added[j + 1];
      }
    }
    if FirstAdded(added[1..], r, tok, i) {
      forall j | 0 <= j < i + 1
        ensures !(added[j].content == tok && added[j].id in r)
      {
        if j > 0 { assert added[1..][j - 1] == added[j]; }
      }
    }
  }

  /** A token the vocabulary lacks gets the first kept added token of its content, if any. */
  lemma {:induction false} AddedDoes(vocab: map<string, nat>, r: map<nat, nat>, added: seq<Added>, tok: string)
    requires tok !in vocab
    ensures var v := WithAdded(vocab, r, added);
            forall i: nat | FirstAdded(added, r, tok, i) :: tok in v && v[tok] == r[added[i].id]
    ensures (forall i: nat :: !FirstAdded(added, r, tok, i)) ==> tok !in WithAdded(vocab, r, added)
    decreases added
  {
    if added != [] {
      var a := added[0];
      var next := if a.id in r && a.content !in vocab then vocab[a.content := r[a.id]] else vocab;
      if a.content == tok && a.id in r {
        assert FirstAdded(added, r, tok, 0);
        SetdefaultKeeps(next, r, added[1..], tok);
      } else {
        AddedDoes(next, r, added[1..], tok);
        hide WithAdded;
        forall i: nat
          ensures FirstAdded(added, r, tok, i + 1) <==> FirstAdded(added[1..], r, tok, i)
          ensures !FirstAdded(added, r, tok, 0)
        {
          FirstShifts(added, r, tok, i);
        }
        hide FirstAdded;
        forall i: nat | FirstAdded(added, r, tok, i)
          ensures var v := WithAdded(next, r, added[1..]); tok in v && v[tok] == r[added[i].id]
        {
          assert i > 0;
          assert FirstAdded(added[1..], r, tok, i - 1);
        }
        forall i: nat
          ensures FirstAdded(added[1..], r, tok, i) ==> FirstAdded(added, r, tok, i + 1)
        {
        }
      }
    }
  }

  function KeptIds(t: Tokenizer, keep: set<nat>): set<nat> {
    set o | o in keep && (o in t.vocab.Values || AddedId(t.added, o))
  }

  lemma KeptNamed(t: Tokenizer, keep: set<nat>, o: nat)
    ensures o in KeptIds(t, keep) <==> o in keep && Named(t, o)
  {
  }

  lemma NumbersFrom(t: Tokenizer, keep: set<nat>, r: map<nat, nat>)
    requires r.Keys == KeptIds(t, keep) && (forall o | o in r :: r[o] < |r.Keys|)
    requires forall o, p | o in r && p in r :: o < p <==> r[o] < r[p]
    ensures Numbers(t, keep, r)
  {
    forall o
      ensures o in r <==> o in keep && Named(t, o)
    {
      KeptNamed(t, keep, o);
      assert o in r <==> o in r.Keys;
    }
    hide KeptIds;
    hide Named;
    assert |r| == |r.Keys|;
  }

  lemma NumbersKept(t: Tokenizer, keep: set<nat>)
    ensures Numbers(t, keep, Remap(OldIds(t, keep)))
  {
    RemapOrderBijection(KeptIds(t, keep));
    assert OldIds(t, keep) == Sorted(KeptIds(t, keep));
    hide Remap;
    hide OldIds;
    hide Sorted;
    hide KeptIds;
    hide Numbers;
    NumbersFrom(t, keep, Remap(OldIds(t, keep)));
  }

  lemma VocabularyAt(t: Tokenizer, keep: set<nat>, tok: string)
    ensures TokenIs(t, keep, Remap(OldIds(t, keep)), NewVocab(t, keep), tok)
  {
    NumbersKept(t, keep);
    var r := Remap(OldIds(t, keep));
    hide Remap;
    hide OldIds;
    hide WithAdded;
    hide FirstAdded;
    var kept := map x | x in t.vocab && t.vocab[x] in keep && t.vocab[x] in r :: r[t.vocab[x]];
    assert NewVocab(t, keep) == WithAdded(kept, r, t.added);
    if Holds(t, keep, tok) {
      assert Named(t, t.vocab[tok]);
      SetdefaultKeeps(kept, r, t.added, tok);
    } else {
      AddedDoes(kept, r, t.added, tok);
    }
  }

  /** The pruned tokenizer is exactly that. */
  lemma PrunedExactly(t: Tokenizer, keep: set<nat>) returns (r: map<nat, nat>, mIdx: seq<nat>, aIdx: seq<nat>)
    ensures PrunesTo(t, keep, Pruned(t, keep), r, mIdx, aIdx)
  {
    r := Remap(OldIds(t, keep));
    NumbersKept(t, keep);
    mIdx := MergesExactly(t, keep);
    hide KeepsMerge;
    hide Picked;
    aIdx := AddedExactly(t.added, r);
    forall tok
      ensures TokenIs(t, keep, r, NewVocab(t, keep), tok)
    {
      VocabularyAt(t, keep, tok);
    }
    hide Remap;
    hide OldIds;
    hide NewVocab;
    hide Filtered;
    hide AddedKept;
    hide AddedAre;
    hide TokenIs;
    hide Numbers;
    hide Picked;
  }

  // ---------------------------------------------------------------- what the keep-set is closed under

  /** Merge `i` makes token `id`. */
  predicate Makes(vocab: map<string, nat>, merges: seq<Merge>, i: nat, id: nat) {
    i < |merges| && merges[i].0 + merges[i].1 in vocab && vocab[merges[i].0 + merges[i].1] == id
  }

  /** The last merge that makes it. */
  predicate LastMakes(vocab: map<string, nat>, merges: seq<Merge>, i: nat, id: nat) {
    Makes(vocab, merges, i, id) && forall j | i < j < |merges| :: !Makes(vocab, merges, j, id)
  }

  /** A token's parents are the sides of the last merge that makes it, and a token none makes has none. */
  lemma {:induction false} ParentsExactly(vocab: map<string, nat>, merges: seq<Merge>, id: nat)
    requires SidesKnown(vocab, merges)
    ensures id in Parents(vocab, merges) <==> exists i :: Makes(vocab, merges, i, id)
    ensures forall i: nat | LastMakes(vocab, merges, i, id) :: merges[i].0 in vocab && merges[i].1 in vocab &&
              id in Parents(vocab, merges) && Parents(vocab, merges)[id] == (vocab[merges[i].0], vocab[merges[i].1])
    decreases merges
  {
    if merges != [] {
      var n := |merges| - 1;
      var init := merges[..n];
      ParentsExactly(vocab, init, id);
      assert forall i: nat | i < n :: Makes(vocab, merges, i, id) <==> Makes(vocab, init, i, id);
      forall i: nat | LastMakes(vocab, merges, i, id)
        ensures merges[i].0 in vocab && merges[i].1 in vocab && id in Parents(vocab, merges) &&
                Parents(vocab, merges)[id] == (vocab[merges[i].0], vocab[merges[i].1])
      {
        if i < n {
          assert !Makes(vocab, merges, n, id);
          assert LastMakes(vocab, init, i, id);
        }
      }
      if Makes(vocab, merges, n, id) { assert id in Parents(vocab, merges); }
    }
  }

  lemma {:induction false} BytesAre(n: nat, s: nat)
    ensures s in ByteIds(n) <==> s < n
    decreases n
  {
    if n > 0 { BytesAre(n - 1, s); }
  }

  /** The ids kept before closing. */
  lemma SeedsExactly(t: Tokenizer, used: set<nat>, special: set<nat>, floor: nat, s: nat)
    ensures s in Seeds(t, used, special, floor) <==>
            || s < 256 || s in used || s in special
            || (exists i | 0 <= i < |t.added| :: t.added[i].id == s)
            || (exists i: nat :: i < floor && Makes(t.vocab, t.merges, i, s))
  {
    BytesAre(256, s);
    hide ByteIds;
    if i: nat :| i < floor && Makes(t.vocab, t.merges, i, s) { assert Product(t.merges[i]) in t.vocab; }
    forall i | 0 <= i < |t.merges| && i < floor && Product(t.merges[i]) in t.vocab && t.vocab[Product(t.merges[i])] == s
      ensures Makes(t.vocab, t.merges, i, s)
    {
    }
  }

  // ---------------------------------------------------------------- one round of tokenization

  /** The pair stands at `i`. */
  predicate PairAt(s: seq<string>, m: Merge, i: nat) {
    i + 1 < |s| && s[i] == m.0 && s[i + 1] == m.1
  }

  predicate Occurs(s: seq<string>, m: Merge) {
    exists i | 0 <= i < |s| :: PairAt(s, m, i)
  }

  lemma FirstExactly(s: seq<string>, m: Merge)
    ensures FirstAt(s, m) < |s| <==> Occurs(s, m)
    ensures FirstAt(s, m) < |s| ==>
              PairAt(s, m, FirstAt(s, m)) && forall j | 0 <= j < FirstAt(s, m) :: !PairAt(s, m, j)
  {
    var f := FirstAt(s, m);
    if f < |s| { assert PairAt(s, m, f); }
    if Occurs(s, m) {
      var i :| 0 <= i < |s| && PairAt(s, m, i);
      assert (s[i], s[i + 1]) == m;
      assert f <= i;
    }
    forall j | 0 <= j < FirstAt(s, m) && FirstAt(s, m) < |s|
      ensures !PairAt(s, m, j)
    {
      assert (s[j], s[j + 1]) != m;
    }
  }

  /** A round joins the first occurrence of the first merge that occurs, and changes nothing where none does. */
  lemma {:induction false} NextExactly(merges: seq<Merge>, s: seq<string>, k: nat, i: nat)
    requires k < |merges| && PairAt(s, merges[k], i)
    requires forall j | 0 <= j < k :: !Occurs(s, merges[j])
    requires forall j | 0 <= j < i :: !PairAt(s, merges[k], j)
    ensures Next(merges, s) == s[..i] + [s[i] + s[i + 1]] + s[i + 2..]
    decreases k
  {
    hide FirstAt;
    FirstExactly(s, merges[0]);
    if k > 0 {
      assert !Occurs(s, merges[0]);
      assert forall j | 0 <= j < k - 1 :: merges[1..][j] == merges[j + 1];
      NextExactly(merges[1..], s, k - 1, i);
    } else {
      var f := FirstAt(s, merges[0]);
      assert f == i by { assert Occurs(s, merges[0]); }
    }
  }

  lemma {:induction false} NextDone(merges: seq<Merge>, s: seq<string>)
    requires forall j | 0 <= j < |merges| :: !Occurs(s, merges[j])
    ensures Next(merges, s) == s
    decreases merges
  {
    hide FirstAt;
    hide Occurs;
    if merges != [] {
      FirstExactly(s, merges[0]);
      assert forall j | 0 <= j < |merges[1..]| :: merges[1..][j] == merges[j + 1];
      NextDone(merges[1..], s);
    }
  }
}
