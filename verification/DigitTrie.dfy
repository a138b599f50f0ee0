/** The grammar's digit tries (harness/task_grammar.py). */
module DigitTrie {
  import opened Common
  import opened Decimal
  import opened Gbnf
  import opened SortedSets

  /** A node of the nested dicts: `kids` by digit, `end` when a numeral stops here. */
  datatype Trie = Node(kids: map<char, Trie>, end: bool)

  const EMPTY_TRIE: Trie := Node(map[], false)

  /** `_trie_insert`. */
  function Insert(t: Trie, s: string): Trie
    decreases s
  {
    if s == "" then t.(end := true)
    else
      var kid := if s[0] in t.kids then t.kids[s[0]] else EMPTY_TRIE;
      t.(kids := t.kids[s[0] := Insert(kid, s[1..])])
  }

  /** The numerals a trie holds. */
  predicate Holds(t: Trie, w: string)
    decreases w
  {
    if w == "" then t.end else w[0] in t.kids && Holds(t.kids[w[0]], w[1..])
  }

  /** Insertion adds exactly the inserted word. */
  lemma {:induction false} InsertHolds(t: Trie, s: string, w: string)
    ensures Holds(Insert(t, s), w) <==> Holds(t, w) || w == s
    decreases s
  {
    if s != "" && w != "" {
      if w[0] == s[0] {
        var kid := if s[0] in t.kids then t.kids[s[0]] else EMPTY_TRIE;
        InsertHolds(kid, s[1..], w[1..]);
        EmptyHoldsNothing(w[1..]);
        assert w == [w[0]] + w[1..] && s == [s[0]] + s[1..];
      }
    }
  }

  lemma EmptyHoldsNothing(w: string)
    ensures !Holds(EMPTY_TRIE, w)
  {
  }

  /** Every dict key is a digit, and only ends are leaves below the root. */
  predicate WellFormed(t: Trie)
    decreases t
  {
    forall c | c in t.kids :: IsDigit(c) && WellFormed(t.kids[c]) && (t.kids[c].kids == map[] ==> t.kids[c].end)
  }

  lemma {:induction false} InsertWellFormed(t: Trie, s: string)
    requires WellFormed(t) && AllDigits(s)
    ensures WellFormed(Insert(t, s))
    ensures s == "" ==> Insert(t, s).end
    ensures s != "" ==> Insert(t, s).kids != map[]
    decreases s
  {
    if s != "" {
      var kid := if s[0] in t.kids then t.kids[s[0]] else EMPTY_TRIE;
      InsertWellFormed(kid, s[1..]);
      assert s[0] in Insert(t, s).kids;
    }
  }

  // ---------------------------------------------------------------- the nested dicts

  /** A node as the builder mutates it. `Repr` holds the node and everything below, `View` the node as a value. */
  class TrieDict {
    var kids: map<char, TrieDict>
    var end: bool
    ghost var Repr: set<object>
    ghost var View: Trie

    ghost predicate Valid()
      reads this, Repr
      decreases Repr, 1
    {
      && this in Repr && View.end == end && View.kids.Keys == kids.Keys
      && forall c | c in kids :: KidOk(c) && View.kids[c] == kids[c].View
    }

    /** The dict under `c` is well formed and shares nothing with the others or with this one. */
    ghost predicate KidOk(c: char)
      requires c in kids && this in Repr
      reads this, Repr
      decreases Repr, 0
    {
      && kids[c] in Repr && kids[c].Repr <= Repr && this !in kids[c].Repr && kids[c].Valid()
      && forall d | d in kids && d != c :: kids[d] in Repr ==> kids[c].Repr !! kids[d].Repr
    }

    constructor ()
      ensures Valid() && fresh(Repr) && View == EMPTY_TRIE
    {
      kids := map[];
      end := false;
      Repr := {this};
      View := EMPTY_TRIE;
    }

    /** The dict under `c`, made when there is none. */
    method Child(c: char) returns (kid: TrieDict)
      requires Valid()
      modifies this
      ensures Valid() && fresh(Repr - old(Repr)) && c in kids && kids[c] == kid
      ensures View == if c in old(View.kids) then old(View) else old(View).(kids := old(View).kids[c := EMPTY_TRIE])
    {
      if c !in kids {
        kid := new TrieDict();
        kids := kids[c := kid];
        Repr := Repr + kid.Repr;
        View := View.(kids := View.kids[c := EMPTY_TRIE]);
      } else {
        kid := kids[c];
      }
    }

    /** `_trie_insert`, one dict per character. */
    method Add(s: string)
      requires Valid()
      modifies Repr
      ensures Valid() && fresh(Repr - old(Repr)) && View == Insert(old(View), s)
      decreases |s|, 0
    {
      if s == "" {
        end := true;
        View := View.(end := true);
      } else {
        var kid := Child(s[0]);
        AddBelow(kid, s[0], s[1..]);
      }
    }

    /** The rest of the numeral goes into the child's dict; its siblings stay as they are. */
    method AddBelow(kid: TrieDict, c: char, rest: string)
      requires Valid() && c in kids && kids[c] == kid
      modifies Repr
      ensures Valid() && fresh(Repr - old(Repr))
      ensures View == old(View).(kids := old(View).kids[c := Insert(old(View).kids[c], rest)])
      decreases |rest|, 1
    {
      hide Insert;
      assert KidOk(c);
      ghost var below := kid.Repr;
      forall d | d in kids && d != c
        ensures kids[d] in Repr && kids[d].Repr !! below && kids[d].Repr <= Repr && kids[d].Valid() &&
                this !in kids[d].Repr
      {
        assert KidOk(d);
      }
      kid.Add(rest);
      forall d | d in kids && d != c
        ensures SiblingOk(c, d)
      {
        assert kids[d].Repr !! below;
      }
      Absorb(c);
    }

    /** Takes in what the dict under `c` has become. */
    ghost method Absorb(c: char)
      requires c in kids && this in Repr && View.end == end && View.kids.Keys == kids.Keys
      requires kids[c].Valid() && this !in kids[c].Repr
      requires forall d | d in kids && d != c :: SiblingOk(c, d)
      modifies this`Repr, this`View
      ensures Valid() && Repr == old(Repr) + kids[c].Repr
      ensures View == old(View).(kids := old(View).kids[c := kids[c].View])
    {
      var below := kids[c].Repr;
      Repr := Repr + below;
      View := View.(kids := View.kids[c := kids[c].View]);
      assert kids[c].Valid() && kids[c].Repr == below;
      forall d | d in kids && d != c
        ensures KidOk(d) && View.kids[d] == kids[d].View
      {
        assert old(SiblingOk(c, d));
        assert kids[d].Valid();
      }
      assert KidOk(c);
    }

    ghost predicate SiblingOk(c: char, d: char)
      requires c in kids && d in kids && d != c && View.kids.Keys == kids.Keys
      reads this, Repr, kids[d], kids[d].Repr, set e | e in kids :: kids[e]
    {
      && kids[d] in Repr && kids[d].Repr <= Repr && this !in kids[d].Repr && kids[d].Valid()
      && View.kids[d] == kids[d].View && kids[d].Repr !! kids[c].Repr
      && forall e | e in kids && e != c && e != d :: kids[d].Repr !! kids[e].Repr
    }

    /** `_trie_render`. */
    method Text() returns (s: string)
      requires Valid()
      ensures s == Render(View)
      decreases Repr, 0
    {
      hide Quote;
      hide GroupText;
      hide Join;
      hide RenderFrom;
      hide Render;
      var alts: seq<string> := [];
      for i := 0 to 10
        invariant alts + RenderFrom(View, i) == RenderFrom(View, 0)
      {
        var ch := DIGITS[i];
        RenderNext(View, i);
        if ch in kids {
          var alt := kids[ch].AltText(ch);
          assert alts + ([alt] + RenderFrom(View, i + 1)) == (alts + [alt]) + RenderFrom(View, i + 1);
          alts := alts + [alt];
        }
      }
      RenderEnds(View);
      assert alts + [] == alts;
      s := Join(alts);
    }

    method AltText(ch: char) returns (alt: string)
      requires Valid()
      ensures alt == KidText(ch, View)
      decreases Repr, 1
    {
      hide Quote;
      hide GroupText;
      hide Render;
      assert View.kids == map[] <==> View.kids.Keys == {};
      if kids == map[] {
        alt := Quote(ch);
      } else {
        assert kids.Keys != {};
        var inner := Text();
        alt := GroupText(ch, inner, end);
      }
    }
  }

  // ---------------------------------------------------------------- rendering

  /** The digits present, ascending. */
  function Keys(kids: map<char, Trie>, from: nat): string
    requires from <= 10
    decreases 10 - from
  {
    if from == 10 then ""
    else (if DIGITS[from] in kids then [DIGITS[from]] else "") + Keys(kids, from + 1)
  }

  lemma {:induction false} KeysExact(kids: map<char, Trie>, from: nat, c: char)
    requires from <= 10 && IsDigit(c)
    ensures c in Keys(kids, from) <==> c in kids && DigitValue(c) >= from
    decreases 10 - from
  {
    if from < 10 {
      KeysExact(kids, from + 1, c);
      assert DIGITS[DigitValue(c)] == c;
    }
  }

  lemma {:induction false} KeysPresent(kids: map<char, Trie>, from: nat)
    requires from <= 10
    ensures forall i | 0 <= i < |Keys(kids, from)| :: Keys(kids, from)[i] in kids && IsDigit(Keys(kids, from)[i])
    decreases 10 - from
  {
    if from < 10 { KeysPresent(kids, from + 1); }
  }

  /** `_trie_render`. */
  function Render(t: Trie): string
    decreases t, 1, 0
  {
    KeysPresent(t.kids, 0);
    Join(RenderKids(t, Keys(t.kids, 0)))
  }

  function RenderKids(t: Trie, keys: string): seq<string>
    requires forall i | 0 <= i < |keys| :: keys[i] in t.kids
    decreases t, 0, |keys|
  {
    if keys == "" then []
    else
      var kid := t.kids[keys[0]];
      [if kid.kids == map[] then Quote(keys[0]) else GroupText(keys[0], Render(kid), kid.end)] +
          RenderKids(t, keys[1..])
  }

  function KidText(ch: char, kid: Trie): string {
    if kid.kids == map[] then Quote(ch) else GroupText(ch, Render(kid), kid.end)
  }

  /** The alternatives for the digits from `from` on. */
  function RenderFrom(t: Trie, from: nat): seq<string>
    requires from <= 10
  {
    KeysPresent(t.kids, from);
    RenderKids(t, Keys(t.kids, from))
  }

  lemma RenderNext(t: Trie, i: nat)
    requires i < 10
    ensures RenderFrom(t, i) == (if DIGITS[i] in t.kids then [KidText(DIGITS[i], t.kids[DIGITS[i]])] else []) +
            RenderFrom(t, i + 1)
  {
    hide Quote;
    hide GroupText;
    hide Render;
    KeysPresent(t.kids, i);
    KeysPresent(t.kids, i + 1);
    if DIGITS[i] in t.kids {
      assert Keys(t.kids, i) == [DIGITS[i]] + Keys(t.kids, i + 1);
      assert Keys(t.kids, i)[1..] == Keys(t.kids, i + 1);
    } else {
      assert Keys(t.kids, i) == Keys(t.kids, i + 1);
    }
  }

  lemma RenderEnds(t: Trie)
    ensures RenderFrom(t, 10) == [] && Render(t) == Join(RenderFrom(t, 0))
  {
    hide Join;
  }

  /** The expression a trie renders to. */
  function Alts(t: Trie): seq<Alt>
    decreases t, 1, 0
  {
    KeysPresent(t.kids, 0);
    AltsFor(t, Keys(t.kids, 0))
  }

  function AltsFor(t: Trie, keys: string): seq<Alt>
    requires forall i | 0 <= i < |keys| :: keys[i] in t.kids
    decreases t, 0, |keys|
  {
    if keys == "" then []
    else
      var kid := t.kids[keys[0]];
      [if kid.kids == map[] then Lit(keys[0]) else Then(keys[0], Alts(kid), kid.end)] + AltsFor(t, keys[1..])
  }

  lemma {:induction false} RenderPrints(t: Trie)
    ensures Render(t) == Print(Alts(t))
    decreases t, 1, 0
  {
    KeysPresent(t.kids, 0);
    RenderKidsPrint(t, Keys(t.kids, 0));
  }

  lemma {:induction false} RenderKidsPrint(t: Trie, keys: string)
    requires forall i | 0 <= i < |keys| :: keys[i] in t.kids
    ensures RenderKids(t, keys) == PrintEach(AltsFor(t, keys))
    decreases t, 0, |keys|
  {
    hide Quote;
    hide GroupText;
    if keys != "" {
      var kid := t.kids[keys[0]];
      RenderPrints(kid);
      RenderKidsPrint(t, keys[1..]);
    }
  }

  lemma {:induction false} AltsPrintable(t: Trie)
    requires WellFormed(t)
    ensures Printable(Alts(t)) && (t.kids != map[] ==> Alts(t) != [])
    decreases t, 1, 0
  {
    KeysPresent(t.kids, 0);
    AltsForPrintable(t, Keys(t.kids, 0));
    if t.kids != map[] {
      var c :| c in t.kids;
      KeysExact(t.kids, 0, c);
    }
  }

  lemma {:induction false} AltsForPrintable(t: Trie, keys: string)
    requires WellFormed(t) && forall i | 0 <= i < |keys| :: keys[i] in t.kids && IsDigit(keys[i])
    ensures Printable(AltsFor(t, keys)) && |AltsFor(t, keys)| == |keys|
    decreases t, 0, |keys|
  {
    if keys != "" {
      AltsPrintable(t.kids[keys[0]]);
      AltsForPrintable(t, keys[1..]);
    }
  }

  /** The expression means exactly the non-empty numerals the trie holds. */
  lemma {:induction false} AltsMatch(t: Trie, w: string)
    requires WellFormed(t)
    ensures Matches(Alts(t), w) <==> w != "" && Holds(t, w)
    decreases t, 1, 0
  {
    KeysPresent(t.kids, 0);
    AltsForMatch(t, Keys(t.kids, 0), w);
    if w != "" {
      if w[0] in t.kids { KeysExact(t.kids, 0, w[0]); }
    }
  }

  lemma {:induction false} AltsForMatch(t: Trie, keys: string, w: string)
    requires WellFormed(t) && forall i | 0 <= i < |keys| :: keys[i] in t.kids
    ensures Matches(AltsFor(t, keys), w) <==> w != "" && w[0] in keys && Holds(t, w)
    decreases t, 0, |keys|
  {
    if keys != "" {
      var kid := t.kids[keys[0]];
      AltsForMatch(t, keys[1..], w);
      assert AltsFor(t, keys)[1..] == AltsFor(t, keys[1..]);
      if w != "" && w[0] == keys[0] {
        AltsMatch(kid, w[1..]);
        assert |w| == 1 <==> w[1..] == "";
        if kid.kids == map[] && |w| > 1 { assert !Holds(kid, w[1..]); }
      }
    }
  }

  // ---------------------------------------------------------------- digit_trie_expr

  function InsertAll(t: Trie, nums: seq<nat>): Trie
    decreases |nums|
  {
    if nums == [] then t else Insert(InsertAll(t, nums[..|nums| - 1]), Show(nums[|nums| - 1]))
  }

  const OPEN_NUM: string := "[0-9] [0-9]? [0-9]?"

  /** `digit_trie_expr`. */
  function DigitTrieExpr(nums: set<nat>): string {
    if nums == {} then OPEN_NUM else Render(InsertAll(EMPTY_TRIE, Sorted(nums)))
  }

  method DigitTrieText(nums: set<nat>) returns (expr: string)
    ensures expr == DigitTrieExpr(nums)
  {
    hide *;
    var sorted := Sorted(nums);
    if |sorted| == 0 {
      NoNumbers(nums);
      return OPEN_NUM;
    }
    var root := new TrieDict();
    assert root.View == InsertAll(EMPTY_TRIE, sorted[..0]) by { InsertNone(); }
    for i := 0 to |sorted|
      invariant root.Valid() && fresh(root.Repr)
      invariant root.View == InsertAll(EMPTY_TRIE, sorted[..i])
    {
      InsertOne(EMPTY_TRIE, sorted[..i], sorted[i]);
      assert sorted[..i + 1] == sorted[..i] + [sorted[i]];
      root.Add(Show(sorted[i]));
    }
    assert sorted[..|sorted|] == sorted;
    SomeNumbers(nums);
    expr := root.Text();
  }

  lemma NoNumbers(nums: set<nat>)
    requires |nums| == 0
    ensures DigitTrieExpr(nums) == OPEN_NUM
  {
  }

  lemma SomeNumbers(nums: set<nat>)
    requires |nums| != 0
    ensures DigitTrieExpr(nums) == Render(InsertAll(EMPTY_TRIE, Sorted(nums)))
  {
  }

  lemma InsertNone()
    ensures InsertAll(EMPTY_TRIE, []) == EMPTY_TRIE
  {
  }

  lemma InsertOne(t: Trie, nums: seq<nat>, n: nat)
    ensures InsertAll(t, nums + [n]) == Insert(InsertAll(t, nums), Show(n))
  {
    assert (nums + [n])[..|nums|] == nums;
  }

  lemma {:induction false} AllHeld(nums: seq<nat>, w: string)
    ensures WellFormed(InsertAll(EMPTY_TRIE, nums))
    ensures Holds(InsertAll(EMPTY_TRIE, nums), w) <==> exists i | 0 <= i < |nums| :: w == Show(nums[i])
    ensures nums != [] ==> InsertAll(EMPTY_TRIE, nums).kids != map[]
    decreases |nums|
  {
    hide Show;
    if nums == [] {
      EmptyHoldsNothing(w);
    } else {
      var m := |nums| - 1;
      AllHeld(nums[..m], w);
      var t := InsertAll(EMPTY_TRIE, nums[..m]);
      InsertHolds(t, Show(nums[m]), w);
      InsertWellFormed(t, Show(nums[m]));
    }
  }

  /** The grammar text built from a non-empty set of numbers accepts exactly their decimal forms. */
  lemma DigitTrieExact(nums: set<nat>, s: string)
    requires nums != {}
    ensures Accepts(DigitTrieExpr(nums), s) == Some(exists n | n in nums :: s == Show(n))
  {
    hide Show;
    hide Accepts;
    hide Render;
    hide Alts;
    hide Matches;
    hide Holds;
    hide InsertAll;
    hide WellFormed;
    var alts := TrieAlts(nums, s);
    AcceptsPrinted(alts, s);
  }

  /** The expression behind the text. */
  lemma TrieAlts(nums: set<nat>, s: string) returns (alts: seq<Alt>)
    requires nums != {}
    ensures DigitTrieExpr(nums) == Print(alts) && Printable(alts) && alts != []
    ensures Matches(alts, s) <==> exists n | n in nums :: s == Show(n)
  {
    hide Show;
    hide Render;
    hide Alts;
    hide Matches;
    hide Holds;
    hide InsertAll;
    hide WellFormed;
    hide Sorted;
    var sorted := Sorted(nums);
    var t := InsertAll(EMPTY_TRIE, sorted);
    AllHeld(sorted, s);
    RenderPrints(t);
    AltsPrintable(t);
    AltsMatch(t, s);
    alts := Alts(t);
    if exists n | n in nums :: s == Show(n) {
      var n :| n in nums && s == Show(n);
      assert n in sorted;
    }
    if exists i | 0 <= i < |sorted| :: s == Show(sorted[i]) {
      var i :| 0 <= i < |sorted| && s == Show(sorted[i]);
      assert sorted[i] in nums;
    }
  }

  // ---------------------------------------------------------------- symbol rules

  const LETTERS: string := "BCDINS"

  /** A constant symbol: a type letter and digits. */
  predicate IsConst(sym: string) {
    |sym| > 1 && sym[0] in LETTERS && AllDigits(sym[1..])
  }

  /** The canonical spelling: no superfluous zeros. */
  function Canonical(sym: string): string
    requires IsConst(sym)
  {
    [sym[0]] + Show(Read(sym[1..]))
  }

  predicate AllConsts(consts: seq<string>) {
    forall i | 0 <= i < |consts| :: IsConst(consts[i])
  }

  /** The numbers declared under one letter. */
  function NumbersOf(consts: seq<string>, letter: char): set<nat>
    requires AllConsts(consts)
  {
    set i | 0 <= i < |consts| && consts[i][0] == letter :: Read(consts[i][1..])
  }

  /** One letter's rule: the quoted letter, then its digit trie in parentheses. */
  function SymbolExpr(letter: char, nums: set<nat>): string {
    GroupText(letter, DigitTrieExpr(nums), false)
  }

  /** One alternative per letter present, letters ascending. */
  function LetterTexts(consts: seq<string>, from: nat): seq<string>
    requires AllConsts(consts) && from <= |LETTERS|
    decreases |LETTERS| - from
  {
    if from == |LETTERS| then []
    else
      var nums := NumbersOf(consts, LETTERS[from]);
      (if nums == {} then [] else [SymbolExpr(LETTERS[from], nums)]) + LetterTexts(consts, from + 1)
  }

  /** `const_expr`. */
  function ConstExpr(consts: seq<string>): string
    requires AllConsts(consts)
  {
    if consts == [] then GroupText('C', OPEN_NUM, false) else Join(LetterTexts(consts, 0))
  }

  /** A declared constant of one of the letters from `from` on, in canonical form. */
  ghost predicate DeclaredFrom(consts: seq<string>, from: nat, s: string)
    requires AllConsts(consts) && from <= |LETTERS|
  {
    exists i | 0 <= i < |consts| :: consts[i][0] in LETTERS[from..] && s == Canonical(consts[i])
  }

  lemma SymbolAlt(letter: char, nums: set<nat>, s: string) returns (a: Alt)
    requires nums != {} && Plain(letter)
    ensures PrintAlt(a) == SymbolExpr(letter, nums) && PrintableAlt(a)
    ensures MatchesAlt(a, s) <==> exists n | n in nums :: s == [letter] + Show(n)
  {
    hide Show;
    hide Matches;
    hide Printable;
    hide DigitTrieExpr;
    var alts := TrieAlts(nums, if s == "" then "" else s[1..]);
    a := Then(letter, alts, false);
    assert s != "" ==> s == [s[0]] + s[1..];
    forall n | n in nums
      ensures s == [letter] + Show(n) <==> s != "" && s[0] == letter && s[1..] == Show(n)
    {
      assert ([letter] + Show(n))[1..] == Show(n);
    }
  }

  /** The `tool` and `field` rules: a letter and a declared number, nothing else. */
  lemma SymbolExact(letter: char, nums: set<nat>, s: string)
    requires nums != {} && Plain(letter)
    ensures Accepts(SymbolExpr(letter, nums), s) == Some(exists n | n in nums :: s == [letter] + Show(n))
  {
    hide Show;
    hide Accepts;
    hide SymbolExpr;
    hide MatchesAlt;
    hide PrintAlt;
    hide PrintableAlt;
    var a := SymbolAlt(letter, nums, s);
    assert [a][1..] == [];
    assert PrintEach([a]) == [PrintAlt(a)];
    AcceptsPrinted([a], s);
    assert !Matches([], s);
    assert Matches([a], s) <==> MatchesAlt(a, s);
  }

  ghost predicate LetterFrom(consts: seq<string>, from: nat)
    requires AllConsts(consts) && from <= |LETTERS|
  {
    exists i | 0 <= i < |consts| :: consts[i][0] in LETTERS[from..]
  }

  lemma LetterStep(consts: seq<string>, from: nat, s: string)
    requires AllConsts(consts) && from < |LETTERS|
    ensures LetterFrom(consts, from) ==> NumbersOf(consts, LETTERS[from]) != {} || LetterFrom(consts, from + 1)
    ensures DeclaredFrom(consts, from, s) <==>
            (exists n | n in NumbersOf(consts, LETTERS[from]) :: s == [LETTERS[from]] + Show(n)) ||
                DeclaredFrom(consts, from + 1, s)
  {
    hide Show;
    hide Canonical;
    hide Read;
    var L := LETTERS[from];
    LetterHere(consts, L, s);
    assert LETTERS[from..] == [L] + LETTERS[from + 1..];
    forall i | 0 <= i < |consts|
      ensures consts[i][0] in LETTERS[from..] <==> consts[i][0] == L || consts[i][0] in LETTERS[from + 1..]
      ensures consts[i][0] == L ==> NumbersOf(consts, L) != {}
    {
      assert consts[i][0] == L ==> Read(consts[i][1..]) in NumbersOf(consts, L);
    }
  }

  lemma {:induction false} LetterAlts(consts: seq<string>, from: nat, s: string) returns (alts: seq<Alt>)
    requires AllConsts(consts) && from <= |LETTERS|
    ensures PrintEach(alts) == LetterTexts(consts, from) && Printable(alts)
    ensures Matches(alts, s) <==> DeclaredFrom(consts, from, s)
    ensures LetterFrom(consts, from) ==> alts != []
    decreases |LETTERS| - from
  {
    hide Show;
    hide SymbolExpr;
    hide MatchesAlt;
    hide PrintAlt;
    hide PrintableAlt;
    hide Canonical;
    if from == |LETTERS| {
      alts := [];
    } else {
      var L := LETTERS[from];
      var nums := NumbersOf(consts, L);
      alts := LetterAlts(consts, from + 1, s);
      LetterStep(consts, from, s);
      hide LetterFrom;
      hide DeclaredFrom;
      if nums != {} {
        var a := SymbolAlt(L, nums, s);
        assert ([a] + alts)[1..] == alts;
        alts := [a] + alts;
      }
    }
  }

  lemma LetterHere(consts: seq<string>, letter: char, s: string)
    requires AllConsts(consts)
    ensures (exists n | n in NumbersOf(consts, letter) :: s == [letter] + Show(n)) <==>
            exists i | 0 <= i < |consts| :: consts[i][0] == letter && s == Canonical(consts[i])
  {
    hide Show;
    hide Read;
    if exists i | 0 <= i < |consts| :: consts[i][0] == letter && s == Canonical(consts[i]) {
      var i :| 0 <= i < |consts| && consts[i][0] == letter && s == Canonical(consts[i]);
      assert Read(consts[i][1..]) in NumbersOf(consts, letter);
    }
  }

  /** The constant rule accepts exactly the declared constants, spelled canonically. */
  lemma ConstExact(consts: seq<string>, s: string)
    requires AllConsts(consts) && consts != []
    ensures Accepts(ConstExpr(consts), s) == Some(exists i | 0 <= i < |consts| :: s == Canonical(consts[i]))
  {
    hide Accepts;
    hide LetterTexts;
    hide Canonical;
    var alts := LetterAlts(consts, 0, s);
    assert LETTERS[0..] == LETTERS;
    assert consts[0][0] in LETTERS[0..];
    assert LetterFrom(consts, 0);
    AcceptsPrinted(alts, s);
  }

  /** With no superfluous zeros in the table, the rule accepts exactly the declared symbols. */
  lemma ConstExactCanonical(consts: seq<string>, s: string)
    requires AllConsts(consts) && consts != []
    requires forall i | 0 <= i < |consts| :: consts[i][1] == '0' ==> |consts[i]| == 2
    ensures Accepts(ConstExpr(consts), s) == Some(s in consts)
  {
    hide Accepts;
    hide ConstExpr;
    ConstExact(consts, s);
    forall i | 0 <= i < |consts|
      ensures Canonical(consts[i]) == consts[i]
    {
      ShowRead(consts[i][1..]);
      assert consts[i] == [consts[i][0]] + consts[i][1..];
    }
  }
}
