/** FORMAT: what a filled template says. */
module Template {
  import opened Common
  import opened Decimal
  import opened Ir
  import opened Runtime
  import opened Semantics
  import opened Check
  import opened Rules

  // ---------------------------------------------------------------- the parts of a template

  function SlotTexts(ds: seq<string>): seq<string> {
    seq(|ds|, i requires 0 <= i < |ds| => "{" + ds[i] + "}")
  }

  /** The literal parts with `mids` between them. */
  function Woven(lits: seq<string>, mids: seq<string>): string
    requires |lits| == |mids| + 1
  {
    if mids == [] then lits[0] else lits[0] + mids[0] + Woven(lits[1..], mids[1..])
  }

  /** What a value shows in a slot of this kind: nothing for null, a date for a time, a record by its id. */
  predicate Shows(p: Printer, v: Value, kind: string, t: string) {
    match v
    case Undef => t == ""
    case Nil => t == ""
    case Str(s) => t == s
    case Num(n) => t == if kind == "TIME" then p.date(n) else p.text(v)
    case Bool(_) => t == p.text(v)
    case List(_) => t == p.json(v)
    case Rec(fs) =>
      t == if "id" in fs && fs["id"] != Undef then (if fs["id"].Str? then fs["id"].s else p.text(fs["id"]))
           else p.json(v)
  }

  /** Slot `d` shows the value at its number, nothing where there is none. */
  predicate SlotShows(p: Printer, vals: seq<Value>, kinds: seq<string>, d: string, t: string) {
    d != "" && AllDigits(d) &&
    var i := Read(d);
    Shows(p, if i < |vals| then vals[i] else Undef, if i < |kinds| then kinds[i] else "", t)
  }

  predicate NoSlot(lit: string) {
    Slots(lit) == {}
  }

  lemma RenderedShows(p: Printer, v: Value, kind: string)
    ensures Shows(p, v, kind, Rendered(p, v, kind))
  {
  }

  /** A character that starts no slot joins the first literal. */
  lemma NoSlotMore(s: string, lit: string)
    requires s != "" && lit <= s[1..] && NoSlot(lit)
    requires var k := FrontDigits(s[1..]); !(s[0] == '{' && k > 0 && k + 1 < |s| && s[k + 1] == '}')
    ensures NoSlot([s[0]] + lit)
  {
    var more := [s[0]] + lit;
    assert more[1..] == lit;
    var k := FrontDigits(lit);
    if more[0] == '{' && k > 0 && k + 1 < |more| && more[k + 1] == '}' {
      FrontDigitsAre(lit);
      assert s[1..][..k] == lit[..k] && s[1..][k] == lit[k] == '}';
      FrontRun(s[1..], lit[..k]);
      assert false;
    }
  }

  /** `lits` and `ds` are the literal parts and the slot numbers of `s`, and `out` is `s` with `shown` in the slots. */
  ghost predicate Fills(p: Printer, s: string, vals: seq<Value>, kinds: seq<string>, lits: seq<string>,
                        ds: seq<string>, shown: seq<string>, out: string) {
    && |lits| == |ds| + 1 && |shown| == |ds|
    && s == Woven(lits, SlotTexts(ds)) && out == Woven(lits, shown)
    && (forall j | 0 <= j < |ds| :: SlotShows(p, vals, kinds, ds[j], shown[j]))
    && (forall j | 0 <= j < |lits| :: NoSlot(lits[j]))
    && (forall d :: d in Slots(s) <==> d in ds)
  }

  lemma FillChar(p: Printer, s: string, vals: seq<Value>, kinds: seq<string>, lits: seq<string>, ds: seq<string>,
                 shown: seq<string>) returns (lits1: seq<string>)
    requires s != "" && Fills(p, s[1..], vals, kinds, lits, ds, shown, Filled(p, s[1..], vals, kinds))
    requires var k := FrontDigits(s[1..]); !(s[0] == '{' && k > 0 && k + 1 < |s| && s[k + 1] == '}')
    ensures Fills(p, s, vals, kinds, lits1, ds, shown, Filled(p, s, vals, kinds))
  {
    hide SlotShows;
    hide Rendered;
    lits1 := [[s[0]] + lits[0]] + lits[1..];
    assert lits1[1..] == lits[1..];
    WovenStarts(lits, SlotTexts(ds));
    NoSlotMore(s, lits[0]);
    WovenFirst(lits, lits1, SlotTexts(ds), s[0]);
    WovenFirst(lits, lits1, shown, s[0]);
    hide Woven;
    assert s == [s[0]] + s[1..];
    forall j | 0 <= j < |lits1|
      ensures NoSlot(lits1[j])
    {
      if j > 0 { assert lits1[j] == lits[j]; }
    }
  }

  lemma WovenStarts(lits: seq<string>, mids: seq<string>)
    requires |lits| == |mids| + 1
    ensures lits[0] <= Woven(lits, mids)
  {
  }

  lemma WovenFirst(lits: seq<string>, lits1: seq<string>, mids: seq<string>, c: char)
    requires |lits| == |mids| + 1 && lits1 == [[c] + lits[0]] + lits[1..]
    ensures Woven(lits1, mids) == [c] + Woven(lits, mids)
  {
    assert lits1[1..] == lits[1..];
    if mids != [] {
      WovenStep(lits, mids);
      WovenStep(lits1, mids);
      hide Woven;
      ConsGroups(c, lits[0], mids[0]);
      ConsGroups(c, lits[0] + mids[0], Woven(lits[1..], mids[1..]));
    }
  }

  lemma ConsGroups(c: char, a: string, b: string)
    ensures ([c] + a) + b == [c] + (a + b)
  {
  }

  lemma FrontSplit(s: string, k: nat)
    requires 0 < k < |s| - 1
    ensures s == [s[0]] + s[1..][..k] + [s[k + 1]] + s[k + 2..]
  {
    assert s == s[..k + 2] + s[k + 2..];
    assert s[..k + 2] == [s[0]] + s[1..][..k] + [s[k + 1]];
  }

  lemma SlotAhead(s: string, k: nat)
    requires s != "" && k == FrontDigits(s[1..]) && s[0] == '{' && k > 0 && k + 1 < |s| && s[k + 1] == '}'
    ensures var d := s[1..][..k]; d != "" && AllDigits(d) && s == "{" + d + "}" + s[k + 2..]
  {
    hide FrontDigits;
    FrontSplit(s, k);
    assert [s[0]] == "{" && [s[k + 1]] == "}";
  }

  lemma SlotsAhead(s: string, k: nat)
    requires s != "" && k == FrontDigits(s[1..]) && s[0] == '{' && k > 0 && k + 1 < |s| && s[k + 1] == '}'
    ensures Slots(s) == {s[1..][..k]} + Slots(s[k + 2..])
  {
    assert s[1..k + 1] == s[1..][..k];
    hide FrontDigits;
  }

  /** What the slot ahead shows. */
  function Ahead(p: Printer, d: string, vals: seq<Value>, kinds: seq<string>): string
    requires AllDigits(d)
  {
    Rendered(p, ParamAt(vals, Read(d)), if Read(d) < |kinds| then kinds[Read(d)] else "")
  }

  lemma AheadShows(p: Printer, d: string, vals: seq<Value>, kinds: seq<string>)
    requires d != "" && AllDigits(d)
    ensures SlotShows(p, vals, kinds, d, Ahead(p, d, vals, kinds))
  {
    hide Read;
    hide Rendered;
    RenderedShows(p, ParamAt(vals, Read(d)), if Read(d) < |kinds| then kinds[Read(d)] else "");
    hide Shows;
  }

  lemma FilledAhead(p: Printer, s: string, vals: seq<Value>, kinds: seq<string>, k: nat)
    requires s != "" && k == FrontDigits(s[1..]) && s[0] == '{' && k > 0 && k + 1 < |s| && s[k + 1] == '}'
    ensures Filled(p, s, vals, kinds) == Ahead(p, s[1..][..k], vals, kinds) + Filled(p, s[k + 2..], vals, kinds)
  {
    hide Read;
    hide Rendered;
  }

  lemma FillSlot(p: Printer, s: string, vals: seq<Value>, kinds: seq<string>, k: nat, lits: seq<string>,
                 ds: seq<string>, shown: seq<string>) returns (d: string, t: string)
    requires s != "" && k == FrontDigits(s[1..]) && s[0] == '{' && k > 0 && k + 1 < |s| && s[k + 1] == '}'
    requires Fills(p, s[k + 2..], vals, kinds, lits, ds, shown, Filled(p, s[k + 2..], vals, kinds))
    ensures Fills(p, s, vals, kinds, [""] + lits, [d] + ds, [t] + shown, Filled(p, s, vals, kinds))
  {
    SlotAhead(s, k);
    SlotsAhead(s, k);
    d := s[1..][..k];
    t := Ahead(p, d, vals, kinds);
    AheadShows(p, d, vals, kinds);
    FilledAhead(p, s, vals, kinds, k);
    hide Ahead;
    hide Filled;
    hide SlotShows;
    WovenSlot(lits, ds, d);
    WovenNext(lits, shown, t);
    hide Woven;
    hide SlotTexts;
    assert NoSlot("");
    hide NoSlot;
    hide Slots;
    hide FrontDigits;
    var ds1, shown1, lits1 := [d] + ds, [t] + shown, [""] + lits;
    forall j | 0 <= j < |ds1|
      ensures SlotShows(p, vals, kinds, ds1[j], shown1[j])
    {
      if j > 0 { assert ds1[j] == ds[j - 1] && shown1[j] == shown[j - 1]; }
    }
    forall j | 0 <= j < |lits1|
      ensures NoSlot(lits1[j])
    {
      if j > 0 { assert lits1[j] == lits[j - 1]; }
    }
    assert forall x :: x in ds1 <==> x == d || x in ds;
  }

  lemma WovenStep(lits: seq<string>, mids: seq<string>)
    requires |lits| == |mids| + 1 && mids != []
    ensures Woven(lits, mids) == lits[0] + mids[0] + Woven(lits[1..], mids[1..])
  {
  }

  lemma WovenNext(lits: seq<string>, mids: seq<string>, m: string)
    requires |lits| == |mids| + 1
    ensures Woven([""] + lits, [m] + mids) == m + Woven(lits, mids)
  {
    hide Woven;
    var ls, ms := [""] + lits, [m] + mids;
    WovenStep(ls, ms);
    assert ls[1..] == lits && ms[1..] == mids;
    assert ls[0] + ms[0] == m;
  }

  lemma WovenSlot(lits: seq<string>, ds: seq<string>, d: string)
    requires |lits| == |ds| + 1
    ensures Woven([""] + lits, SlotTexts([d] + ds)) == "{" + d + "}" + Woven(lits, SlotTexts(ds))
  {
    assert SlotTexts([d] + ds) == ["{" + d + "}"] + SlotTexts(ds);
    WovenNext(lits, SlotTexts(ds), "{" + d + "}");
  }

  lemma {:induction false} FillDoes(p: Printer, s: string, vals: seq<Value>, kinds: seq<string>)
    returns (lits: seq<string>, ds: seq<string>, shown: seq<string>)
    ensures Fills(p, s, vals, kinds, lits, ds, shown, Filled(p, s, vals, kinds))
    decreases |s|
  {
    hide SlotShows;
    if s == "" {
      lits, ds, shown := [""], [], [];
      assert SlotTexts([]) == [];
    } else {
      var k := FrontDigits(s[1..]);
      hide Fills;
      hide Filled;
      if s[0] == '{' && k > 0 && k + 1 < |s| && s[k + 1] == '}' {
        lits, ds, shown := FillDoes(p, s[k + 2..], vals, kinds);
        var d, t := FillSlot(p, s, vals, kinds, k, lits, ds, shown);
        lits, ds, shown := [""] + lits, [d] + ds, [t] + shown;
      } else {
        lits, ds, shown := FillDoes(p, s[1..], vals, kinds);
        lits := FillChar(p, s, vals, kinds, lits, ds, shown);
      }
    }
  }

  // ---------------------------------------------------------------- FORMAT

  /** `out` is the template with each slot showing its value and the text between the slots as it stands. */
  ghost predicate Formats(p: Printer, s: string, vals: seq<Value>, kinds: seq<string>, lits: seq<string>,
                          ds: seq<string>, shown: seq<string>, out: string) {
    && |lits| == |ds| + 1 && |shown| == |ds|
    && s == Woven(lits, SlotTexts(ds)) && out == Woven(lits, shown)
    && (forall j | 0 <= j < |ds| :: SlotShows(p, vals, kinds, ds[j], shown[j]))
    && (forall j, d | 0 <= j < |lits| :: !SlotIn(lits[j], d))
  }

  lemma NoSlotIn(lit: string, d: string)
    requires NoSlot(lit)
    ensures !SlotIn(lit, d)
  {
    SlotsExactly(lit, d);
  }

  lemma FillsFormats(p: Printer, s: string, vals: seq<Value>, kinds: seq<string>, lits: seq<string>, ds: seq<string>,
                     shown: seq<string>, out: string)
    requires Fills(p, s, vals, kinds, lits, ds, shown, out)
    ensures Formats(p, s, vals, kinds, lits, ds, shown, out)
    ensures forall d :: SlotIn(s, d) <==> d in ds
  {
    hide SlotShows;
    hide SlotIn;
    hide Woven;
    hide NoSlot;
    forall j, d | 0 <= j < |lits|
      ensures !SlotIn(lits[j], d)
    {
      NoSlotIn(lits[j], d);
    }
    forall d
      ensures SlotIn(s, d) <==> d in ds
    {
      SlotsExactly(s, d);
    }
  }

  /** FORMAT, its operands evaluated and within the budget: the constant's text with its slots filled. */
  lemma FormatAnswers(cfg: Config, st: St, line: nat, sym: string, ops: seq<Operand>, kinds: seq<string>, dst: nat,
                      seen: set<nat>, s: string, w1: World, vals: seq<Value>)
    returns (lits: seq<string>, ds: seq<string>, shown: seq<string>, out: string)
    requires sym in cfg.constants && cfg.constants[sym] == Str(s)
    requires EvalOps(cfg, st.regs, Enter(st, line).w, ops) == StepAll(w1, Ok(vals)) && w1.ops < cfg.maxOps
    ensures ExecStmt(cfg, At(line, Format(sym, ops, dst, kinds)), seen, st) ==
            Out(St(st.regs[dst := Str(out)], w1.(ops := w1.ops + 1)), Next)
    ensures Formats(cfg.printer, s, vals, kinds, lits, ds, shown, out)
    ensures forall d :: SlotIn(s, d) <==> d in ds
  {
    out := Filled(cfg.printer, s, vals, kinds);
    lits, ds, shown := FillDoes(cfg.printer, s, vals, kinds);
    FillsFormats(cfg.printer, s, vals, kinds, lits, ds, shown, out);
    FormatStep(cfg, st, line, sym, ops, kinds, dst, seen, s, w1, vals);
    hide *;
  }

  lemma FormatStep(cfg: Config, st: St, line: nat, sym: string, ops: seq<Operand>, kinds: seq<string>, dst: nat,
                   seen: set<nat>, s: string, w1: World, vals: seq<Value>)
    requires sym in cfg.constants && cfg.constants[sym] == Str(s)
    requires EvalOps(cfg, st.regs, Enter(st, line).w, ops) == StepAll(w1, Ok(vals)) && w1.ops < cfg.maxOps
    ensures ExecStmt(cfg, At(line, Format(sym, ops, dst, kinds)), seen, st) ==
            Out(St(st.regs[dst := Str(Filled(cfg.printer, s, vals, kinds))], w1.(ops := w1.ops + 1)), Next)
  {
    hide EvalOps;
    hide Filled;
    hide EvalFrom;
    hide Keep;
    hide Iterable;
    hide RtExtreme;
    hide RtSort;
    hide RtMap;
    hide RtSelect;
  }

  /** Slot text `d` is the number of value `i` and shows it. */
  predicate ShowsValue(p: Printer, vals: seq<Value>, kinds: seq<string>, i: nat, d: string, t: string) {
    i < |vals| && d == Show(i) && Shows(p, vals[i], if i < |kinds| then kinds[i] else "", t)
  }

  lemma ShownValue(p: Printer, vals: seq<Value>, kinds: seq<string>, i: nat, d: string, t: string)
    requires SlotShows(p, vals, kinds, d, t) && i < |vals| && d == Show(i)
    ensures ShowsValue(p, vals, kinds, i, d, t)
  {
    hide Shows;
    hide Show;
    hide Read;
    ReadShow(i);
  }

  predicate ShowsSome(p: Printer, vals: seq<Value>, kinds: seq<string>, d: string, t: string) {
    exists i | 0 <= i < |vals| :: ShowsValue(p, vals, kinds, i, d, t)
  }

  predicate ShownSomewhere(p: Printer, vals: seq<Value>, kinds: seq<string>, i: nat, ds: seq<string>,
                           shown: seq<string>)
    requires |ds| == |shown|
  {
    exists j | 0 <= j < |ds| :: ShowsValue(p, vals, kinds, i, ds[j], shown[j])
  }

  /** In a template that checks clean against its operands each slot shows one of them, and each is shown. */
  lemma CleanTemplate(ctx: TaskContext, sym: string, p: Printer, vals: seq<Value>, kinds: seq<string>,
                      lits: seq<string>, ds: seq<string>, shown: seq<string>, out: string, line: nat)
    requires CheckTemplate(ctx, sym, |vals|, line) == []
    requires sym in ctx.constants && Formats(p, ctx.constants[sym].text, vals, kinds, lits, ds, shown, out)
    requires forall d :: SlotIn(ctx.constants[sym].text, d) <==> d in ds
    ensures forall j | 0 <= j < |ds| :: ShowsSome(p, vals, kinds, ds[j], shown[j])
    ensures forall i: nat | i < |vals| :: ShownSomewhere(p, vals, kinds, i, ds, shown)
  {
    hide Show;
    hide SlotIn;
    hide SlotShows;
    hide ShowsValue;
    hide Woven;
    TemplateExactly(ctx, sym, |vals|, line);
    hide CheckTemplate;
    forall j | 0 <= j < |ds|
      ensures ShowsSome(p, vals, kinds, ds[j], shown[j])
    {
      assert ds[j] in ds;
      var i: nat :| i < |vals| && ds[j] == Show(i);
      ShownValue(p, vals, kinds, i, ds[j], shown[j]);
    }
    forall i: nat | i < |vals|
      ensures ShownSomewhere(p, vals, kinds, i, ds, shown)
    {
      assert Show(i) in ds;
      var j :| 0 <= j < |ds| && ds[j] == Show(i);
      ShownValue(p, vals, kinds, i, ds[j], shown[j]);
    }
  }
}
