/** What comparisons answer. */
module Compare {
  import opened Common
  import opened Ir
  import opened Runtime
  import opened Semantics
  import opened Positions

  // ---------------------------------------------------------------- text

  /** Up to their first difference the texts are the same, and there `a` ends or has the smaller character. */
  predicate DiffersAt(a: string, b: string, k: nat) {
    k <= |a| && k < |b| && a[..k] == b[..k] && (k == |a| || a[k] < b[k])
  }

  lemma {:induction false} TextOrder(a: string, b: string)
    ensures TextLess(a, b) <==> exists k: nat :: DiffersAt(a, b, k)
    decreases a
  {
    if a != "" && b != "" {
      TextOrder(a[1..], b[1..]);
      if TextLess(a[1..], b[1..]) && a[0] == b[0] {
        var k: nat :| DiffersAt(a[1..], b[1..], k);
        DiffersLater(a, b, k);
      }
      if a[0] < b[0] { assert DiffersAt(a, b, 0); }
      forall k: nat | DiffersAt(a, b, k)
        ensures TextLess(a, b)
      {
        if k > 0 { DiffersEarlier(a, b, k); }
      }
    } else if b != "" {
      assert DiffersAt(a, b, 0);
    }
  }

  lemma DiffersLater(a: string, b: string, k: nat)
    requires a != "" && b != "" && a[0] == b[0] && DiffersAt(a[1..], b[1..], k)
    ensures DiffersAt(a, b, k + 1)
  {
    assert a[..k + 1] == [a[0]] + a[1..][..k] && b[..k + 1] == [b[0]] + b[1..][..k];
  }

  lemma DiffersEarlier(a: string, b: string, k: nat)
    requires k > 0 && DiffersAt(a, b, k)
    ensures a != "" && a[0] == b[0] && DiffersAt(a[1..], b[1..], k - 1)
  {
    assert b[..k][0] == b[0] && |a[..k]| == k;
    assert a[..k][0] == a[0];
    assert a[1..][..k - 1] == a[..k][1..] && b[1..][..k - 1] == b[..k][1..];
  }

  /** `t` stands in `s`. */
  ghost predicate Surrounds(s: string, t: string) {
    exists p, q :: s == p + t + q
  }

  lemma {:induction false} SubstringExactly(s: string, t: string)
    ensures HasSubstring(s, t) <==> Surrounds(s, t)
    decreases s
  {
    if t <= s { assert s == "" + t + s[|t|..]; }
    if s != "" {
      SubstringExactly(s[1..], t);
      if Surrounds(s[1..], t) {
        var p, q :| s[1..] == p + t + q;
        assert s == ([s[0]] + p) + t + q;
      }
    }
    forall p, q | s == p + t + q
      ensures HasSubstring(s, t)
    {
      if p == "" {
        assert s == t + q;
      } else {
        assert s[1..] == p[1..] + t + q;
      }
    }
  }

  // ---------------------------------------------------------------- one comparison

  /** A record compares by its id. */
  predicate ComparesAs(x: Value, v: Value) {
    if x.Rec? && "id" in x.fields then v == x.fields["id"] else v == x
  }

  /** Numbers, and what compares as a number: null as 0, truth values as 0 and 1. */
  predicate NumberOf(v: Value, n: int) {
    match v
    case Num(k) => n == k
    case Nil => n == 0
    case Bool(b) => n == if b then 1 else 0
    case _ => false
  }

  predicate SameUpToCase(cfg: Config, a: Value, b: Value) {
    if a.Str? && b.Str? then cfg.norm(a.s) == cfg.norm(b.s) else a == b
  }

  /** Some element of the list, by its id if it is a record, is the same as `a`. */
  predicate MemberOf(cfg: Config, a: Value, list: Value) {
    list.List? && exists i | 0 <= i < |list.elems| ::
      SameUpToCase(cfg, if list.elems[i].Rec? && "id" in list.elems[i].fields then list.elems[i].fields["id"]
                        else list.elems[i], a)
  }

  /** Within the budget a comparison charges one operation and answers a truth value. */
  predicate AnswersBool(cfg: Config, w: World, s: Step, b: bool) {
    s.w == w.(ops := w.ops + 1) && s.r == if w.ops < cfg.maxOps then Ok(Bool(b)) else Err(ToolErr("RATE_LIMITED"))
  }

  /** LT and GT on numbers. */
  lemma NumbersCompare(cfg: Config, w: World, x: Value, y: Value, a: Value, b: Value, m: int, n: int)
    requires ComparesAs(x, a) && ComparesAs(y, b) && NumberOf(a, m) && NumberOf(b, n)
    ensures AnswersBool(cfg, w, RtCmp(cfg, w, LT, x, y), m < n)
    ensures AnswersBool(cfg, w, RtCmp(cfg, w, GT, x, y), m > n)
  {
  }

  /** LT and GT on texts. */
  lemma TextsCompare(cfg: Config, w: World, x: Value, y: Value, a: string, b: string)
    requires ComparesAs(x, Str(a)) && ComparesAs(y, Str(b))
    ensures AnswersBool(cfg, w, RtCmp(cfg, w, LT, x, y), exists k: nat :: DiffersAt(a, b, k))
    ensures AnswersBool(cfg, w, RtCmp(cfg, w, GT, x, y), exists k: nat :: DiffersAt(b, a, k))
  {
    hide TextLess;
    TextOrder(a, b);
    TextOrder(b, a);
  }

  /** Nothing is below or above undefined. */
  lemma UndefinedCompares(cfg: Config, w: World, x: Value, y: Value)
    requires ComparesAs(x, Undef) || ComparesAs(y, Undef)
    ensures AnswersBool(cfg, w, RtCmp(cfg, w, LT, x, y), false)
    ensures AnswersBool(cfg, w, RtCmp(cfg, w, GT, x, y), false)
  {
    hide TextLess;
  }

  /** EQ: the same text up to the normaliser, or the same value. */
  lemma EqualsCompare(cfg: Config, w: World, x: Value, y: Value, a: Value, b: Value)
    requires ComparesAs(x, a) && ComparesAs(y, b)
    ensures AnswersBool(cfg, w, RtCmp(cfg, w, EQ, x, y), SameUpToCase(cfg, a, b))
  {
  }

  /** CONTAINS: the normalised text surrounds the other side's. */
  lemma ContainsCompare(cfg: Config, w: World, x: Value, y: Value, a: Value, b: Value)
    requires ComparesAs(x, a) && ComparesAs(y, b)
    ensures AnswersBool(cfg, w, RtCmp(cfg, w, CONTAINS, x, y), a.Str? &&
                        Surrounds(cfg.norm(a.s), cfg.norm(if b.Str? then b.s else cfg.printer.text(b))))
  {
    hide HasSubstring;
    if a.Str? { SubstringExactly(cfg.norm(a.s), cfg.norm(TextOf(cfg.printer, b))); }
  }

  /** The element of the list at `i` is the same as `a`. */
  predicate MemberAt(cfg: Config, a: Value, list: Value, i: nat)
    requires list.List? && i < |list.elems|
  {
    SameNormed(cfg, NarrowId(list.elems[i]), a)
  }

  lemma MemberExactly(cfg: Config, a: Value, list: Value)
    requires list.List?
    ensures MemberOf(cfg, a, list) <==> exists i | 0 <= i < |list.elems| :: MemberAt(cfg, a, list, i)
  {
    forall i | 0 <= i < |list.elems|
      ensures MemberAt(cfg, a, list, i) <==>
              SameUpToCase(cfg, if list.elems[i].Rec? && "id" in list.elems[i].fields then list.elems[i].fields["id"]
                                else list.elems[i], a)
    {
    }
    hide MemberAt;
    hide SameUpToCase;
  }

  lemma InHolds(cfg: Config, x: Value, y: Value)
    ensures CmpHolds(cfg, IN, x, y) <==>
            var b := NarrowId(y); b.List? && exists i | 0 <= i < |b.elems| :: MemberAt(cfg, NarrowId(x), b, i)
  {
    hide SameNormed;
    var a, b := NarrowId(x), NarrowId(y);
    hide NarrowId;
    if CmpHolds(cfg, IN, x, y) {
      var i :| 0 <= i < |b.elems| && SameNormed(cfg, NarrowId(b.elems[i]), a);
      assert MemberAt(cfg, a, b, i);
    }
    if b.List? {
      forall i | 0 <= i < |b.elems| && MemberAt(cfg, a, b, i)
        ensures CmpHolds(cfg, IN, x, y)
      {
        assert SameNormed(cfg, NarrowId(b.elems[i]), a);
      }
    }
  }

  /** IN: membership under EQ. */
  lemma InCompare(cfg: Config, w: World, x: Value, y: Value, a: Value, b: Value)
    requires ComparesAs(x, a) && ComparesAs(y, b)
    ensures AnswersBool(cfg, w, RtCmp(cfg, w, IN, x, y), MemberOf(cfg, a, b))
  {
    InHolds(cfg, x, y);
    assert NarrowId(x) == a && NarrowId(y) == b;
    if b.List? { MemberExactly(cfg, a, b); }
    hide CmpHolds;
    hide NarrowId;
    hide MemberAt;
    hide SameUpToCase;
  }

  /** EMPTY: null, undefined or a list without elements. */
  lemma EmptyCompare(cfg: Config, w: World, v: Value)
    ensures AnswersBool(cfg, w, RtEmpty(cfg, w, v), v == Nil || v == Undef || (v.List? && |v.elems| == 0))
  {
  }

  // ---------------------------------------------------------------- one clause

  /** The operand has this value whenever it is evaluated, and costs nothing. */
  ghost predicate Steady(cfg: Config, regs: Regs, op: Operand, v: Value) {
    match op
    case OReg(n) => n in regs && regs[n] == v
    case OConst(sym) => sym in cfg.constants && cfg.constants[sym] == v
    case ONow => v == Num(cfg.now)
    case ONull => v == Nil
    case OInt(k) => v == Num(k)
    case ORegField(_, _) => false
  }

  lemma SteadyEval(cfg: Config, regs: Regs, w: World, op: Operand, v: Value)
    requires Steady(cfg, regs, op, v)
    ensures EvalOp(cfg, regs, w, op) == Step(w, Ok(v))
  {
  }

  /** Does `m` stand in this order to `n`? */
  predicate InOrder(cmp: Cmp, m: int, n: int) {
    (cmp.LT? && m < n) || (cmp.GT? && m > n)
  }

  function OneClause(c: Clause): Pred
    requires ClauseComplete(c)
  {
    FlatPred([c], [])
  }

  /** The field of the record holds this number; a field that is not there reads as null. */
  predicate FieldNumber(cfg: Config, x: Value, f: string, n: int) {
    f in cfg.fields && x.Rec? &&
    NumberOf(if cfg.fields[f] in x.fields && x.fields[cfg.fields[f]] != Undef then x.fields[cfg.fields[f]] else Nil, n)
  }

  /** A clause comparing a numeric field with an operand, within the budget: two operations, and the truth of it. */
  lemma FieldClause(cfg: Config, regs: Regs, w: World, x: Value, neg: bool, f: string, cmp: Cmp, op: Operand, v: Value,
                    m: int, n: int)
    requires cmp.LT? || cmp.GT?
    requires FieldNumber(cfg, x, f, m) && Steady(cfg, regs, op, v) && NumberOf(v, n) && w.ops + 2 <= cfg.maxOps
    ensures var c := Clause(neg, LField(f), cmp, ROp(op));
            EvalPred(cfg, regs, w, Some(x), OneClause(c)) ==
            StepBool(w.(ops := w.ops + 2), Ok(InOrder(cmp, m, n) != neg))
  {
    var w1 := Tick(w);
    var a := Prop(x, cfg.fields[f]);
    assert NumberOf(a, m);
    SteadyEval(cfg, regs, w1, op, v);
    NumbersCompare(cfg, w1, a, v, a, v, m, n);
    hide RtCmp;
    hide EvalOp;
  }

  // ---------------------------------------------------------------- FILTER

  /** The elements a predicate keeps, when it answers `takes` of them at `cost` operations each. */
  lemma {:induction false} KeepPicks(cfg: Config, regs: Regs, w: World, p: Pred, xs: seq<Value>, takes: seq<bool>,
                                     cost: nat) returns (out: seq<Value>, idx: seq<nat>)
    requires |takes| == |xs|
    requires forall i, u: World {:trigger EvalPred(cfg, regs, u, Some(xs[i]), p)} |
               0 <= i < |xs| && u.ops + cost <= w.ops + |xs| * cost ::
               EvalPred(cfg, regs, u, Some(xs[i]), p) == StepBool(u.(ops := u.ops + cost), Ok(takes[i]))
    ensures Keep(cfg, regs, w, p, xs) == StepAll(w.(ops := w.ops + |xs| * cost), Ok(out))
    ensures Picked(xs, takes, out, idx)
    decreases xs
  {
    hide EvalFrom;
    if xs == [] {
      out, idx := [], [];
    } else {
      var w1 := w.(ops := w.ops + cost);
      assert w.ops + cost <= w.ops + |xs| * cost by { Multiples(|xs|, cost); }
      assert EvalPred(cfg, regs, w, Some(xs[0]), p) == StepBool(w1, Ok(takes[0]));
      assert w1.ops + |xs[1..]| * cost == w.ops + |xs| * cost by { Multiples(|xs|, cost); }
      forall i, u: World {:trigger EvalPred(cfg, regs, u, Some(xs[1..][i]), p)} |
        0 <= i < |xs[1..]| && u.ops + cost <= w1.ops + |xs[1..]| * cost
        ensures EvalPred(cfg, regs, u, Some(xs[1..][i]), p) == StepBool(u.(ops := u.ops + cost), Ok(takes[1..][i]))
      {
        assert xs[1..][i] == xs[i + 1] && takes[1..][i] == takes[i + 1];
      }
      var tail, rest := KeepPicks(cfg, regs, w1, p, xs[1..], takes[1..], cost);
      idx := PickMore(xs, takes, tail, rest);
      out := (if takes[0] then [xs[0]] else []) + tail;
    }
  }

  lemma Multiples(n: nat, cost: nat)
    requires n > 0
    ensures n * cost == cost + (n - 1) * cost && n * cost >= cost
  {
  }

  lemma FilterStep(cfg: Config, st: St, line: nat, src: nat, dst: nat, p: Pred, seen: set<nat>, xs: seq<Value>,
                   w1: World, out: seq<Value>)
    requires src in st.regs && st.regs[src] == List(xs)
    requires Keep(cfg, st.regs, Enter(st, line).w, p, xs) == StepAll(w1, Ok(out))
    ensures ExecStmt(cfg, At(line, Filter(src, p, dst)), seen, st) == Out(St(st.regs[dst := List(out)], w1), Next)
  {
    hide Keep;
    assert Lookup(st.regs, src) == List(xs);
  }

  /** FILTER by one clause over a numeric field answers exactly the elements whose number is below (above) the
      operand's, in order; with NOT, exactly the others. */
  lemma FilterAnswers(cfg: Config, st: St, line: nat, src: nat, dst: nat, neg: bool, f: string, cmp: Cmp, op: Operand,
                      v: Value, n: int, seen: set<nat>, xs: seq<Value>, nums: seq<int>)
    returns (out: seq<Value>, idx: seq<nat>)
    requires (cmp.LT? || cmp.GT?) && Steady(cfg, st.regs, op, v) && NumberOf(v, n)
    requires src in st.regs && st.regs[src] == List(xs) && |nums| == |xs|
    requires forall i | 0 <= i < |xs| :: FieldNumber(cfg, xs[i], f, nums[i])
    requires st.w.ops + |xs| * 2 <= cfg.maxOps
    ensures var s := At(line, Filter(src, OneClause(Clause(neg, LField(f), cmp, ROp(op))), dst));
            var w := Enter(st, line).w;
            ExecStmt(cfg, s, seen, st) ==
            Out(St(st.regs[dst := List(out)], w.(ops := w.ops + |xs| * 2)), Next)
    ensures Rising(idx) && StandAt(xs, out, idx)
    ensures forall i | 0 <= i < |xs| :: i in idx <==> InOrder(cmp, nums[i], n) != neg
  {
    hide EvalFrom;
    hide FieldNumber;
    hide Steady;
    hide ExecStmt;
    var p := OneClause(Clause(neg, LField(f), cmp, ROp(op)));
    var w := Enter(st, line).w;
    var takes := seq(|xs|, i requires 0 <= i < |xs| => InOrder(cmp, nums[i], n) != neg);
    forall i, u: World {:trigger EvalPred(cfg, st.regs, u, Some(xs[i]), p)} |
      0 <= i < |xs| && u.ops + 2 <= w.ops + |xs| * 2
      ensures EvalPred(cfg, st.regs, u, Some(xs[i]), p) == StepBool(u.(ops := u.ops + 2), Ok(takes[i]))
    {
      FieldClause(cfg, st.regs, u, xs[i], neg, f, cmp, op, v, nums[i], n);
    }
    out, idx := KeepPicks(cfg, st.regs, w, p, xs, takes, 2);
    hide Keep;
    FilterStep(cfg, st, line, src, dst, p, seen, xs, w.(ops := w.ops + |xs| * 2), out);
    hide Rising;
    hide StandAt;
    forall i | 0 <= i < |xs|
      ensures i in idx <==> InOrder(cmp, nums[i], n) != neg
    {
      assert takes[i] == (InOrder(cmp, nums[i], n) != neg);
    }
  }

  // ---------------------------------------------------------------- IF

  lemma CondClause(cfg: Config, regs: Regs, w: World, neg: bool, cmp: Cmp, l: Operand, r: Operand, a: Value, b: Value,
                   m: int, n: int)
    requires (cmp.LT? || cmp.GT?) && w.ops < cfg.maxOps
    requires Steady(cfg, regs, l, a) && Steady(cfg, regs, r, b) && NumberOf(a, m) && NumberOf(b, n)
    ensures EvalPred(cfg, regs, w, None, OneClause(Clause(neg, LOp(l), cmp, ROp(r)))) ==
            StepBool(w.(ops := w.ops + 1), Ok(InOrder(cmp, m, n) != neg))
  {
    SteadyEval(cfg, regs, w, l, a);
    SteadyEval(cfg, regs, w, r, b);
    NumbersCompare(cfg, w, a, b, a, b, m, n);
    hide RtCmp;
    hide EvalOp;
    hide Steady;
  }

  /** IF on one comparison of numbers takes the arm its truth asks for. */
  lemma IfTakes(cfg: Config, st: St, line: nat, neg: bool, cmp: Cmp, l: Operand, r: Operand, a: Value, b: Value,
                m: int, n: int, thn: seq<Stmt>, els: ElseArm, seen: set<nat>)
    requires (cmp.LT? || cmp.GT?) && st.w.ops < cfg.maxOps
    requires Steady(cfg, st.regs, l, a) && Steady(cfg, st.regs, r, b) && NumberOf(a, m) && NumberOf(b, n)
    ensures var s := At(line, If(OneClause(Clause(neg, LOp(l), cmp, ROp(r))), thn, els));
            var st1 := Enter(st, line).(w := Enter(st, line).w.(ops := st.w.ops + 1));
            ExecStmt(cfg, s, seen, st) ==
            if InOrder(cmp, m, n) != neg then ExecBlock(cfg, thn, seen, st1)
            else if els.Else? then ExecBlock(cfg, els.body, seen + Dsts(thn), st1)
            else Out(st1, Next)
  {
    hide ExecBlock;
    hide Dsts;
    hide EvalPred;
    hide Steady;
    hide NumberOf;
    CondClause(cfg, st.regs, Enter(st, line).w, neg, cmp, l, r, a, b, m, n);
  }
}
