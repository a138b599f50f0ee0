/** Emitted expressions and conditions mean what the direct semantics says. */
module CompilePred {
  import opened Common
  import opened Ir
  import opened Runtime
  import opened Semantics
  import opened JsTarget
  import opened Compile

  /** The registers as the `let` line leaves them: declared, all `undefined`. */
  predicate Blank(base: Regs) {
    forall n | n in base :: base[n] == Undef
  }

  lemma {:induction false} OperandOk(cfg: Config, base: Regs, regs: Regs, w: World, elem: Option<Value>, op: Operand)
    requires Blank(base) && OpUses(op) <= base.Keys
    ensures JsEval(cfg, base + regs, w, elem, OperandE(op)) == EvalOp(cfg, regs, w, op)
  {
    hide RtFld;
    match op
    case ORegField(n, f) =>
      assert JsEval(cfg, base + regs, w, elem, Var(n)) == Step(w, Ok(Lookup(regs, n)));
    case _ =>
  }

  lemma {:induction false} OperandsOk(cfg: Config, base: Regs, regs: Regs, w: World, elem: Option<Value>,
                                      ops: seq<Operand>)
    requires Blank(base) && OpsUses(ops) <= base.Keys
    ensures JsEvalAll(cfg, base + regs, w, elem, OperandsE(ops)) == EvalOps(cfg, regs, w, ops)
    decreases ops
  {
    hide EvalOp;
    hide JsEval;
    if ops != [] {
      OperandOk(cfg, base, regs, w, elem, ops[0]);
      var h := EvalOp(cfg, regs, w, ops[0]);
      assert OperandsE(ops)[0] == OperandE(ops[0]);
      assert OperandsE(ops)[1..] == OperandsE(ops[1..]);
      OperandsOk(cfg, base, regs, h.w, elem, ops[1..]);
    }
  }

  lemma {:induction false} ElemFldOk(cfg: Config, regs: Regs, w: World, elem: Option<Value>, f: string)
    ensures JsEval(cfg, regs, w, elem, FldE(ElemVar, f)) == ElemFld(cfg, w, elem, f)
  {
    hide RtFld;
    assert JsEval(cfg, regs, w, elem, ElemVar).w == w;
  }

  lemma {:induction false} LeftOk(cfg: Config, base: Regs, regs: Regs, w: World, elem: Option<Value>, l: Left)
    requires Blank(base) && (l.LOp? ==> OpUses(l.op) <= base.Keys)
    ensures JsEval(cfg, base + regs, w, elem, LeftE(l)) == EvalLeft(cfg, regs, w, elem, l)
  {
    hide JsEval;
    match l
    case LField(f) => ElemFldOk(cfg, base + regs, w, elem, f);
    case LOp(op) => OperandOk(cfg, base, regs, w, elem, op);
  }

  lemma {:induction false} RightOk(cfg: Config, base: Regs, regs: Regs, w: World, elem: Option<Value>, r: Right)
    requires Blank(base) && (r.ROp? ==> OpUses(r.op) <= base.Keys) && !r.RNone?
    ensures JsEval(cfg, base + regs, w, elem, RightE(r)) == EvalRight(cfg, regs, w, elem, r)
  {
    hide JsEval;
    match r
    case RElem(f) => ElemFldOk(cfg, base + regs, w, elem, f);
    case ROp(op) => OperandOk(cfg, base, regs, w, elem, op);
  }

  lemma {:induction false} ClauseOk(cfg: Config, base: Regs, regs: Regs, w: World, elem: Option<Value>, c: Clause)
    requires Blank(base) && ClauseUses(c) <= base.Keys && ClauseComplete(c)
    ensures JsAtom(cfg, base + regs, w, elem, ClauseTok(c)) == EvalClause(cfg, regs, w, elem, c)
  {
    hide RtCmp;
    hide RtEmpty;
    LeftOk(cfg, base, regs, w, elem, c.left);
    var l := EvalLeft(cfg, regs, w, elem, c.left);
    if l.r.Ok? && !c.cmp.EMPTY? {
      RightOk(cfg, base, regs, l.w, elem, c.right);
    }
    hide EvalLeft;
    hide EvalRight;
    hide LeftE;
    hide RightE;
    assert JsEval(cfg, base + regs, w, elem, ClauseTok(c).test) == EvalTest(cfg, regs, w, elem, c);
  }

  // ---------------------------------------------------------------- AND binds tighter than OR

  /** The first `n` clauses of a predicate. */
  function Prefix(p: Pred, n: nat): Pred
    requires 0 < n <= |p.clauses|
  {
    FlatPred(p.clauses[..n], p.ops[..n - 1])
  }

  /** The clauses from `n` on. */
  function Suffix(p: Pred, n: nat): Pred
    requires n < |p.clauses|
  {
    FlatPred(p.clauses[n..], p.ops[n..])
  }

  lemma ToksSplit(p: Pred, k: nat)
    requires k < |p.ops|
    ensures PredToks(p)[..2 * k + 1] == PredToks(Prefix(p, k + 1))
    ensures PredToks(p)[2 * k + 1] == OpTok(p.ops[k])
    ensures PredToks(p)[2 * k + 2..] == PredToks(Suffix(p, k + 1))
  {
    var a, b := PredToks(p)[2 * k + 2..], PredToks(Suffix(p, k + 1));
    forall j | 0 <= j < |b|
      ensures a[j] == b[j]
    {
      assert (j + 2 * (k + 1)) / 2 == j / 2 + (k + 1) && (j + 2 * (k + 1)) % 2 == j % 2;
      assert a[j] == PredToks(p)[j + 2 * (k + 1)];
    }
    assert |a| == |b|;
  }

  /** The last connective of a kind sits at the matching odd position of the token list. */
  lemma LastOp(p: Pred, op: Connective)
    ensures var k := LastIndex(PredToks(p), OpTok(op));
            if k == |PredToks(p)| then forall j | 0 <= j < |p.ops| :: p.ops[j] != op
            else k % 2 == 1 && p.ops[k / 2] == op && forall j | k / 2 < j < |p.ops| :: p.ops[j] != op
  {
    hide LastIndex;
    var toks := PredToks(p);
    forall j | 0 <= j < |p.ops|
      ensures toks[2 * j + 1] == OpTok(p.ops[j])
    {
    }
    var k := LastIndex(toks, OpTok(op));
    if k < |toks| {
      assert toks[k] == OpTok(op);
    }
  }

  lemma {:induction false} NextGroupPrefix(p: Pred, i: nat, n: nat)
    requires i < n <= |p.clauses|
    requires n == |p.clauses| || p.ops[n - 1] == OR
    ensures NextGroup(Prefix(p, n), i) == NextGroup(p, i)
    decreases |p.clauses| - i
  {
    if i != n - 1 && p.ops[i] == AND {
      NextGroupPrefix(p, i + 1, n);
    }
  }

  lemma {:induction false} NextGroupAtMost(p: Pred, i: nat, k: nat)
    requires i <= k < |p.ops| && p.ops[k] == OR
    ensures NextGroup(p, i) <= k + 1
    decreases |p.clauses| - i
  {
    if p.ops[i] == AND { NextGroupAtMost(p, i + 1, k); }
  }

  /** An OR splits a predicate into the part before it and the part after it. */
  lemma {:induction false} SplitOr(cfg: Config, regs: Regs, w: World, elem: Option<Value>, p: Pred, i: nat, k: nat)
    requires i <= k < |p.ops| && p.ops[k] == OR
    ensures EvalFrom(cfg, regs, w, elem, p, i) ==
            var r := EvalFrom(cfg, regs, w, elem, Prefix(p, k + 1), i);
            if r.r.Err? || r.r.value then r else EvalFrom(cfg, regs, r.w, elem, p, k + 1)
    decreases |p.clauses| - i
  {
    hide EvalClause;
    hide NextGroup;
    var c := EvalClause(cfg, regs, w, elem, p.clauses[i]);
    var q := Prefix(p, k + 1);
    assert q.clauses[i] == p.clauses[i];
    if c.r.Ok? {
      if c.r.value {
        if i < k && p.ops[i] == AND {
          SplitOr(cfg, regs, c.w, elem, p, i + 1, k);
        }
      } else {
        NextGroupPrefix(p, i, k + 1);
        NextGroupAtMost(p, i, k);
        var j := NextGroup(p, i);
        if j <= k {
          SplitOr(cfg, regs, c.w, elem, p, j, k);
        }
      }
    }
  }

  /** In an all-AND predicate the last clause is reached exactly when the others hold. */
  lemma {:induction false} SplitAnd(cfg: Config, regs: Regs, w: World, elem: Option<Value>, p: Pred, i: nat)
    requires i < |p.ops| && forall j | 0 <= j < |p.ops| :: p.ops[j] == AND
    ensures EvalFrom(cfg, regs, w, elem, p, i) ==
            var r := EvalFrom(cfg, regs, w, elem, Prefix(p, |p.ops|), i);
            if r.r.Err? || !r.r.value then r else EvalClause(cfg, regs, r.w, elem, p.clauses[|p.ops|])
    decreases |p.clauses| - i
  {
    hide EvalClause;
    hide NextGroup;
    var n := |p.ops|;
    var q := Prefix(p, n);
    assert q.clauses[i] == p.clauses[i];
    var c := EvalClause(cfg, regs, w, elem, p.clauses[i]);
    if c.r.Ok? && c.r.value {
      if i + 1 < n {
        SplitAnd(cfg, regs, c.w, elem, p, i + 1);
      } else {
        var d := EvalClause(cfg, regs, c.w, elem, p.clauses[n]);
        assert EvalFrom(cfg, regs, c.w, elem, p, n) == d;
      }
    }
  }

  lemma {:induction false} ShiftGroup(p: Pred, n: nat, i: nat)
    requires n + i < |p.clauses|
    ensures NextGroup(Suffix(p, n), i) + n == NextGroup(p, n + i)
    decreases |p.clauses| - i
  {
    if n + i < |p.ops| && p.ops[n + i] == AND {
      ShiftGroup(p, n, i + 1);
    }
  }

  lemma {:induction false} Shift(cfg: Config, regs: Regs, w: World, elem: Option<Value>, p: Pred, n: nat, i: nat)
    requires n + i < |p.clauses|
    ensures EvalFrom(cfg, regs, w, elem, Suffix(p, n), i) == EvalFrom(cfg, regs, w, elem, p, n + i)
    decreases |p.clauses| - i
  {
    hide EvalClause;
    hide NextGroup;
    var q := Suffix(p, n);
    assert q.clauses[i] == p.clauses[n + i];
    ShiftGroup(p, n, i);
    var c := EvalClause(cfg, regs, w, elem, q.clauses[i]);
    if c.r.Ok? {
      var j := if c.r.value then i + 1 else NextGroup(q, i);
      if n + j < |p.clauses| {
        Shift(cfg, regs, c.w, elem, p, n, j);
      }
    }
  }

  lemma {:induction false} UsesSplit(cs: seq<Clause>, n: nat)
    requires n <= |cs|
    ensures ClausesUses(cs) == ClausesUses(cs[..n]) + ClausesUses(cs[n..])
    decreases cs
  {
    if n > 0 {
      assert cs[1..][..n - 1] == cs[..n][1..];
      assert cs[1..][n - 1..] == cs[n..];
      UsesSplit(cs[1..], n - 1);
    } else {
      assert cs[..0] == [] && cs[0..] == cs;
    }
  }

  lemma LastAnd(p: Pred)
    requires |p.ops| > 0 && forall j | 0 <= j < |p.ops| :: p.ops[j] == AND
    ensures LastIndex(PredToks(p), AmpAmp) == 2 * |p.ops| - 1
  {
    hide LastIndex;
    hide PredToks;
    LastOp(p, AND);
    PredToksLength(p);
    assert p.ops[|p.ops| - 1] == AND;
  }

  lemma LoneClause(p: Pred)
    requires |p.ops| == 0
    ensures PredToks(p) == [ClauseTok(p.clauses[0])]
    ensures LastIndex(PredToks(p), AmpAmp) == 1
  {
  }

  lemma LoneUses(c: Clause)
    ensures ClausesUses([c]) == ClauseUses(c)
  {
    hide ClauseUses;
    assert [c][1..] == [];
  }

  lemma AndLone(cfg: Config, regs: Regs, w: World, elem: Option<Value>, toks: seq<JsTok>)
    requires |toks| == 1 && LastIndex(toks, AmpAmp) == 1
    ensures JsAnd(cfg, regs, w, elem, toks) == JsAtom(cfg, regs, w, elem, toks[0])
  {
    hide JsAtom;
  }

  lemma AndStep(cfg: Config, regs: Regs, w: World, elem: Option<Value>, toks: seq<JsTok>, k: nat)
    requires k < |toks| && LastIndex(toks, AmpAmp) == k && |toks[k + 1..]| == 1
    ensures JsAnd(cfg, regs, w, elem, toks) ==
            var l := JsAnd(cfg, regs, w, elem, toks[..k]);
            if l.r.Err? || !l.r.value then l else JsAtom(cfg, regs, l.w, elem, toks[k + 1..][0])
  {
    hide JsAtom;
  }

  lemma EvalLone(cfg: Config, regs: Regs, w: World, elem: Option<Value>, p: Pred, i: nat)
    requires i == |p.ops|
    ensures EvalFrom(cfg, regs, w, elem, p, i) == EvalClause(cfg, regs, w, elem, p.clauses[i])
  {
    hide EvalClause;
  }

  /** JavaScript's grammar reads an all-AND token list as the conjunction. */
  lemma {:induction false} AndOk(cfg: Config, base: Regs, regs: Regs, w: World, elem: Option<Value>, p: Pred)
    requires Blank(base) && ClausesUses(p.clauses) <= base.Keys
    requires forall j | 0 <= j < |p.ops| :: p.ops[j] == AND
    ensures JsAnd(cfg, base + regs, w, elem, PredToks(p)) == EvalPred(cfg, regs, w, elem, p)
    decreases |p.ops|
  {
    hide JsAnd;
    hide PredToks;
    hide EvalFrom;
    hide ClausesUses;
    hide ClauseUses;
    hide LastIndex;
    hide JsAtom;
    hide EvalClause;
    hide ClauseTok;
    var n := |p.ops|;
    var toks := PredToks(p);
    UsesSplit(p.clauses, n);
    assert p.clauses[n..] == [p.clauses[n]];
    assert ClauseUses(p.clauses[n]) <= base.Keys by { LoneUses(p.clauses[n]); }
    if n == 0 {
      ClauseOk(cfg, base, regs, w, elem, p.clauses[0]);
      LoneClause(p);
      AndLone(cfg, base + regs, w, elem, toks);
      EvalLone(cfg, regs, w, elem, p, 0);
    } else {
      LastAnd(p);
      PredToksLength(p);
      ToksSplit(p, n - 1);
      AndOk(cfg, base, regs, w, elem, Prefix(p, n));
      SplitAnd(cfg, regs, w, elem, p, 0);
      var l := EvalPred(cfg, regs, w, elem, Prefix(p, n));
      ClauseOk(cfg, base, regs, l.w, elem, p.clauses[n]);
      LoneClause(Suffix(p, n));
      AndStep(cfg, base + regs, w, elem, toks, 2 * n - 1);
    }
  }

  /** The flat token list means the disjunction of AND-groups, with the same short-circuits. */
  lemma {:induction false} PredOk(cfg: Config, base: Regs, regs: Regs, w: World, elem: Option<Value>, p: Pred)
    requires Blank(base) && ClausesUses(p.clauses) <= base.Keys
    ensures JsOr(cfg, base + regs, w, elem, PredToks(p)) == EvalPred(cfg, regs, w, elem, p)
    decreases |p.ops|
  {
    hide LastIndex;
    hide EvalFrom;
    hide JsAnd;
    hide PredToks;
    hide ClausesUses;
    var toks := PredToks(p);
    LastOp(p, OR);
    var k := LastIndex(toks, BarBar);
    if k == |toks| {
      AndOk(cfg, base, regs, w, elem, p);
    } else {
      assert |toks| == 2 * |p.clauses| - 1 by { PredToksLength(p); }
      var h := k / 2;
      assert k == 2 * h + 1;
      ToksSplit(p, h);
      UsesSplit(p.clauses, h + 1);
      PredOk(cfg, base, regs, w, elem, Prefix(p, h + 1));
      SplitOr(cfg, regs, w, elem, p, 0, h);
      var l := EvalPred(cfg, regs, w, elem, Prefix(p, h + 1));
      AndOk(cfg, base, regs, l.w, elem, Suffix(p, h + 1));
      Shift(cfg, regs, l.w, elem, p, h + 1, 0);
    }
  }

  lemma PredToksLength(p: Pred)
    ensures |PredToks(p)| == 2 * |p.clauses| - 1
  {
  }

  lemma {:induction false} FilterOk(cfg: Config, base: Regs, regs: Regs, w: World, p: Pred, xs: seq<Value>)
    requires Blank(base) && ClausesUses(p.clauses) <= base.Keys
    ensures JsFilter(cfg, base + regs, w, PredToks(p), xs) == Keep(cfg, regs, w, p, xs)
    decreases xs
  {
    hide EvalPred;
    hide JsOr;
    hide PredToks;
    if xs != [] {
      PredOk(cfg, base, regs, w, Some(xs[0]), p);
      var b := EvalPred(cfg, regs, w, Some(xs[0]), p);
      FilterOk(cfg, base, regs, b.w, p, xs[1..]);
    }
  }
}
