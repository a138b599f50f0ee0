/** Runs without coercion. */
module Coercion {
  import opened Common
  import opened Ir
  import opened Runtime
  import opened Semantics
  import opened Effects
  import opened Check
  import opened Typing
  import opened Ordering

  /** The host with other answers where JavaScript's `<` coerces. */
  function Recoerced(cfg: Config, less: (Value, Value) -> bool): Config {
    cfg.(coerceLess := less)
  }

  // ---------------------------------------------------------------- comparisons

  predicate Ordinal(v: Value) {
    Numeric(v) || v.Bool?
  }

  lemma LessSame(cfg: Config, less: (Value, Value) -> bool, a: Value, b: Value)
    requires Ordinal(a) && Ordinal(b)
    ensures Less(Recoerced(cfg, less), a, b) == Less(cfg, a, b)
  {
  }

  lemma FldSame(cfg: Config, less: (Value, Value) -> bool, w: World, x: Value, f: string)
    ensures RtFld(Recoerced(cfg, less), w, x, f) == RtFld(cfg, w, x, f)
  {
    hide Prop;
  }

  lemma OpSame(cfg: Config, less: (Value, Value) -> bool, regs: Regs, w: World, op: Operand)
    ensures EvalOp(Recoerced(cfg, less), regs, w, op) == EvalOp(cfg, regs, w, op)
  {
    hide RtFld;
    if op.ORegField? { FldSame(cfg, less, w, Lookup(regs, op.n), op.field); }
  }

  lemma {:induction false} OpsSame(cfg: Config, less: (Value, Value) -> bool, regs: Regs, w: World, ops: seq<Operand>)
    ensures EvalOps(Recoerced(cfg, less), regs, w, ops) == EvalOps(cfg, regs, w, ops)
    decreases ops
  {
    hide EvalOp;
    if ops != [] {
      OpSame(cfg, less, regs, w, ops[0]);
      OpsSame(cfg, less, regs, EvalOp(cfg, regs, w, ops[0]).w, ops[1..]);
    }
  }

  lemma SidesSame(cfg: Config, less: (Value, Value) -> bool, regs: Regs, w: World, elem: Option<Value>, c: Clause)
    ensures EvalLeft(Recoerced(cfg, less), regs, w, elem, c.left) == EvalLeft(cfg, regs, w, elem, c.left)
    ensures EvalRight(Recoerced(cfg, less), regs, w, elem, c.right) == EvalRight(cfg, regs, w, elem, c.right)
  {
    hide EvalOp;
    hide RtFld;
    if c.left.LOp? { OpSame(cfg, less, regs, w, c.left.op); }
    if c.right.ROp? { OpSame(cfg, less, regs, w, c.right.op); }
    if elem.Some? && c.left.LField? { FldSame(cfg, less, w, elem.value, c.left.field); }
    if elem.Some? && c.right.RElem? { FldSame(cfg, less, w, elem.value, c.right.field); }
  }

  lemma CmpSame(cfg: Config, less: (Value, Value) -> bool, w: World, op: Cmp, a: Value, b: Value)
    requires op.LT? || op.GT? ==> Numeric(a) && Numeric(b)
    ensures RtCmp(Recoerced(cfg, less), w, op, a, b) == RtCmp(cfg, w, op, a, b)
  {
    hide Less;
    if op.LT? || op.GT? {
      LessSame(cfg, less, a, b);
      LessSame(cfg, less, b, a);
    }
  }

  lemma ClauseSame(cfg: Config, less: (Value, Value) -> bool, regs: Regs, w: World, elem: Option<Value>, c: Clause)
    requires ClauseOrders(cfg, regs, w, elem, c)
    ensures EvalClause(Recoerced(cfg, less), regs, w, elem, c) == EvalClause(cfg, regs, w, elem, c)
  {
    hide EvalLeft;
    hide EvalRight;
    hide RtCmp;
    SidesSame(cfg, less, regs, w, elem, c);
    var l := EvalLeft(cfg, regs, w, elem, c.left);
    if l.r.Ok? {
      SidesSame(cfg, less, regs, l.w, elem, c);
      var r := EvalRight(cfg, regs, l.w, elem, c.right);
      if r.r.Ok? { CmpSame(cfg, less, r.w, c.cmp, l.r.value, r.r.value); }
    }
  }

  lemma {:induction false} PredSame(cfg: Config, less: (Value, Value) -> bool, regs: Regs, w: World,
                                    elem: Option<Value>, p: Pred, i: nat)
    requires i < |p.clauses| && PredOrders(cfg, regs, w, elem, p, i)
    ensures EvalFrom(Recoerced(cfg, less), regs, w, elem, p, i) == EvalFrom(cfg, regs, w, elem, p, i)
    decreases |p.clauses| - i
  {
    hide EvalClause;
    hide ClauseOrders;
    hide NextGroup;
    ClauseSame(cfg, less, regs, w, elem, p.clauses[i]);
    var c := EvalClause(cfg, regs, w, elem, p.clauses[i]);
    if c.r.Ok? {
      if c.r.value {
        if i < |p.ops| && p.ops[i].AND? { PredSame(cfg, less, regs, c.w, elem, p, i + 1); }
      } else if NextGroup(p, i) < |p.clauses| {
        PredSame(cfg, less, regs, c.w, elem, p, NextGroup(p, i));
      }
    }
  }

  lemma {:induction false} KeepSame(cfg: Config, less: (Value, Value) -> bool, regs: Regs, w: World, p: Pred,
                                    xs: seq<Value>)
    requires KeepOrders(cfg, regs, w, p, xs)
    ensures Keep(Recoerced(cfg, less), regs, w, p, xs) == Keep(cfg, regs, w, p, xs)
    decreases xs
  {
    hide EvalFrom;
    hide PredOrders;
    if xs != [] {
      PredSame(cfg, less, regs, w, Some(xs[0]), p, 0);
      var b := EvalPred(cfg, regs, w, Some(xs[0]), p);
      if b.r.Ok? { KeepSame(cfg, less, regs, b.w, p, xs[1..]); }
    }
  }

  // ---------------------------------------------------------------- SORT

  /** The two comparators agree on these elements. */
  predicate SameOrder(f: (Value, Value) -> bool, g: (Value, Value) -> bool, xs: seq<Value>) {
    forall x, y | x in xs && y in xs :: f(x, y) == g(x, y)
  }

  lemma {:induction false} InsertSame(f: (Value, Value) -> bool, g: (Value, Value) -> bool, x: Value, ys: seq<Value>)
    requires SameOrder(f, g, [x] + ys)
    ensures Inserted(f, x, ys) == Inserted(g, x, ys)
    ensures forall y :: y in Inserted(f, x, ys) ==> y in [x] + ys
    decreases ys
  {
    if ys != [] {
      assert ys[0] in [x] + ys && x in [x] + ys;
      assert forall y :: y in [x] + ys[1..] ==> y in [x] + ys;
      InsertSame(f, g, x, ys[1..]);
    }
  }

  lemma {:induction false} StableSame(f: (Value, Value) -> bool, g: (Value, Value) -> bool, xs: seq<Value>)
    requires SameOrder(f, g, xs)
    ensures StableSort(f, xs) == StableSort(g, xs)
    ensures forall y :: y in StableSort(f, xs) ==> y in xs
    decreases xs
  {
    hide Inserted;
    if xs != [] {
      StableSame(f, g, xs[1..]);
      assert forall y :: y in [xs[0]] + StableSort(f, xs[1..]) ==> y in xs;
      InsertSame(f, g, xs[0], StableSort(f, xs[1..]));
    }
  }

  lemma SortSame(cfg: Config, less: (Value, Value) -> bool, v: Value, f: string, desc: bool)
    requires KeysOrder(cfg, v, f)
    ensures SortValue(Recoerced(cfg, less), v, f, desc) == SortValue(cfg, v, f, desc)
  {
    hide Less;
    hide StableSort;
    hide AnyAbsent;
    if f in cfg.fields && v.List? {
      var name, cfg2 := cfg.fields[f], Recoerced(cfg, less);
      var mine, other := (x, y) => Before(cfg, name, desc, x, y), (x, y) => Before(cfg2, name, desc, x, y);
      forall x, y | x in v.elems && y in v.elems
        ensures mine(x, y) == other(x, y)
      {
        LessSame(cfg, less, Raw(x, name), Raw(y, name));
        LessSame(cfg, less, Raw(y, name), Raw(x, name));
      }
      StableSame(mine, other, v.elems);
    }
  }

  // ---------------------------------------------------------------- instructions

  lemma FilterSame(cfg: Config, less: (Value, Value) -> bool, i: Instr, seen: set<nat>, st: St)
    requires (i.Filter? || i.Sort?) && StmtOrders(cfg, true, At(0, i), seen, st)
    ensures SimpleValue(Recoerced(cfg, less), st.regs, st.w, i) == SimpleValue(cfg, st.regs, st.w, i)
  {
    hide Keep;
    hide KeepOrders;
    hide KeysOrder;
    hide SortValue;
    var v := Lookup(st.regs, i.src);
    if i.Sort? {
      SortSame(cfg, less, v, i.field, i.desc);
    } else if v.List? {
      KeepSame(cfg, less, st.regs, st.w, i.pred, v.elems);
    }
  }

  lemma SimpleSame(cfg: Config, less: (Value, Value) -> bool, i: Instr, st: St)
    requires IsSimple(i) && !i.Filter? && !i.Sort?
    ensures SimpleValue(Recoerced(cfg, less), st.regs, st.w, i) == SimpleValue(cfg, st.regs, st.w, i)
  {
    hide MapValue;
    hide ExtremeValue;
    hide SelectValue;
    hide EvalOps;
    hide EvalOp;
    hide RtFld;
    match i
    case Let(op, _) => OpSame(cfg, less, st.regs, st.w, op);
    case Get(src, f, _) => FldSame(cfg, less, st.w, Lookup(st.regs, src), f);
    case Format(_, ops, _, _) => OpsSame(cfg, less, st.regs, st.w, ops);
    case Select(src, idx, _) => OpSame(cfg, less, st.regs, st.w, idx);
    case MapF(src, f, _) => MapSame(cfg, less, Lookup(st.regs, src), f);
    case Most(src, f, cands, _, least) =>
      ExtremeSame(cfg, less, Lookup(st.regs, src), f, if cands.Some? then Lookup(st.regs, cands.value) else Nil, least);
    case _ =>
  }

  lemma MapSame(cfg: Config, less: (Value, Value) -> bool, v: Value, f: string)
    ensures MapValue(Recoerced(cfg, less), v, f) == MapValue(cfg, v, f)
  {
    hide Prop;
  }

  lemma ExtremeSame(cfg: Config, less: (Value, Value) -> bool, v: Value, f: string, cands: Value, least: bool)
    ensures ExtremeValue(Recoerced(cfg, less), v, f, cands, least) == ExtremeValue(cfg, v, f, cands, least)
  {
  }

  lemma ImplSame(cfg: Config, less: (Value, Value) -> bool, impl: Impl, store: Store, counters: map<string, nat>,
                 params: seq<Value>)
    ensures RunImpl(Recoerced(cfg, less), impl, store, counters, params) == RunImpl(cfg, impl, store, counters, params)
  {
    hide Applied;
    hide WithParams;
    hide Counter;
    hide FindIndex;
    hide Updated;
    hide Mapped;
    hide KeepWhere;
  }

  lemma RtCallSame(cfg: Config, less: (Value, Value) -> bool, w: World, sym: string, args: seq<Value>)
    ensures RtCall(Recoerced(cfg, less), w, sym, args) == RtCall(cfg, w, sym, args)
  {
    hide Inject;
    hide Narrowed;
    hide RunImpl;
    if sym in cfg.tools && Narrowed(cfg.tools[sym].params, args, 0).Ok? {
      var w1 := w.(injections := Inject(w.injections, sym, cfg.tools[sym].name).0);
      ImplSame(cfg, less, cfg.tools[sym].impl, w1.store, w1.counters, Narrowed(cfg.tools[sym].params, args, 0).value);
    }
  }

  lemma CallSame(cfg: Config, less: (Value, Value) -> bool, regs: Regs, w: World, c: CallI)
    ensures CallStep(Recoerced(cfg, less), regs, w, c) == CallStep(cfg, regs, w, c)
  {
    hide EvalOps;
    hide RtCall;
    OpsSame(cfg, less, regs, w, c.args);
    var a := EvalOps(cfg, regs, w, c.args);
    if a.r.Ok? { RtCallSame(cfg, less, a.w, c.tool, a.r.value); }
  }

  lemma {:induction false} CallsSame(cfg: Config, less: (Value, Value) -> bool, regs: Regs, w: World,
                                     calls: seq<CallI>)
    ensures RunCalls(Recoerced(cfg, less), regs, w, calls) == RunCalls(cfg, regs, w, calls)
    decreases calls
  {
    hide EvalOps;
    hide RtCall;
    if calls != [] {
      OpsSame(cfg, less, regs, w, calls[0].args);
      var a := EvalOps(cfg, regs, w, calls[0].args);
      if a.r.Ok? {
        RtCallSame(cfg, less, a.w, calls[0].tool, a.r.value);
        CallsSame(cfg, less, regs, RtCall(cfg, a.w, calls[0].tool, a.r.value).w, calls[1..]);
      }
    }
  }

  // ---------------------------------------------------------------- blocks

  lemma {:induction false} BlockSame(cfg: Config, less: (Value, Value) -> bool, body: seq<Stmt>, seen: set<nat>, st: St)
    requires BlockOrders(cfg, true, body, seen, st)
    ensures ExecBlock(Recoerced(cfg, less), body, seen, st) == ExecBlock(cfg, body, seen, st)
    decreases body, 0, 0
  {
    hide ExecStmt;
    hide StmtOrders;
    if body != [] {
      StmtSame(cfg, less, body[0], seen, st);
      var o := ExecStmt(cfg, body[0], seen, st);
      if o.flow.Next? { BlockSame(cfg, less, body[1..], seen + StmtDsts(body[0]), o.st); }
    }
  }

  lemma {:induction false} StmtSame(cfg: Config, less: (Value, Value) -> bool, s: Stmt, seen: set<nat>, st0: St)
    requires StmtOrders(cfg, true, s, seen, st0)
    ensures ExecStmt(Recoerced(cfg, less), s, seen, st0) == ExecStmt(cfg, s, seen, st0)
    decreases s, 0, 1
  {
    var i, st := s.instr, Enter(st0, s.line);
    hide StmtOrders;
    if i.Foreach? || i.If? || i.Try? {
      hide ExecStmt;
      CompoundSame(cfg, less, s, seen, st0);
    } else if IsSimple(i) {
      hide SimpleValue;
      OrdersEntered(cfg, true, s, seen, st0);
      if i.Filter? || i.Sort? { FilterSame(cfg, less, i, seen, st); } else { SimpleSame(cfg, less, i, st); }
    } else if i.DoCall? {
      hide CallStep;
      CallSame(cfg, less, st.regs, st.w, i.call);
    } else if i.Parallel? {
      hide RunCalls;
      CallsSame(cfg, less, st.regs, st.w, i.calls);
    } else if i.Return? {
      hide EvalOp;
      OpSame(cfg, less, st.regs, st.w, i.op);
    }
  }

  lemma {:induction false} CompoundSame(cfg: Config, less: (Value, Value) -> bool, s: Stmt, seen: set<nat>, st0: St)
    requires (s.instr.Foreach? || s.instr.If? || s.instr.Try?) && StmtOrders(cfg, true, s, seen, st0)
    ensures ExecStmt(Recoerced(cfg, less), s, seen, st0) == ExecStmt(cfg, s, seen, st0)
    decreases s, 0, 0
  {
    hide ExecBlock;
    hide ExecEach;
    hide ExecTry;
    hide EvalFrom;
    hide BlockOrders;
    hide EachOrders;
    hide TryOrders;
    hide PredOrders;
    var st := Enter(st0, s.line);
    match s.instr
    case Foreach(src, v, body) =>
      var it := Iterable(Lookup(st.regs, src));
      if it.Ok? { EachSame(cfg, less, it.value, v, body, seen + {v}, st); }
    case If(cond, thn, els) =>
      PredSame(cfg, less, st.regs, st.w, None, cond, 0);
      var c := EvalPred(cfg, st.regs, st.w, None, cond);
      if c.r.Ok? {
        if c.r.value {
          BlockSame(cfg, less, thn, seen, St(st.regs, c.w));
        } else if els.Else? {
          BlockSame(cfg, less, els.body, seen + Dsts(thn), St(st.regs, c.w));
        }
      }
    case Try(retry, dst, body) =>
      TrySame(cfg, less, retry, dst, body, seen + {dst}, St(st.regs[dst := Str("OK")], st.w));
  }

  lemma {:induction false} EachSame(cfg: Config, less: (Value, Value) -> bool, xs: seq<Value>, v: nat, body: seq<Stmt>,
                                    seen: set<nat>, st: St)
    requires EachOrders(cfg, true, xs, v, body, seen, st)
    ensures ExecEach(Recoerced(cfg, less), xs, v, body, seen, st) == ExecEach(cfg, xs, v, body, seen, st)
    decreases body, 1, |xs|
  {
    hide ExecBlock;
    hide BlockOrders;
    if xs != [] {
      var st1 := St(st.regs[v := xs[0]], st.w);
      BlockSame(cfg, less, body, seen, st1);
      var o := ExecBlock(cfg, body, seen, st1);
      if o.flow.Next? { EachSame(cfg, less, xs[1..], v, body, seen, o.st); }
    }
  }

  lemma {:induction false} TrySame(cfg: Config, less: (Value, Value) -> bool, left: nat, dst: nat, body: seq<Stmt>,
                                   seen: set<nat>, st: St)
    requires TryOrders(cfg, true, left, dst, body, seen, st)
    ensures ExecTry(Recoerced(cfg, less), left, dst, body, seen, st) == ExecTry(cfg, left, dst, body, seen, st)
    decreases body, 1, left
  {
    hide ExecBlock;
    hide BlockOrders;
    BlockSame(cfg, less, body, seen, st);
    var o := ExecBlock(cfg, body, seen, st);
    if o.flow.Fail? && o.flow.e.ToolErr? && left > 0 {
      TrySame(cfg, less, left - 1, dst, body, seen, St(o.st.regs[dst := Str(o.flow.e.code)], o.st.w));
    }
  }

  lemma StartSame(cfg: Config, less: (Value, Value) -> bool, ctx: TaskContext, w: World)
    ensures InitialRegs(Recoerced(cfg, less), ctx.initial.Keys) == InitialRegs(cfg, ctx.initial.Keys)
  {
  }

  /** A clean program that sorts by no field declared STR runs the same whatever `<` answers by coercing. */
  lemma RunsWithoutCoercion(cfg: Config, less: (Value, Value) -> bool, ctx: TaskContext, inv: WorldInv, gamma: Env,
                            body: seq<Stmt>, w: World)
    requires Clean(ctx, body, ctx.initial) && OneType(ctx, body, ctx.initial, gamma) && EnvIn(ctx.initial, gamma)
    requires CountsNoRecords(ctx, body) && SortsOffText(ctx, body)
    requires HostTyped(cfg, ctx) && ToolsTyped(cfg, ctx, inv, Symbols(body)) && inv(w)
    requires RegsFit(ctx, gamma, InitialRegs(cfg, ctx.initial.Keys))
    ensures RunBody(cfg.(coerceLess := less), body, ctx.initial.Keys, w) == RunBody(cfg, body, ctx.initial.Keys, w)
  {
    hide ExecBlock;
    hide BlockOrders;
    hide CheckBlock;
    hide OneType;
    hide HostTyped;
    hide ToolsTyped;
    hide RegsFit;
    hide CountsNoRecords;
    hide SortsOffText;
    hide Symbols;
    hide InitialRegs;
    OrdersNumbers(cfg, ctx, inv, gamma, true, body, w);
    BlockSame(cfg, less, body, ctx.initial.Keys, Start(cfg, ctx, w));
    StartSame(cfg, less, ctx, w);
  }
}
