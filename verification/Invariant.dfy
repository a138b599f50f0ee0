/** What every `rt` operation keeps, every run keeps. */
module Invariant {
  import opened Common
  import opened Ir
  import opened Runtime
  import opened Semantics
  import opened Effects

  type Inv = World -> bool

  type Safe = Exn -> bool

  /** The three ways a program touches the world keep `inv`: charging the budget, marking its line, and calling a tool.
      Exceptions a tool call raises are `safe`, as are all tool errors and JavaScript errors. */
  ghost predicate Stable(cfg: Config, inv: Inv, safe: Safe, syms: set<string>) {
    && (forall w {:trigger Tick(w)} | inv(w) :: inv(Tick(w)))
    && (forall w, l: nat {:trigger MarkLine(w, l)} | inv(w) :: inv(MarkLine(w, l)))
    && (forall w, sym, args {:trigger RtCall(cfg, w, sym, args)} | inv(w) && sym in syms ::
        StepOk(inv, safe, RtCall(cfg, w, sym, args)))
    && (forall c :: safe(ToolErr(c)))
    && (forall m :: safe(JsErr(m)))
  }

  ghost predicate ResOk<T>(safe: Safe, r: Res<T, Exn>) {
    r.Err? ==> safe(r.error)
  }

  ghost predicate StepOk(inv: Inv, safe: Safe, s: Step) {
    inv(s.w) && ResOk(safe, s.r)
  }

  ghost predicate OutOk(inv: Inv, safe: Safe, o: Out) {
    inv(o.st.w) && (o.flow.Fail? ==> safe(o.flow.e))
  }

  /** The pure rt functions raise tool errors and JavaScript errors only. */
  lemma PureOrdinary(cfg: Config, x: Value, sym: string, c: Value, flag: bool)
    ensures var r := FldValue(cfg, x, sym); r.Err? ==> !r.error.Blocked?
    ensures var r := MapValue(cfg, x, sym); r.Err? ==> !r.error.Blocked?
    ensures var r := ExtremeValue(cfg, x, sym, c, flag); r.Err? ==> !r.error.Blocked?
    ensures var r := SortValue(cfg, x, sym, flag); r.Err? ==> !r.error.Blocked?
    ensures var r := SelectValue(x, c); r.Err? ==> !r.error.Blocked?
  {
    hide Prop;
    hide CountsOf;
    hide Best;
    hide StableSort;
  }

  lemma ChargedKeeps(cfg: Config, inv: Inv, safe: Safe, syms: set<string>, w: World, r: Result)
    requires Stable(cfg, inv, safe, syms) && inv(w) && (r.Err? ==> !r.error.Blocked?)
    ensures StepOk(inv, safe, Charged(cfg, w, r))
  {
  }

  lemma {:induction false} OpKeeps(cfg: Config, inv: Inv, safe: Safe, syms: set<string>, regs: Regs, w: World,
                                   op: Operand)
    requires Stable(cfg, inv, safe, syms) && inv(w)
    ensures StepOk(inv, safe, EvalOp(cfg, regs, w, op))
  {
    hide FldValue;
    hide Charged;
    match op
    case ORegField(n, f) =>
      PureOrdinary(cfg, Lookup(regs, n), f, Nil, false);
      ChargedKeeps(cfg, inv, safe, syms, w, FldValue(cfg, Lookup(regs, n), f));
    case _ =>
  }

  lemma SideKeeps(cfg: Config, inv: Inv, safe: Safe, syms: set<string>, regs: Regs, w: World, elem: Option<Value>,
                  c: Clause)
    requires Stable(cfg, inv, safe, syms) && inv(w)
    ensures StepOk(inv, safe, EvalLeft(cfg, regs, w, elem, c.left))
    ensures StepOk(inv, safe, EvalRight(cfg, regs, w, elem, c.right))
  {
    hide FldValue;
    hide Charged;
    hide EvalOp;
    if c.left.LOp? { OpKeeps(cfg, inv, safe, syms, regs, w, c.left.op); }
    if c.right.ROp? { OpKeeps(cfg, inv, safe, syms, regs, w, c.right.op); }
    if elem.Some? {
      forall f: string
        ensures StepOk(inv, safe, RtFld(cfg, w, elem.value, f))
      {
        PureOrdinary(cfg, elem.value, f, Nil, false);
        ChargedKeeps(cfg, inv, safe, syms, w, FldValue(cfg, elem.value, f));
      }
    }
  }

  lemma {:induction false} OpsKeep(cfg: Config, inv: Inv, safe: Safe, syms: set<string>, regs: Regs, w: World,
                                   ops: seq<Operand>)
    requires Stable(cfg, inv, safe, syms) && inv(w)
    ensures var o := EvalOps(cfg, regs, w, ops); inv(o.w) && ResOk(safe, o.r)
    decreases ops
  {
    hide EvalOp;
    hide Stable;
    if ops != [] {
      OpKeeps(cfg, inv, safe, syms, regs, w, ops[0]);
      OpsKeep(cfg, inv, safe, syms, regs, EvalOp(cfg, regs, w, ops[0]).w, ops[1..]);
    }
  }

  lemma {:induction false} ClauseKeeps(cfg: Config, inv: Inv, safe: Safe, syms: set<string>, regs: Regs, w: World,
                                       elem: Option<Value>, c: Clause)
    requires Stable(cfg, inv, safe, syms) && inv(w)
    ensures var o := EvalClause(cfg, regs, w, elem, c); inv(o.w) && ResOk(safe, o.r)
  {
    hide EvalLeft;
    hide EvalRight;
    hide CmpHolds;
    hide IsEmpty;
    SideKeeps(cfg, inv, safe, syms, regs, w, elem, c);
    var l := EvalLeft(cfg, regs, w, elem, c.left);
    SideKeeps(cfg, inv, safe, syms, regs, l.w, elem, c);
  }

  lemma {:induction false} PredKeeps(cfg: Config, inv: Inv, safe: Safe, syms: set<string>, regs: Regs, w: World,
                                     elem: Option<Value>, p: Pred, i: nat)
    requires Stable(cfg, inv, safe, syms) && inv(w) && i < |p.clauses|
    ensures var o := EvalFrom(cfg, regs, w, elem, p, i); inv(o.w) && ResOk(safe, o.r)
    decreases |p.clauses| - i
  {
    hide EvalClause;
    hide Stable;
    hide NextGroup;
    ClauseKeeps(cfg, inv, safe, syms, regs, w, elem, p.clauses[i]);
    var c := EvalClause(cfg, regs, w, elem, p.clauses[i]);
    if c.r.Ok? {
      var j := if c.r.value then i + 1 else NextGroup(p, i);
      if j < |p.clauses| { PredKeeps(cfg, inv, safe, syms, regs, c.w, elem, p, j); }
    }
  }

  lemma {:induction false} FilterKeeps(cfg: Config, inv: Inv, safe: Safe, syms: set<string>, regs: Regs, w: World,
                                       p: Pred, xs: seq<Value>)
    requires Stable(cfg, inv, safe, syms) && inv(w)
    ensures var o := Keep(cfg, regs, w, p, xs); inv(o.w) && ResOk(safe, o.r)
    decreases xs
  {
    hide EvalFrom;
    hide Stable;
    if xs != [] {
      PredKeeps(cfg, inv, safe, syms, regs, w, Some(xs[0]), p, 0);
      FilterKeeps(cfg, inv, safe, syms, regs, EvalPred(cfg, regs, w, Some(xs[0]), p).w, p, xs[1..]);
    }
  }

  lemma {:induction false} SimpleKeeps(cfg: Config, inv: Inv, safe: Safe, syms: set<string>, regs: Regs, w: World,
                                       i: Instr)
    requires IsSimple(i) && Stable(cfg, inv, safe, syms) && inv(w)
    ensures StepOk(inv, safe, SimpleValue(cfg, regs, w, i))
  {
    hide EvalOp;
    hide EvalOps;
    hide Keep;
    hide FldValue;
    hide MapValue;
    hide SortValue;
    hide SelectValue;
    hide ExtremeValue;
    hide Charged;
    match i
    case Let(op, _) => OpKeeps(cfg, inv, safe, syms, regs, w, op);
    case Format(template, ops, _, kinds) =>
      OpsKeep(cfg, inv, safe, syms, regs, w, ops);
      var o := EvalOps(cfg, regs, w, ops);
      if template in cfg.constants && o.r.Ok? {
        ChargedKeeps(cfg, inv, safe, syms, o.w, Ok(Str(Filled(cfg.printer, TextOf(cfg.printer, cfg.constants[template]),
                                                              o.r.value, kinds))));
      }
    case Filter(src, p, _) =>
      var v := Lookup(regs, src);
      if v.List? { FilterKeeps(cfg, inv, safe, syms, regs, w, p, v.elems); }
    case Select(src, idx, _) =>
      OpKeeps(cfg, inv, safe, syms, regs, w, idx);
      var o := EvalOp(cfg, regs, w, idx);
      if o.r.Ok? {
        PureOrdinary(cfg, Lookup(regs, src), "", o.r.value, false);
        ChargedKeeps(cfg, inv, safe, syms, o.w, SelectValue(Lookup(regs, src), o.r.value));
      }
    case Get(src, f, _) =>
      PureOrdinary(cfg, Lookup(regs, src), f, Nil, false);
      ChargedKeeps(cfg, inv, safe, syms, w, FldValue(cfg, Lookup(regs, src), f));
    case MapF(src, f, _) =>
      PureOrdinary(cfg, Lookup(regs, src), f, Nil, false);
      ChargedKeeps(cfg, inv, safe, syms, w, MapValue(cfg, Lookup(regs, src), f));
    case Sort(src, f, desc, _) =>
      PureOrdinary(cfg, Lookup(regs, src), f, Nil, desc);
      ChargedKeeps(cfg, inv, safe, syms, w, SortValue(cfg, Lookup(regs, src), f, desc));
    case Most(src, f, cands, _, least) =>
      var c := if cands.Some? then Lookup(regs, cands.value) else Nil;
      PureOrdinary(cfg, Lookup(regs, src), f, c, least);
      ChargedKeeps(cfg, inv, safe, syms, w, ExtremeValue(cfg, Lookup(regs, src), f, c, least));
    case _ =>
  }

  lemma {:induction false} CallKeeps(cfg: Config, inv: Inv, safe: Safe, syms: set<string>, regs: Regs, w: World,
                                     c: CallI)
    requires c.tool in syms && Stable(cfg, inv, safe, syms) && inv(w)
    ensures StepOk(inv, safe, CallStep(cfg, regs, w, c))
  {
    hide EvalOps;
    hide RtCall;
    OpsKeep(cfg, inv, safe, syms, regs, w, c.args);
  }

  lemma {:induction false} CallsKeep(cfg: Config, inv: Inv, safe: Safe, syms: set<string>, regs: Regs, w: World,
                                     calls: seq<CallI>)
    requires CallsWithin(calls, syms) && Stable(cfg, inv, safe, syms) && inv(w)
    ensures var o := RunCalls(cfg, regs, w, calls);
            inv(o.w) && (o.Faulted? ==> safe(o.fault)) && (o.Settled? && o.failure.Some? ==> safe(o.failure.value))
    decreases calls
  {
    hide EvalOps;
    hide RtCall;
    if calls != [] {
      CallKeeps(cfg, inv, safe, syms, regs, w, calls[0]);
      var a := EvalOps(cfg, regs, w, calls[0].args);
      if a.r.Ok? {
        CallsKeep(cfg, inv, safe, syms, regs, RtCall(cfg, a.w, calls[0].tool, a.r.value).w, calls[1..]);
      }
    }
  }

  /** A stable property holds at the end of every run of a block whose tools it is stable for. */
  lemma {:induction false} BlockKeeps(cfg: Config, inv: Inv, safe: Safe, syms: set<string>, body: seq<Stmt>,
                                      seen: set<nat>, st: St)
    requires Within(body, syms) && Stable(cfg, inv, safe, syms) && inv(st.w)
    ensures OutOk(inv, safe, ExecBlock(cfg, body, seen, st))
    decreases body, 0, 0
  {
    hide ExecStmt;
    hide Stable;
    if body != [] {
      StmtKeeps(cfg, inv, safe, syms, body[0], seen, st);
      var o := ExecStmt(cfg, body[0], seen, st);
      if o.flow.Next? { BlockKeeps(cfg, inv, safe, syms, body[1..], seen + StmtDsts(body[0]), o.st); }
    }
  }

  lemma {:induction false} StmtKeeps(cfg: Config, inv: Inv, safe: Safe, syms: set<string>, s: Stmt, seen: set<nat>,
                                     st0: St)
    requires StmtWithin(s, syms) && Stable(cfg, inv, safe, syms) && inv(st0.w)
    ensures OutOk(inv, safe, ExecStmt(cfg, s, seen, st0))
    decreases s, 0, 0
  {
    hide ExecBlock;
    hide ExecEach;
    hide ExecTry;
    hide EvalFrom;
    hide EvalOp;
    hide SimpleValue;
    hide CallStep;
    hide RunCalls;
    var st := Enter(st0, s.line);
    assert inv(st.w);
    hide Stable;
    match s.instr
    case DoCall(c) => CallKeeps(cfg, inv, safe, syms, st.regs, st.w, c);
    case Foreach(src, v, body) =>
      var it := Iterable(Lookup(st.regs, src));
      if it.Ok? { EachKeeps(cfg, inv, safe, syms, it.value, v, body, seen + {v}, st); }
    case If(cond, thn, els) =>
      PredKeeps(cfg, inv, safe, syms, st.regs, st.w, None, cond, 0);
      var c := EvalPred(cfg, st.regs, st.w, None, cond);
      if c.r.Ok? {
        if c.r.value { BlockKeeps(cfg, inv, safe, syms, thn, seen, St(st.regs, c.w)); }
        else if els.Else? { BlockKeeps(cfg, inv, safe, syms, els.body, seen + Dsts(thn), St(st.regs, c.w)); }
      }
    case Parallel(calls) => CallsKeep(cfg, inv, safe, syms, st.regs, st.w, calls);
    case Try(retry, dst, body) =>
      TryKeeps(cfg, inv, safe, syms, retry, dst, body, seen + {dst}, St(st.regs[dst := Str("OK")], st.w));
    case Return(op) => OpKeeps(cfg, inv, safe, syms, st.regs, st.w, op);
    case Stop =>
    case Pause =>
    case Abort(_, _) =>
    case i => SimpleKeeps(cfg, inv, safe, syms, st.regs, st.w, i);
  }

  lemma {:induction false} EachKeeps(cfg: Config, inv: Inv, safe: Safe, syms: set<string>, xs: seq<Value>, v: nat,
                                     body: seq<Stmt>, seen: set<nat>, st: St)
    requires Within(body, syms) && Stable(cfg, inv, safe, syms) && inv(st.w)
    ensures OutOk(inv, safe, ExecEach(cfg, xs, v, body, seen, st))
    decreases body, 1, |xs|
  {
    hide ExecBlock;
    hide Stable;
    if xs != [] {
      var st1 := St(st.regs[v := xs[0]], st.w);
      BlockKeeps(cfg, inv, safe, syms, body, seen, st1);
      var o := ExecBlock(cfg, body, seen, st1);
      if o.flow.Next? { EachKeeps(cfg, inv, safe, syms, xs[1..], v, body, seen, o.st); }
    }
  }

  lemma {:induction false} TryKeeps(cfg: Config, inv: Inv, safe: Safe, syms: set<string>, left: nat, dst: nat,
                                    body: seq<Stmt>, seen: set<nat>, st: St)
    requires Within(body, syms) && Stable(cfg, inv, safe, syms) && inv(st.w)
    ensures OutOk(inv, safe, ExecTry(cfg, left, dst, body, seen, st))
    decreases body, 1, left
  {
    hide ExecBlock;
    hide Stable;
    BlockKeeps(cfg, inv, safe, syms, body, seen, st);
    var o := ExecBlock(cfg, body, seen, st);
    if o.flow.Fail? && o.flow.e.ToolErr? && left > 0 {
      TryKeeps(cfg, inv, safe, syms, left - 1, dst, body, seen, St(o.st.regs[dst := Str(o.flow.e.code)], o.st.w));
    }
  }
}
