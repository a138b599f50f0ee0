/** Definite binding on smooth runs. */
module Binding {
  import opened Common
  import opened Ir
  import opened Runtime
  import opened Semantics
  import opened Compile
  import opened Check
  import opened Closed

  // ---------------------------------------------------------------- reads

  /** The registers an instruction reads itself, its body aside. */
  function HeadReads(i: Instr): set<nat> {
    match i
    case Let(op, _) => OpUses(op)
    case Get(src, _, _) => {src}
    case DoCall(c) => OpsUses(c.args)
    case Format(_, ops, _, _) => OpsUses(ops)
    case Filter(src, p, _) => {src} + ClausesUses(p.clauses)
    case MapF(src, _, _) => {src}
    case Count(src, _) => {src}
    case Most(src, _, c, _, _) => {src} + (if c.Some? then {c.value} else {})
    case Sort(src, _, _, _) => {src}
    case Select(src, idx, _) => {src} + OpUses(idx)
    case First(src, _) => {src}
    case Foreach(src, _, _) => {src}
    case If(c, _, _) => ClausesUses(c.clauses)
    case Parallel(calls) => CallsUses(calls)
    case Return(op) => OpUses(op)
    case _ => {}
  }

  /** Along the run of a block, every instruction reached reads assigned registers only. */
  ghost predicate ReadsBound(cfg: Config, body: seq<Stmt>, seen: set<nat>, st: St)
    decreases body, 0, 0
  {
    body == [] ||
    (StmtReadsBound(cfg, body[0], seen, st) &&
     var o := ExecStmt(cfg, body[0], seen, st);
     o.flow.Next? ==> ReadsBound(cfg, body[1..], seen + StmtDsts(body[0]), o.st))
  }

  ghost predicate StmtReadsBound(cfg: Config, s: Stmt, seen: set<nat>, st0: St)
    decreases s, 0, 0
  {
    var st := Enter(st0, s.line);
    HeadReads(s.instr) <= st.regs.Keys &&
    match s.instr
    case Foreach(src, v, body) =>
      var it := Iterable(Lookup(st.regs, src));
      it.Ok? ==> EachReadsBound(cfg, it.value, v, body, seen + {v}, st)
    case If(cond, thn, els) =>
      var c := EvalPred(cfg, st.regs, st.w, None, cond);
      c.r.Ok? ==>
        if c.r.value then ReadsBound(cfg, thn, seen, St(st.regs, c.w))
        else (match els case NoElse => true case Else(b) => ReadsBound(cfg, b, seen + Dsts(thn), St(st.regs, c.w)))
    case Try(retry, dst, body) =>
      TryReadsBound(cfg, retry, dst, body, seen + {dst}, St(st.regs[dst := Str("OK")], st.w))
    case _ => true
  }

  ghost predicate EachReadsBound(cfg: Config, xs: seq<Value>, v: nat, body: seq<Stmt>, seen: set<nat>, st: St)
    decreases body, 1, |xs|
  {
    xs == [] ||
    (var st1 := St(st.regs[v := xs[0]], st.w);
     ReadsBound(cfg, body, seen, st1) &&
     var o := ExecBlock(cfg, body, seen, st1);
     o.flow.Next? ==> EachReadsBound(cfg, xs[1..], v, body, seen, o.st))
  }

  ghost predicate TryReadsBound(cfg: Config, left: nat, dst: nat, body: seq<Stmt>, seen: set<nat>, st: St)
    decreases body, 1, left
  {
    ReadsBound(cfg, body, seen, st) &&
    var o := ExecBlock(cfg, body, seen, st);
    o.flow.Fail? && o.flow.e.ToolErr? && left > 0 ==>
      TryReadsBound(cfg, left - 1, dst, body, seen, St(o.st.regs[dst := Str(o.flow.e.code)], o.st.w))
  }

  // ---------------------------------------------------------------- smooth runs

  /** Every FOREACH entered along the run has a non-empty list, and every TRY that completes leaves "OK". */
  ghost predicate Smooth(cfg: Config, body: seq<Stmt>, seen: set<nat>, st: St)
    decreases body, 0, 0
  {
    body == [] ||
    (StmtSmooth(cfg, body[0], seen, st) &&
     var o := ExecStmt(cfg, body[0], seen, st);
     o.flow.Next? ==> Smooth(cfg, body[1..], seen + StmtDsts(body[0]), o.st))
  }

  ghost predicate StmtSmooth(cfg: Config, s: Stmt, seen: set<nat>, st0: St)
    decreases s, 0, 0
  {
    var st := Enter(st0, s.line);
    match s.instr
    case Foreach(src, v, body) =>
      var it := Iterable(Lookup(st.regs, src));
      it.Ok? ==> it.value != [] && EachSmooth(cfg, it.value, v, body, seen + {v}, st)
    case If(cond, thn, els) =>
      var c := EvalPred(cfg, st.regs, st.w, None, cond);
      c.r.Ok? ==>
        if c.r.value then Smooth(cfg, thn, seen, St(st.regs, c.w))
        else (match els case NoElse => true case Else(b) => Smooth(cfg, b, seen + Dsts(thn), St(st.regs, c.w)))
    case Try(retry, dst, body) => TrySmooth(cfg, retry, dst, body, seen + {dst}, St(st.regs[dst := Str("OK")], st.w))
    case _ => true
  }

  ghost predicate EachSmooth(cfg: Config, xs: seq<Value>, v: nat, body: seq<Stmt>, seen: set<nat>, st: St)
    decreases body, 1, |xs|
  {
    xs == [] ||
    (var st1 := St(st.regs[v := xs[0]], st.w);
     Smooth(cfg, body, seen, st1) &&
     var o := ExecBlock(cfg, body, seen, st1);
     o.flow.Next? ==> EachSmooth(cfg, xs[1..], v, body, seen, o.st))
  }

  ghost predicate TrySmooth(cfg: Config, left: nat, dst: nat, body: seq<Stmt>, seen: set<nat>, st: St)
    decreases body, 1, left
  {
    Smooth(cfg, body, seen, st) &&
    var o := ExecBlock(cfg, body, seen, st);
    o.flow.Fail? && o.flow.e.ToolErr? ==>
      left > 0 && TrySmooth(cfg, left - 1, dst, body, seen, St(o.st.regs[dst := Str(o.flow.e.code)], o.st.w))
  }

  // ---------------------------------------------------------------- a clean instruction reads bound registers

  lemma OpClean(ctx: TaskContext, env: Env, op: Operand, line: nat)
    requires OperandType(ctx, env, op, line).diags == []
    ensures OpUses(op) <= env.Keys
  {
  }

  lemma {:induction false} FilterClean(ctx: TaskContext, env: Env, cs: seq<Clause>, entity: Entity, line: nat)
    requires CheckFilter(ctx, env, cs, entity, line) == []
    ensures ClausesUses(cs) <= env.Keys
    decreases cs
  {
    hide CheckCmp;
    hide FieldType;
    if cs != [] {
      var c := cs[0];
      var d := CheckFilterClause(ctx, env, c, entity, line);
      assert |d| == 0 && |CheckFilter(ctx, env, cs[1..], entity, line)| == 0;
      if c.right.ROp? {
        assert |d| >= |OperandType(ctx, env, c.right.op, line).diags|;
        OpClean(ctx, env, c.right.op, line);
      }
      FilterClean(ctx, env, cs[1..], entity, line);
    }
  }

  lemma {:induction false} CondClean(ctx: TaskContext, env: Env, cs: seq<Clause>, line: nat)
    requires CheckCond(ctx, env, cs, line) == [] && AllComplete(cs)
    ensures ClausesUses(cs) <= env.Keys
    decreases cs
  {
    hide CheckCmp;
    if cs != [] {
      var c := cs[0];
      var d := CheckCondClause(ctx, env, c, line);
      assert |d| == 0 && |CheckCond(ctx, env, cs[1..], line)| == 0;
      assert ClauseComplete(c);
      assert |d| >= |OperandType(ctx, env, c.left.op, line).diags|;
      OpClean(ctx, env, c.left.op, line);
      if c.right.ROp? {
        assert |d| >= |OperandType(ctx, env, c.right.op, line).diags|;
        OpClean(ctx, env, c.right.op, line);
      }
      assert AllComplete(cs[1..]);
      CondClean(ctx, env, cs[1..], line);
    }
  }

  /** Literal NULLs aside, a clean argument list types every operand; NULL reads nothing. */
  lemma {:induction false} ArgsClean(ctx: TaskContext, env: Env, params: seq<Param>, args: seq<Operand>, i: nat,
                                     line: nat)
    requires i <= |params| && CheckArgs(ctx, env, params, args, i, line) == []
    ensures forall k | i <= k < |args| && k < |params| :: OpUses(args[k]) <= env.Keys
    decreases |params| - i
  {
    if i < |params| {
      var rest := CheckArgs(ctx, env, params, args, i + 1, line);
      assert |CheckArgs(ctx, env, params, args, i, line)| >= |rest|;
      ArgsClean(ctx, env, params, args, i + 1, line);
      if i < |args| {
        var at := OperandType(ctx, env, args[i], line);
        if !args[i].ONull? {
          assert |CheckArgs(ctx, env, params, args, i, line)| >= |at.diags|;
          OpClean(ctx, env, args[i], line);
        }
      }
    }
  }

  lemma {:induction false} OpsUsesWithin(ops: seq<Operand>, ns: set<nat>)
    requires forall k | 0 <= k < |ops| :: OpUses(ops[k]) <= ns
    ensures OpsUses(ops) <= ns
    decreases ops
  {
    hide OpUses;
    if ops != [] {
      OpsUsesWithin(ops[1..], ns);
    }
  }

  lemma CallClean(ctx: TaskContext, env: Env, c: CallI)
    requires CheckCall(ctx, env, c) == []
    ensures OpsUses(c.args) <= env.Keys
  {
    hide CheckArgs;
    hide OpUses;
    hide OpsUses;
    var params := ctx.tools[c.tool].params;
    var d := CheckArgs(ctx, env, params, c.args, 0, c.line);
    assert |d + Mismatch(|c.args| <= |params|, c.line)| == 0;
    ArgsClean(ctx, env, params, c.args, 0, c.line);
    OpsUsesWithin(c.args, env.Keys);
  }

  lemma {:induction false} CallsClean(ctx: TaskContext, env: Env, calls: seq<CallI>, dsts: set<nat>)
    requires CheckParallel(ctx, env, calls, dsts) == []
    ensures CallsUses(calls) <= env.Keys
    decreases calls
  {
    hide CheckCall;
    hide CheckFresh;
    hide OpsUses;
    if calls != [] {
      var a, b, c := CheckFresh(calls[0].args, dsts, calls[0].line), CheckCall(ctx, env, calls[0]),
          CheckParallel(ctx, env, calls[1..], dsts);
      assert |a + b + c| == 0;
      CallClean(ctx, env, calls[0]);
      CallsClean(ctx, env, calls[1..], dsts);
    }
  }

  /** A clean instruction reads only registers the checker holds bound. */
  lemma {:induction false} HeadClean(ctx: TaskContext, s: Stmt, env: Env)
    requires StmtClean(ctx, s, env)
    ensures HeadReads(s.instr) <= env.Keys
  {
    hide CheckBlock;
    hide CheckFilter;
    hide CheckCond;
    hide CheckCall;
    hide CheckParallel;
    hide FieldType;
    hide CheckTemplate;
    hide CheckSlots;
    hide OpUses;
    hide OpsUses;
    hide ClausesUses;
    hide CallsUses;
    var d := CheckStmt(ctx, s, env).diags;
    match s.instr
    case Let(op, _) => OpClean(ctx, env, op, s.line);
    case Get(src, f, _) => GetClean(ctx, env, src, f, s.line);
    case DoCall(c) => CallClean(ctx, env, c);
    case Format(t, ops, _, _) =>
      assert |CheckTemplate(ctx, t, |ops|, s.line) + CheckSlots(ctx, env, ops, s.line)| == 0;
      SlotsBound(ctx, env, ops, s.line);
    case Filter(src, p, _) =>
      var (e, d0) := ListEntity(env, src, s.line);
      assert |d| >= |d0|;
      assert e.Some?;
      assert |d0 + CheckFilter(ctx, env, p.clauses, e.value, s.line)| == 0;
      FilterClean(ctx, env, p.clauses, e.value, s.line);
    case Select(src, idx, _) =>
      var i, t := OperandType(ctx, env, idx, s.line), ElemType(env, src, s.line);
      assert |d| >= |i.diags| + |t.diags|;
      OpClean(ctx, env, idx, s.line);
    case Foreach(src, _, _) => assert |d| >= |ElemType(env, src, s.line).diags|;
    case If(c, t, _) =>
      assert |d| >= |CheckCond(ctx, env, c.clauses, s.line)|;
      CondClean(ctx, env, c.clauses, s.line);
    case Parallel(calls) => CallsClean(ctx, env, calls, CallDstSet(calls));
    case Return(op) => OpClean(ctx, env, op, s.line);
    case Most(src, f, cands, dst, _) => MostClean(ctx, env, src, f, cands, dst, s.line);
    case _ =>
  }

  lemma GetClean(ctx: TaskContext, env: Env, src: nat, f: string, line: nat)
    requires OperandType(ctx, env, ORegField(src, f), line).diags == []
    ensures src in env
  {
  }

  /** The candidate register of MOST is looked up after the destination is bound, but a destination bound by this very
      instruction never has the candidates' type. */
  lemma MostClean(ctx: TaskContext, env: Env, src: nat, f: string, cands: Option<nat>, dst: nat, line: nat)
    requires CheckMost(ctx, env, src, f, cands, dst, line).diags == []
    ensures src in env && (cands.Some? ==> cands.value in env)
  {
    hide FieldType;
    var (e, d0) := ListEntity(env, src, line);
    var ft := if e.Some? then FieldType(ctx, f, e.value, line) else Typed(None, []);
    assert |CheckMost(ctx, env, src, f, cands, dst, line).diags| >= |d0| + |ft.diags|;
    assert ft.ty.Some? by { FieldTyped(ctx, f, e.value, line); }
  }

  lemma FieldTyped(ctx: TaskContext, f: string, entity: Entity, line: nat)
    ensures var t := FieldType(ctx, f, entity, line); t.ty.Some? <==> t.diags == []
  {
  }

  // ---------------------------------------------------------------- the invariant

  /** What running a clean piece of text establishes: reads were bound, nothing is unbound again, and when control falls
      through, the checker's environment is bound. */
  ghost predicate Delivers(st: St, o: Out, c: CheckOut) {
    st.regs.Keys <= o.st.regs.Keys && (o.flow.Next? ==> !c.done && c.env.Keys <= o.st.regs.Keys)
  }

  /** At every point the checker's environment domain is contained in the registers bound by the run. */
  lemma {:induction false} BlockBound(cfg: Config, ctx: TaskContext, body: seq<Stmt>, env: Env, seen: set<nat>, st: St)
    requires Clean(ctx, body, env) && env.Keys <= st.regs.Keys && Smooth(cfg, body, seen, st)
    ensures ReadsBound(cfg, body, seen, st)
    ensures Delivers(st, ExecBlock(cfg, body, seen, st), CheckBlock(ctx, body, env))
    decreases body, 0, 0
  {
    hide ExecStmt;
    hide CheckStmt;
    hide StmtSmooth;
    hide StmtReadsBound;
    if body != [] {
      CleanSplit(ctx, body, env);
      StmtBound(cfg, ctx, body[0], env, seen, st);
      var o := ExecStmt(cfg, body[0], seen, st);
      if o.flow.Next? {
        BlockBound(cfg, ctx, body[1..], CheckStmt(ctx, body[0], env).env, seen + StmtDsts(body[0]), o.st);
      }
    }
  }

  lemma {:induction false} StmtBound(cfg: Config, ctx: TaskContext, s: Stmt, env: Env, seen: set<nat>, st0: St)
    requires StmtClean(ctx, s, env) && env.Keys <= st0.regs.Keys && StmtSmooth(cfg, s, seen, st0)
    ensures StmtReadsBound(cfg, s, seen, st0)
    ensures Delivers(st0, ExecStmt(cfg, s, seen, st0), CheckStmt(ctx, s, env))
    decreases s, 0, 1
  {
    hide ExecBlock;
    hide ExecEach;
    hide ExecTry;
    hide EvalFrom;
    hide CheckBlock;
    hide CheckCond;
    hide Iterable;
    hide HeadReads;
    hide EvalPred;
    HeadClean(ctx, s, env);
    var st := Enter(st0, s.line);
    match s.instr
    case Foreach(src, v, body) =>
      var t := ElemType(env, src, s.line);
      assert |CheckStmt(ctx, s, env).diags| >= |t.diags|;
      var it := Iterable(Lookup(st.regs, src));
      if it.Ok? { EachBound(cfg, ctx, it.value, v, body, env, t.ty.value, seen + {v}, st); }
    case If(_, _, _) => IfBound(cfg, ctx, s, env, seen, st0);
    case Try(retry, dst, body) =>
      TryBound(cfg, ctx, retry, dst, body, env, seen + {dst}, St(st.regs[dst := Str("OK")], st.w));
    case Parallel(calls) => ParallelBound(cfg, ctx, calls, env, st);
    case _ => FlatBound(cfg, ctx, s, env, seen, st0);
  }

  lemma {:induction false} BindAllKeys(regs: Regs, calls: seq<CallI>, vals: seq<Value>)
    requires |vals| == |calls|
    ensures BindAll(regs, calls, vals).Keys == regs.Keys + CallDsts(calls)
    decreases calls
  {
    if calls != [] {
      BindAllKeys(if calls[0].dst.Some? then regs[calls[0].dst.value := vals[0]] else regs, calls[1..], vals[1..]);
    }
  }

  lemma ParallelBound(cfg: Config, ctx: TaskContext, calls: seq<CallI>, env: Env, st: St)
    requires env.Keys <= st.regs.Keys
    ensures var o := ParallelOut(cfg, st, calls);
            st.regs.Keys <= o.st.regs.Keys && (o.flow.Next? ==> BindParallel(ctx, env, calls).Keys <= o.st.regs.Keys)
  {
    hide RunCalls;
    hide BindAll;
    hide BindParallel;
    SettledLength(cfg, st.regs, st.w, calls);
    BindParallelKeys(ctx, env, calls);
    var o := RunCalls(cfg, st.regs, st.w, calls);
    if o.Settled? { BindAllKeys(st.regs, calls, o.vals); }
  }

  lemma SimpleBound(cfg: Config, ctx: TaskContext, s: Stmt, env: Env, seen: set<nat>, st0: St)
    requires IsSimple(s.instr) && env.Keys <= st0.regs.Keys
    ensures Delivers(st0, ExecStmt(cfg, s, seen, st0), CheckStmt(ctx, s, env))
  {
    hide SimpleValue;
    hide CheckFilter;
    hide CheckTemplate;
    hide CheckSlots;
    hide OperandType;
    hide FieldType;
    hide ElemType;
    StmtEnvGrowth(ctx, s, env);
  }

  lemma FlatBound(cfg: Config, ctx: TaskContext, s: Stmt, env: Env, seen: set<nat>, st0: St)
    requires !s.instr.Foreach? && !s.instr.If? && !s.instr.Try? && !s.instr.Parallel?
    requires env.Keys <= st0.regs.Keys
    ensures Delivers(st0, ExecStmt(cfg, s, seen, st0), CheckStmt(ctx, s, env))
  {
    hide CallStep;
    hide EvalOp;
    hide CheckCall;
    hide CheckRefs;
    hide OperandType;
    StmtEnvGrowth(ctx, s, env);
    if IsSimple(s.instr) {
      hide ExecStmt;
      hide CheckStmt;
      SimpleBound(cfg, ctx, s, env, seen, st0);
    }
  }

  lemma {:induction false} IfBound(cfg: Config, ctx: TaskContext, s: Stmt, env: Env, seen: set<nat>, st0: St)
    requires s.instr.If?
    requires StmtClean(ctx, s, env) && env.Keys <= st0.regs.Keys && StmtSmooth(cfg, s, seen, st0)
    requires HeadReads(s.instr) <= Enter(st0, s.line).regs.Keys
    ensures StmtReadsBound(cfg, s, seen, st0)
    ensures Delivers(st0, ExecStmt(cfg, s, seen, st0), CheckStmt(ctx, s, env))
    decreases s, 0, 0
  {
    hide ExecBlock;
    hide EvalFrom;
    hide CheckBlock;
    hide CheckCond;
    hide HeadReads;
    var If(cond, thn, els) := s.instr;
    var st := Enter(st0, s.line);
    var c := EvalPred(cfg, st.regs, st.w, None, cond);
    var d0, t := CheckCond(ctx, env, cond.clauses, s.line), CheckBlock(ctx, thn, env);
    if c.r.Ok? {
      var st1 := St(st.regs, c.w);
      if els.Else? {
        var e := CheckBlock(ctx, els.body, env);
        assert |d0 + t.diags + e.diags| == 0;
        if c.r.value { BlockBound(cfg, ctx, thn, env, seen, st1); }
        else { BlockBound(cfg, ctx, els.body, env, seen + Dsts(thn), st1); }
      } else {
        assert |d0 + t.diags| == 0;
        if c.r.value { BlockBound(cfg, ctx, thn, env, seen, st1); }
      }
    }
  }

  lemma {:induction false} EachBound(cfg: Config, ctx: TaskContext, xs: seq<Value>, v: nat, body: seq<Stmt>, env: Env,
                                     t: Type, seen: set<nat>, st: St)
    requires Clean(ctx, body, env[v := t]) && env.Keys <= st.regs.Keys && EachSmooth(cfg, xs, v, body, seen, st)
    ensures EachReadsBound(cfg, xs, v, body, seen, st)
    ensures var o := ExecEach(cfg, xs, v, body, seen, st);
            st.regs.Keys <= o.st.regs.Keys &&
            (o.flow.Next? && xs != [] ==> CheckBlock(ctx, body, env[v := t]).env.Keys <= o.st.regs.Keys)
    decreases body, 1, |xs|
  {
    hide ExecBlock;
    hide CheckBlock;
    hide Smooth;
    hide ReadsBound;
    if xs != [] {
      var st1 := St(st.regs[v := xs[0]], st.w);
      BlockBound(cfg, ctx, body, env[v := t], seen, st1);
      var o := ExecBlock(cfg, body, seen, st1);
      if o.flow.Next? { EachBound(cfg, ctx, xs[1..], v, body, env, t, seen, o.st); }
    }
  }

  lemma {:induction false} TryBound(cfg: Config, ctx: TaskContext, left: nat, dst: nat, body: seq<Stmt>, env: Env,
                                    seen: set<nat>, st: St)
    requires Clean(ctx, body, env) && env.Keys <= st.regs.Keys && TrySmooth(cfg, left, dst, body, seen, st)
    ensures TryReadsBound(cfg, left, dst, body, seen, st)
    ensures var o := ExecTry(cfg, left, dst, body, seen, st);
            st.regs.Keys <= o.st.regs.Keys &&
            (o.flow.Next? ==> CheckBlock(ctx, body, env).env.Keys + {dst} <= o.st.regs.Keys)
    decreases body, 1, left
  {
    hide ExecBlock;
    hide CheckBlock;
    hide Smooth;
    hide ReadsBound;
    BlockBound(cfg, ctx, body, env, seen, st);
    var o := ExecBlock(cfg, body, seen, st);
    if o.flow.Fail? && o.flow.e.ToolErr? {
      TryBound(cfg, ctx, left - 1, dst, body, env, seen, St(o.st.regs[dst := Str(o.flow.e.code)], o.st.w));
    }
  }

  /** On a smooth run of a clean program every register is assigned before it is read. */
  lemma AssignedBeforeRead(cfg: Config, ctx: TaskContext, body: seq<Stmt>, w: World)
    requires Clean(ctx, body, ctx.initial)
    requires Smooth(cfg, body, ctx.initial.Keys, St(InitialRegs(cfg, ctx.initial.Keys), w))
    ensures ReadsBound(cfg, body, ctx.initial.Keys, St(InitialRegs(cfg, ctx.initial.Keys), w))
  {
    hide ExecBlock;
    hide CheckBlock;
    BlockBound(cfg, ctx, body, ctx.initial, ctx.initial.Keys, St(InitialRegs(cfg, ctx.initial.Keys), w));
  }

  // ---------------------------------------------------------------- both hypotheses are needed

  /** FOREACH R0 AS R1 { LET R2 = R1 }; RETURN R1. */
  function LoopThenRead(): seq<Stmt> {
    [At(0, Foreach(0, 1, [At(0, Let(OReg(1), 2))])), At(0, Return(OReg(1)))]
  }

  lemma LoopThenReadClean(ctx: TaskContext, e: Entity)
    requires ctx.initial == map[0 := TList(TObj(e))]
    ensures Clean(ctx, LoopThenRead(), ctx.initial)
  {
    var inner := [At(0, Let(OReg(1), 2))];
    var body := LoopThenRead();
    assert inner[1..] == [] && body[1..] == [At(0, Return(OReg(1)))] && body[1..][1..] == [];
    var env1 := ctx.initial[1 := TObj(e)];
    assert CheckBlock(ctx, inner, env1) == Fall(env1[2 := TObj(e)], []);
    hide CheckBlock;
    var h := CheckStmt(ctx, body[0], ctx.initial);
    assert h == Fall(env1[2 := TObj(e)], []);
    ReturnClean(ctx, h.env);
    BlockStep(ctx, body, ctx.initial);
  }

  lemma LoopThenReadUnbound(cfg: Config, w: World)
    ensures !ReadsBound(cfg, LoopThenRead(), {0}, St(map[0 := List([])], w))
  {
    var body, st := LoopThenRead(), St(map[0 := List([])], w);
    assert ExecStmt(cfg, body[0], {0}, st) == Out(st, Next);
    assert !StmtReadsBound(cfg, body[1], {0} + StmtDsts(body[0]), st);
    hide ExecStmt;
    hide StmtReadsBound;
    hide StmtDsts;
    assert body[1..][0] == body[1];
  }

  /** A clean program reads its loop variable after a FOREACH over an empty list; it was never assigned. */
  lemma EmptyListUnbinds(cfg: Config, w: World, e: Entity)
    ensures var ctx := TaskContext(map[], map[], map[], map[0 := TList(TObj(e))]);
            Clean(ctx, LoopThenRead(), ctx.initial) && !ReadsBound(cfg, LoopThenRead(), {0}, St(map[0 := List([])], w))
  {
    hide CheckBlock;
    hide ReadsBound;
    hide LoopThenRead;
    LoopThenReadClean(TaskContext(map[], map[], map[], map[0 := TList(TObj(e))]), e);
    LoopThenReadUnbound(cfg, w);
  }

  /** SELECT from an empty list fails. */
  lemma FailedSelect(cfg: Config, seen: set<nat>, regs: Regs, w: World)
    requires w.ops < cfg.maxOps && 3 in regs && regs[3] == List([])
    ensures ExecBlock(cfg, [At(0, Select(3, OInt(0), 1))], seen, St(regs, w)) ==
            Out(St(regs, Tick(w)), Fail(ToolErr("INDEX_OUT_OF_RANGE")))
  {
    var select := At(0, Select(3, OInt(0), 1));
    assert ExecStmt(cfg, select, seen, St(regs, w)) == Out(St(regs, Tick(w)), Fail(ToolErr("INDEX_OUT_OF_RANGE")));
    hide ExecStmt;
    assert [select][0] == select;
  }

  /** A TRY around it leaves r1 unbound. */
  lemma FailedTryRun(cfg: Config, w: World)
    requires w.ops < cfg.maxOps
    ensures var s := At(0, Try(0, 0, [At(0, Select(3, OInt(0), 1))])); var regs: Regs := map[3 := List([])];
            ExecStmt(cfg, s, {3}, St(regs, w)) == Out(St(regs[0 := Str("INDEX_OUT_OF_RANGE")], Tick(w)), Next)
  {
    hide ExecBlock;
    var inner := [At(0, Select(3, OInt(0), 1))];
    var regs: Regs := map[3 := List([])];
    var begun := regs[0 := Str("OK")];
    FailedSelect(cfg, {3} + {0}, begun, w);
    assert begun[0 := Str("INDEX_OUT_OF_RANGE")] == regs[0 := Str("INDEX_OUT_OF_RANGE")];
    assert ExecTry(cfg, 0, 0, inner, {3} + {0}, St(begun, w)) ==
           Out(St(regs[0 := Str("INDEX_OUT_OF_RANGE")], Tick(w)), Next);
  }

  lemma FailedTryClean(ctx: TaskContext)
    requires ctx.initial == map[3 := TList(TInt)]
    ensures Clean(ctx, [At(0, Try(0, 0, [At(0, Select(3, OInt(0), 1))])), At(0, Return(OReg(1)))], ctx.initial)
  {
    var inner := [At(0, Select(3, OInt(0), 1))];
    var body := [At(0, Try(0, 0, inner)), At(0, Return(OReg(1)))];
    var env := ctx.initial;
    assert CheckBlock(ctx, inner, env) == Fall(env[1 := TInt], []) by {
      assert inner[1..] == [];
      assert CheckStmt(ctx, inner[0], env) == Fall(env[1 := TInt], []);
    }
    hide CheckBlock;
    var h := CheckStmt(ctx, body[0], env);
    assert h == Fall(env[1 := TInt][0 := TStatus], []);
    ReturnClean(ctx, h.env);
    BlockStep(ctx, body, env);
  }

  lemma ReturnClean(ctx: TaskContext, env: Env)
    requires 1 in env
    ensures CheckBlock(ctx, [At(0, Return(OReg(1)))], env).diags == []
  {
    var b := [At(0, Return(OReg(1)))];
    assert b[1..] == [];
    assert CheckStmt(ctx, b[0], env) == CheckOut(env, [], true, []);
  }

  lemma BlockStep(ctx: TaskContext, body: seq<Stmt>, env: Env)
    requires body != [] && CheckStmt(ctx, body[0], env).diags == [] && !CheckStmt(ctx, body[0], env).done
    ensures CheckBlock(ctx, body, env).diags == CheckBlock(ctx, body[1..], CheckStmt(ctx, body[0], env).env).diags
  {
    hide CheckStmt;
  }

  /** A clean program reads, after a TRY that failed, a register its body was to bind. */
  lemma FailedTryUnbinds(cfg: Config, w: World)
    requires w.ops < cfg.maxOps
    ensures var ctx := TaskContext(map[], map[], map[], map[3 := TList(TInt)]);
            var body := [At(0, Try(0, 0, [At(0, Select(3, OInt(0), 1))])), At(0, Return(OReg(1)))];
            Clean(ctx, body, ctx.initial) && !ReadsBound(cfg, body, {3}, St(map[3 := List([])], w))
  {
    hide CheckBlock;
    hide ExecStmt;
    hide ExecTry;
    hide ExecBlock;
    var ctx := TaskContext(map[], map[], map[], map[3 := TList(TInt)]);
    FailedTryClean(ctx);
    var body := [At(0, Try(0, 0, [At(0, Select(3, OInt(0), 1))])), At(0, Return(OReg(1)))];
    FailedTryRun(cfg, w);
    var regs: Regs := map[3 := List([])];
    var st1 := St(regs[0 := Str("INDEX_OUT_OF_RANGE")], Tick(w));
    assert !StmtReadsBound(cfg, body[1], {3} + StmtDsts(body[0]), st1);
    hide StmtReadsBound;
    hide StmtDsts;
    assert body[1..][0] == body[1];
  }
}
