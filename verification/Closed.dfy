/** Emitted code is register-closed. */
module Closed {
  import opened Common
  import opened Ir
  import opened Runtime
  import opened Semantics
  import Js = JsTarget
  import opened JsTarget
  import opened Compile
  import opened CompilePred
  import opened CompileCorrect
  import opened Check

  // ---------------------------------------------------------------- what `_collect_regs` sees

  /** `_collect_regs`: everything `Uses` sees except FORMAT's operands. */
  function Collected(body: seq<Stmt>): set<nat>
    decreases body
  {
    if body == [] then {} else StmtCollected(body[0]) + Collected(body[1..])
  }

  function StmtCollected(s: Stmt): set<nat>
    decreases s
  {
    match s.instr
    case Format(_, _, d, _) => {d}
    case Foreach(src, v, b) => {src, v} + Collected(b)
    case If(c, t, e) => ClausesUses(c.clauses) + Collected(t) + (match e case NoElse => {} case Else(b) => Collected(b))
    case Try(_, d, b) => {d} + Collected(b)
    case _ => StmtUses(s)
  }

  /** `emit`: the `let` line, the initial registers, and `return rt.stop()` unless the text ends in a terminator. */
  function CompileProgram(body: seq<Stmt>, init: set<nat>): JsProgram {
    var es := EmitState(init, 0, 0);
    JsProgram(init + Collected(body), init, EmitBlock(body, es) + (if EndsProgram(body) then [] else [RetStop]))
  }

  predicate EndsProgram(body: seq<Stmt>) {
    body != [] && var last := body[|body| - 1].instr; last.Return? || last.Stop? || last.Pause? || last.Abort?
  }

  lemma {:induction false} DstsCollected(body: seq<Stmt>)
    ensures Dsts(body) <= Collected(body)
    decreases body
  {
    if body != [] {
      StmtDstsCollected(body[0]);
      DstsCollected(body[1..]);
    }
  }

  lemma {:induction false} StmtDstsCollected(s: Stmt)
    ensures StmtDsts(s) <= StmtCollected(s)
    decreases s
  {
    match s.instr
    case Foreach(_, _, b) => DstsCollected(b);
    case If(_, t, e) =>
      DstsCollected(t);
      if e.Else? { DstsCollected(e.body); }
    case Try(_, _, b) => DstsCollected(b);
    case _ =>
  }

  lemma {:induction false} BindParallelKeys(ctx: TaskContext, env: Env, calls: seq<CallI>)
    ensures BindParallel(ctx, env, calls).Keys == env.Keys + CallDsts(calls)
    decreases calls
  {
    hide ResultType;
    if calls != [] {
      var env1 := if calls[0].dst.Some? then env[calls[0].dst.value := ResultType(ctx, calls[0].tool)] else env;
      BindParallelKeys(ctx, env1, calls[1..]);
    }
  }

  /** The checker binds nothing but destinations. */
  lemma {:induction false} EnvGrowth(ctx: TaskContext, body: seq<Stmt>, env: Env)
    ensures CheckBlock(ctx, body, env).env.Keys <= env.Keys + Dsts(body)
    decreases body
  {
    hide CheckStmt;
    if body != [] {
      StmtEnvGrowth(ctx, body[0], env);
      var h := CheckStmt(ctx, body[0], env);
      if !h.done { EnvGrowth(ctx, body[1..], h.env); }
    }
  }

  lemma {:induction false} StmtEnvGrowth(ctx: TaskContext, s: Stmt, env: Env)
    ensures CheckStmt(ctx, s, env).env.Keys <= env.Keys + StmtDsts(s)
    decreases s
  {
    hide CheckFilter;
    hide CheckCond;
    hide OperandType;
    hide FieldType;
    hide CheckCall;
    hide CheckParallel;
    hide CheckTemplate;
    hide CheckSlots;
    hide CheckRefs;
    match s.instr
    case Foreach(src, v, b) =>
      var t := ElemType(env, src, s.line);
      if t.ty.Some? { EnvGrowth(ctx, b, env[v := t.ty.value]); }
    case If(_, t, e) =>
      EnvGrowth(ctx, t, env);
      if e.Else? { EnvGrowth(ctx, e.body, env); }
    case Parallel(calls) => BindParallelKeys(ctx, env, calls);
    case Try(_, d, b) => EnvGrowth(ctx, b, env);
    case _ =>
  }

  lemma {:induction false} SlotsBound(ctx: TaskContext, env: Env, ops: seq<Operand>, line: nat)
    requires CheckSlots(ctx, env, ops, line) == []
    ensures OpsUses(ops) <= env.Keys
    decreases ops
  {
    hide FieldType;
    if ops != [] {
      var t := OperandType(ctx, env, ops[0], line);
      assert |t.diags| == 0 && |CheckSlots(ctx, env, ops[1..], line)| == 0;
      SlotsBound(ctx, env, ops[1..], line);
    }
  }

  /** What the `let` line misses is bound in the environment, for every clean block. */
  lemma {:induction false} UsesCovered(ctx: TaskContext, body: seq<Stmt>, env: Env)
    requires Clean(ctx, body, env)
    ensures Uses(body) <= Collected(body) + env.Keys
    decreases body
  {
    hide CheckStmt;
    hide StmtUses;
    hide StmtCollected;
    if body != [] {
      CleanSplit(ctx, body, env);
      StmtUsesCovered(ctx, body[0], env);
      var h := CheckStmt(ctx, body[0], env);
      if !h.done {
        UsesCovered(ctx, body[1..], h.env);
        StmtEnvGrowth(ctx, body[0], env);
        StmtDstsCollected(body[0]);
      }
    }
  }

  lemma {:induction false} StmtUsesCovered(ctx: TaskContext, s: Stmt, env: Env)
    requires StmtClean(ctx, s, env)
    ensures StmtUses(s) <= StmtCollected(s) + env.Keys
    decreases s
  {
    hide CheckFilter;
    hide CheckCond;
    hide OperandType;
    hide FieldType;
    hide CheckCall;
    hide CheckParallel;
    hide CheckTemplate;
    hide CheckRefs;
    hide CheckBlock;
    match s.instr
    case Format(template, ops, _, _) =>
      assert |CheckTemplate(ctx, template, |ops|, s.line) + CheckSlots(ctx, env, ops, s.line)| == 0;
      SlotsBound(ctx, env, ops, s.line);
    case Foreach(src, v, b) =>
      var t := ElemType(env, src, s.line);
      assert |CheckStmt(ctx, s, env).diags| >= |t.diags|;
      UsesCovered(ctx, b, env[v := t.ty.value]);
    case If(c, t, e) =>
      var d0, o := CheckCond(ctx, env, c.clauses, s.line), CheckBlock(ctx, t, env);
      if e.Else? {
        var o2 := CheckBlock(ctx, e.body, env);
        assert |d0 + o.diags + o2.diags| == 0;
        UsesCovered(ctx, t, env);
        UsesCovered(ctx, e.body, env);
      } else {
        assert |d0 + o.diags| == 0;
        UsesCovered(ctx, t, env);
      }
    case Try(_, _, b) => UsesCovered(ctx, b, env);
    case _ =>
  }

  /** Every register the emitted code names is on its `let` line, FORMAT operands included. */
  lemma RegistersDeclared(ctx: TaskContext, body: seq<Stmt>)
    requires Clean(ctx, body, ctx.initial)
    ensures Uses(body) <= CompileProgram(body, ctx.initial.Keys).declared
  {
    UsesCovered(ctx, body, ctx.initial);
  }

  // ---------------------------------------------------------------- compiler correctness, whole programs

  lemma {:induction false} EndsInExit(cfg: Config, body: seq<Stmt>, seen: set<nat>, st: St)
    requires EndsProgram(body)
    ensures !ExecBlock(cfg, body, seen, st).flow.Next?
    decreases body
  {
    hide EvalOp;
    var h := ExecStmt(cfg, body[0], seen, st);
    if |body| == 1 {
      assert body[1..] == [];
    } else {
      hide ExecStmt;
      if h.flow.Next? { EndsInExit(cfg, body[1..], seen + StmtDsts(body[0]), h.st); }
    }
  }

  /** For every clean program, start world and configuration, the emitted JavaScript ends with the same marker or
      exception, the same world (state, call log, counters, operation count, line) and the same registers as the
      direct semantics. */
  lemma CompiledRunMatches(cfg: Config, ctx: TaskContext, body: seq<Stmt>, w: World)
    requires Clean(ctx, body, ctx.initial)
    ensures var p := CompileProgram(body, ctx.initial.Keys);
            JsRun(cfg, p, w) == ImageOut(Declared(p.declared), RunBody(cfg, body, ctx.initial.Keys, w))
  {
    hide JsExec;
    hide ExecBlock;
    hide Collected;
    hide EmitBlock;
    var init := ctx.initial.Keys;
    var p := CompileProgram(body, init);
    var base := Declared(p.declared);
    RegistersDeclared(ctx, body);
    var rest := if EndsProgram(body) then [] else [RetStop];
    var es := EmitState(init, 0, 0);
    var st := St(InitialRegs(cfg, init), w);
    var sc' := BlockOk(cfg, base, body, es, st, Scope(map[], None), rest);
    var o := ExecBlock(cfg, body, init, st);
    if EndsProgram(body) {
      EndsInExit(cfg, body, init, st);
    } else if o.flow.Next? {
      Single(cfg, RetStop, sc', Image(base, o.st));
    }
  }

  // ---------------------------------------------------------------- PAUSE

  /** The register lists of the PAUSE returns, in text order. */
  function PauseLists(ss: seq<JsStmt>): seq<set<nat>>
    decreases ss
  {
    if ss == [] then [] else StmtPauses(ss[0]) + PauseLists(ss[1..])
  }

  function StmtPauses(s: JsStmt): seq<set<nat>>
    decreases s
  {
    match s
    case ForOf(_, _, b) => PauseLists(b)
    case IfElse(_, t, e) => PauseLists(t) + (match e case NoElse => [] case Else(b) => PauseLists(b))
    case ForCount(_, _, b) => PauseLists(b)
    case TryCatch(b, h) => PauseLists(b) + PauseLists(h)
    case RetPause(ns) => [ns]
    case _ => []
  }

  lemma {:induction false} PauseAppend(a: seq<JsStmt>, b: seq<JsStmt>)
    ensures PauseLists(a + b) == PauseLists(a) + PauseLists(b)
    decreases a
  {
    hide StmtPauses;
    if a == [] {
      assert a + b == b;
    } else {
      assert (a + b)[1..] == a[1..] + b;
      PauseAppend(a[1..], b);
    }
  }

  lemma {:induction false} NoPauseInAssigns(calls: seq<CallI>, p: nat, i: nat)
    requires i <= |calls|
    ensures PauseLists(AssignPars(calls, p, i)) == []
    decreases |calls| - i
  {
    if i < |calls| {
      NoPauseInAssigns(calls, p, i + 1);
      if calls[i].dst.Some? {
        var s := AssignPar(calls[i].dst.value, p, i);
        assert AssignPars(calls, p, i) == [s] + AssignPars(calls, p, i + 1);
        assert ([s] + AssignPars(calls, p, i + 1))[1..] == AssignPars(calls, p, i + 1);
      } else {
        assert AssignPars(calls, p, i) == AssignPars(calls, p, i + 1);
      }
    }
  }

  ghost predicate Covers(lists: seq<set<nat>>, envs: seq<Env>) {
    |lists| == |envs| && forall i | 0 <= i < |envs| :: envs[i].Keys <= lists[i]
  }

  lemma OnePause(s: JsStmt)
    ensures PauseLists([s]) == StmtPauses(s)
  {
    hide StmtPauses;
    assert [s][1..] == [];
  }

  /** The k-th PAUSE of the emitted code returns at least the registers of the checker's k-th PAUSE environment. */
  lemma {:induction false} PauseComplete(ctx: TaskContext, body: seq<Stmt>, env: Env, es: EmitState)
    requires Clean(ctx, body, env) && env.Keys <= es.seen
    ensures Covers(PauseLists(EmitBlock(body, es)), CheckBlock(ctx, body, env).pauses)
    decreases body, 1
  {
    hide CheckStmt;
    hide EmitStmt;
    if body != [] {
      CleanSplit(ctx, body, env);
      StmtPauseComplete(ctx, body[0], env, es);
      var h := CheckStmt(ctx, body[0], env);
      PauseAppend(EmitStmt(body[0], es), EmitBlock(body[1..], After(body[0], es)));
      if !h.done {
        StmtEnvGrowth(ctx, body[0], env);
        AfterSeen(body[0], es);
        PauseComplete(ctx, body[1..], h.env, After(body[0], es));
      } else {
        assert body[1..] == [];
      }
    }
  }

  lemma {:induction false} StmtPauseComplete(ctx: TaskContext, s: Stmt, env: Env, es: EmitState)
    requires StmtClean(ctx, s, env) && env.Keys <= es.seen
    ensures Covers(PauseLists(EmitStmt(s, es)), CheckStmt(ctx, s, env).pauses)
    decreases s, 2
  {
    hide CheckStmt;
    hide EmitInstr;
    PauseAppend(LineMark(s.line), EmitInstr(s, es));
    assert PauseLists(LineMark(s.line)) == [] by { OnePause(AtLine(s.line)); }
    InstrPauseComplete(ctx, s, env, es);
  }

  lemma {:induction false} IfPauseComplete(ctx: TaskContext, s: Stmt, env: Env, es: EmitState)
    requires s.instr.If? && StmtClean(ctx, s, env) && env.Keys <= es.seen
    ensures Covers(PauseLists(EmitInstr(s, es)), CheckStmt(ctx, s, env).pauses)
    decreases s, 0
  {
    hide PauseLists;
    hide EmitBlock;
    hide CheckBlock;
    hide CheckCond;
    hide PredToks;
    var If(c, t, e) := s.instr;
    var d0, o := CheckCond(ctx, env, c.clauses, s.line), CheckBlock(ctx, t, env);
    OnePause(EmitInstr(s, es)[0]);
    if e.Else? {
      var o2 := CheckBlock(ctx, e.body, env);
      assert |d0 + o.diags + o2.diags| == 0;
      AfterBlockSeen(t, es);
      PauseComplete(ctx, t, env, es);
      PauseComplete(ctx, e.body, env, AfterBlock(t, es));
    } else {
      assert |d0 + o.diags| == 0;
      PauseComplete(ctx, t, env, es);
    }
  }

  lemma {:induction false} InstrPauseComplete(ctx: TaskContext, s: Stmt, env: Env, es: EmitState)
    requires StmtClean(ctx, s, env) && env.Keys <= es.seen
    ensures Covers(PauseLists(EmitInstr(s, es)), CheckStmt(ctx, s, env).pauses)
    decreases s, 1
  {
    hide PauseLists;
    hide EmitBlock;
    hide CheckBlock;
    hide CheckCond;
    hide SimpleE;
    match s.instr
    case Foreach(src, v, b) =>
      var es1 := es.(seen := es.seen + {v});
      var t := ElemType(env, src, s.line);
      assert |CheckStmt(ctx, s, env).diags| >= |t.diags|;
      PauseComplete(ctx, b, env[v := t.ty.value], es1);
      OnePause(ForOf(v, src, EmitBlock(b, es1)));
    case If(_, _, _) => IfPauseComplete(ctx, s, env, es);
    case Try(retry, dst, b) =>
      var js := EmitBlock(b, InTry(dst, es));
      PauseComplete(ctx, b, env, InTry(dst, es));
      TryPauses(dst, es.tries, retry, js);
    case Parallel(calls) =>
      NoPauseInAssigns(calls, es.pars, 0);
      PauseAppend([ConstAll(es.pars, CallsE(calls))], AssignPars(calls, es.pars, 0));
      OnePause(ConstAll(es.pars, CallsE(calls)));
    case _ =>
      OnePause(EmitInstr(s, es)[0]);
  }

  lemma TryPauses(dst: nat, a: nat, retry: nat, js: seq<JsStmt>)
    ensures PauseLists([AssignOk(dst), ForCount(a, retry, [TryBlock(dst, js)])]) == PauseLists(js)
  {
    hide PauseLists;
    var t := TryBlock(dst, js);
    var f := ForCount(a, retry, [t]);
    assert [AssignOk(dst), f] == [AssignOk(dst)] + [f];
    PauseAppend([AssignOk(dst)], [f]);
    OnePause(AssignOk(dst));
    OnePause(f);
    OnePause(t);
    PauseAppend(js, [AssignOk(dst), Break]);
    assert [AssignOk(dst), Break] == [AssignOk(dst)] + [Break];
    PauseAppend([AssignOk(dst)], [Break]);
    OnePause(Break);
    assert [RethrowOthers, AssignCode(dst)] == [RethrowOthers] + [AssignCode(dst)];
    PauseAppend([RethrowOthers], [AssignCode(dst)]);
    OnePause(RethrowOthers);
    OnePause(AssignCode(dst));
  }
}
