/** Typing across a PAUSE. */
module Resume {
  import opened Common
  import opened Ir
  import opened Runtime
  import opened Semantics
  import opened Effects
  import opened Check
  import opened Typing
  import opened Task

  // ---------------------------------------------------------------- PAUSE environments agree with the global typing

  ghost predicate AllIn(envs: seq<Env>, gamma: Env) {
    forall i | 0 <= i < |envs| :: EnvIn(envs[i], gamma)
  }

  lemma {:induction false} PauseEnvsIn(ctx: TaskContext, body: seq<Stmt>, env: Env, gamma: Env)
    requires OneType(ctx, body, env, gamma) && EnvIn(env, gamma)
    ensures AllIn(CheckBlock(ctx, body, env).pauses, gamma)
    decreases body
  {
    hide CheckStmt;
    hide EnvIn;
    if body != [] {
      StmtPauseEnvsIn(ctx, body[0], env, gamma);
      hide StmtOneType;
      var h := CheckStmt(ctx, body[0], env);
      if !h.done { PauseEnvsIn(ctx, body[1..], h.env, gamma); }
    }
  }

  lemma {:induction false} StmtPauseEnvsIn(ctx: TaskContext, s: Stmt, env: Env, gamma: Env)
    requires StmtOneType(ctx, s, env, gamma) && EnvIn(env, gamma)
    ensures AllIn(CheckStmt(ctx, s, env).pauses, gamma) && EnvIn(CheckStmt(ctx, s, env).env, gamma)
    decreases s
  {
    hide OneType;
    hide CheckBlock;
    hide CheckCond;
    hide CheckFilter;
    hide CheckCall;
    hide CheckParallel;
    hide BindParallel;
    hide CheckTemplate;
    hide CheckSlots;
    hide CheckRefs;
    hide OperandType;
    hide FieldType;
    match s.instr
    case Foreach(src, v, body) =>
      var t := ElemType(env, src, s.line).ty;
      if t.Some? {
        assert EnvIn(env[v := t.value], gamma);
        PauseEnvsIn(ctx, body, env[v := t.value], gamma);
      }
    case If(_, thn, els) =>
      PauseEnvsIn(ctx, thn, env, gamma);
      if els.Else? { PauseEnvsIn(ctx, els.body, env, gamma); }
    case Try(_, _, body) => PauseEnvsIn(ctx, body, env, gamma);
    case _ =>
  }

  // ---------------------------------------------------------------- a paused run returns registers it holds

  predicate Part(a: Regs, b: Regs) {
    forall n | n in a :: n in b && a[n] == b[n]
  }

  predicate HandsOver(o: Out) {
    o.flow.Done? && o.flow.m.Paused? ==> Part(o.flow.m.regs, o.st.regs)
  }

  lemma {:induction false} BlockHandsOver(cfg: Config, body: seq<Stmt>, seen: set<nat>, st: St)
    ensures HandsOver(ExecBlock(cfg, body, seen, st))
    decreases body, 0, 0
  {
    hide ExecStmt;
    if body != [] {
      StmtHandsOver(cfg, body[0], seen, st);
      var o := ExecStmt(cfg, body[0], seen, st);
      if o.flow.Next? { BlockHandsOver(cfg, body[1..], seen + StmtDsts(body[0]), o.st); }
    }
  }

  lemma {:induction false} StmtHandsOver(cfg: Config, s: Stmt, seen: set<nat>, st0: St)
    ensures HandsOver(ExecStmt(cfg, s, seen, st0))
    decreases s, 0, 0
  {
    hide ExecBlock;
    hide ExecEach;
    hide ExecTry;
    hide EvalFrom;
    hide EvalOp;
    hide SimpleValue;
    hide CallStep;
    hide RunCalls;
    hide BindAll;
    var st := Enter(st0, s.line);
    match s.instr
    case Foreach(src, v, body) =>
      var it := Iterable(Lookup(st.regs, src));
      if it.Ok? { EachHandsOver(cfg, it.value, v, body, seen + {v}, st); }
    case If(cond, thn, els) =>
      var c := EvalPred(cfg, st.regs, st.w, None, cond);
      BlockHandsOver(cfg, thn, seen, St(st.regs, c.w));
      if els.Else? { BlockHandsOver(cfg, els.body, seen + Dsts(thn), St(st.regs, c.w)); }
    case Parallel(calls) => SettledLength(cfg, st.regs, st.w, calls);
    case Try(retry, dst, body) =>
      TryHandsOver(cfg, retry, dst, body, seen + {dst}, St(st.regs[dst := Str("OK")], st.w));
    case _ =>
  }

  lemma {:induction false} EachHandsOver(cfg: Config, xs: seq<Value>, v: nat, body: seq<Stmt>, seen: set<nat>, st: St)
    ensures HandsOver(ExecEach(cfg, xs, v, body, seen, st))
    decreases body, 1, |xs|
  {
    hide ExecBlock;
    if xs != [] {
      var st1 := St(st.regs[v := xs[0]], st.w);
      BlockHandsOver(cfg, body, seen, st1);
      var o := ExecBlock(cfg, body, seen, st1);
      if o.flow.Next? { EachHandsOver(cfg, xs[1..], v, body, seen, o.st); }
    }
  }

  lemma {:induction false} TryHandsOver(cfg: Config, left: nat, dst: nat, body: seq<Stmt>, seen: set<nat>, st: St)
    ensures HandsOver(ExecTry(cfg, left, dst, body, seen, st))
    decreases body, 1, left
  {
    hide ExecBlock;
    BlockHandsOver(cfg, body, seen, st);
    var o := ExecBlock(cfg, body, seen, st);
    if o.flow.Fail? && o.flow.e.ToolErr? && left > 0 {
      TryHandsOver(cfg, left - 1, dst, body, seen, St(o.st.regs[dst := Str(o.flow.e.code)], o.st.w));
    }
  }

  // ---------------------------------------------------------------- contexts that differ in their initial registers

  /** Whether a value fits depends on a context's fields only. */
  lemma {:induction false} FitsFields(c1: TaskContext, c2: TaskContext, v: Value, t: Type)
    requires c1.fields == c2.fields
    ensures Fits(c1, v, t) <==> Fits(c2, v, t)
    decreases v
  {
    match t
    case TObj(e) =>
      if v.Rec? {
        forall sym | sym in c1.fields && c1.fields[sym].name in v.fields
          ensures Fits(c1, v.fields[c1.fields[sym].name], c1.fields[sym].ty) <==>
                  Fits(c2, v.fields[c1.fields[sym].name], c1.fields[sym].ty)
        {
          FitsFields(c1, c2, v.fields[c1.fields[sym].name], c1.fields[sym].ty);
        }
      }
    case TList(u) =>
      if v.List? {
        forall i | 0 <= i < |v.elems|
          ensures Fits(c1, v.elems[i], u) <==> Fits(c2, v.elems[i], u)
        {
          FitsFields(c1, c2, v.elems[i], u);
        }
      }
    case _ =>
  }

  /** Type preservation carries over a PAUSE: if a typed segment pauses, its continuation starts, under the same global
      typing, with an environment that agrees with it and registers that fit. */
  lemma TypesAcrossPause(cfg: Config, ctx: TaskContext, inv: WorldInv, gamma: Env, body: seq<Stmt>, w: World)
    requires Clean(ctx, body, ctx.initial) && OneType(ctx, body, ctx.initial, gamma) && EnvIn(ctx.initial, gamma)
    requires CountsNoRecords(ctx, body) && HostTyped(cfg, ctx) && ToolsTyped(cfg, ctx, inv, Symbols(body)) && inv(w)
    requires RegsFit(ctx, gamma, InitialRegs(cfg, ctx.initial.Keys))
    requires var o := RunBody(cfg, body, ctx.initial.Keys, w); o.flow.Done? && o.flow.m.Paused?
    ensures var regs := RunBody(cfg, body, ctx.initial.Keys, w).flow.m.regs;
            var next := SeedRegisters(ctx, regs, FirstPause(ctx, body));
            EnvIn(next.initial, gamma) && RegsFit(next, gamma, InitialRegs(cfg.(initial := regs), next.initial.Keys))
  {
    hide CheckBlock;
    hide OneType;
    hide CountsNoRecords;
    hide Symbols;
    hide HostTyped;
    hide ToolsTyped;
    hide ExecBlock;
    hide Fits;
    TypesPreserved(cfg, ctx, inv, gamma, body, w);
    PauseEnvsIn(ctx, body, ctx.initial, gamma);
    BlockHandsOver(cfg, body, ctx.initial.Keys, St(InitialRegs(cfg, ctx.initial.Keys), w));
    var o := RunBody(cfg, body, ctx.initial.Keys, w);
    var regs := o.flow.m.regs;
    var next := SeedRegisters(ctx, regs, FirstPause(ctx, body));
    assert EnvIn(FirstPause(ctx, body), gamma);
    var seeded := InitialRegs(cfg.(initial := regs), next.initial.Keys);
    forall n | n in seeded && n in gamma
      ensures Fits(next, seeded[n], gamma[n])
    {
      assert seeded[n] == regs[n] == o.st.regs[n];
      FitsFields(ctx, next, regs[n], gamma[n]);
    }
  }
}
