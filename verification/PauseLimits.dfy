/** Programs and runs a PAUSE breaks. */
module PauseLimits {
  import opened Common
  import opened Decimal
  import opened Ir
  import opened Runtime
  import opened Semantics
  import opened Check
  import opened Gate
  import opened Pause
  import opened PauseReturns

  lemma One(cfg: Config, s: Stmt, seen: set<nat>, st: St)
    ensures ExecBlock(cfg, [s], seen, st) == ExecStmt(cfg, s, seen, st)
  {
    hide ExecStmt;
    assert [s][1..] == [];
  }

  lemma Then(cfg: Config, s: Stmt, rest: seq<Stmt>, seen: set<nat>, st: St)
    ensures ExecBlock(cfg, [s] + rest, seen, st) ==
            var o := ExecStmt(cfg, s, seen, st);
            if o.flow.Next? then ExecBlock(cfg, rest, seen + StmtDsts(s), o.st) else o
  {
    hide ExecStmt;
    hide StmtDsts;
    assert ([s] + rest)[1..] == rest;
  }

  // ---------------------------------------------------------------- a continuation that deletes the newest record

  /** T0 creates a record of "e"; T1 deletes the one it is given. */
  function Host(cfg: Config): Config {
    cfg.(tools := map["T0" := Tool("make", [], {Mutates}, Create("e", [], [])),
                      "T1" := Tool("drop", [ToolParam("record", true, true)], {Mutates}, Delete("e", 0))],
         maxOps := 10)
  }

  function Made(n: nat): Value {
    Rec(map["id" := IdOf("e", n)])
  }

  function MakeCall(dst: nat): Stmt {
    At(0, DoCall(CallI("T0", [], Some(dst), 0)))
  }

  function DropCall(src: nat): Stmt {
    At(0, DoCall(CallI("T1", [OReg(src)], None, 0)))
  }

  /** A world whose only rows are `rows`. */
  predicate Holds(w: World, rows: seq<Value>, ops: nat) {
    Rows(w.store, "e") == rows && w.ops == ops && w.injections == []
  }

  lemma MakeStep(cfg: Config, w: World, rows: seq<Value>, ops: nat)
    requires cfg.tools == Host(cfg).tools && cfg.maxOps == 10 && Holds(w, rows, ops) && ops < 10
    ensures var n := Counter(w.store, w.counters, "e") + 1;
            var s := RtCall(cfg, w, "T0", []);
            s.r == Ok(Made(n)) && Holds(s.w, rows + [Made(n)], ops + 1) && s.w.counters == w.counters["e" := n]
  {
    hide MaxSuffix;
    var n := Counter(w.store, w.counters, "e") + 1;
    hide Counter;
    assert Created(cfg, Create("e", [], []), n, []) == Made(n);
    hide Created;
    assert Narrowed([], [], 0) == Ok([]);
    hide Narrowed;
  }

  lemma Making(cfg: Config, dst: nat, seen: set<nat>, st: St, rows: seq<Value>, ops: nat)
    requires cfg.tools == Host(cfg).tools && cfg.maxOps == 10 && Holds(st.w, rows, ops) && ops < 10
    ensures var n := Counter(st.w.store, st.w.counters, "e") + 1;
            var o := ExecStmt(cfg, MakeCall(dst), seen, st);
            && o.flow == Next && o.st.regs == st.regs[dst := Made(n)] && Holds(o.st.w, rows + [Made(n)], ops + 1)
            && o.st.w.counters == st.w.counters["e" := n]
  {
    hide RtCall;
    hide Counter;
    hide Holds;
    MakeStep(cfg, st.w, rows, ops);
    assert EvalOps(cfg, st.regs, st.w, []) == StepAll(st.w, Ok([]));
  }

  lemma OneOperand(cfg: Config, regs: Regs, w: World, src: nat)
    ensures EvalOps(cfg, regs, w, [OReg(src)]) == StepAll(w, Ok([Lookup(regs, src)]))
  {
    assert [OReg(src)][1..] == [];
    assert EvalOps(cfg, regs, w, []) == StepAll(w, Ok([]));
    assert [Lookup(regs, src)] + [] == [Lookup(regs, src)];
  }

  lemma NarrowedMade(n: nat)
    ensures Narrowed([ToolParam("record", true, true)], [Made(n)], 0) == Ok([IdOf("e", n)])
  {
    var params := [ToolParam("record", true, true)];
    assert Narrowed(params, [Made(n)], 1) == Ok([]);
    assert [IdOf("e", n)] + [] == [IdOf("e", n)];
  }

  lemma Dropping(cfg: Config, src: nat, seen: set<nat>, st: St, n: nat, ops: nat)
    requires cfg.tools == Host(cfg).tools && cfg.maxOps == 10 && Holds(st.w, [Made(n)], ops) && ops < 10
    requires src in st.regs && st.regs[src] == Made(n)
    ensures var o := ExecStmt(cfg, DropCall(src), seen, st);
            o.flow == Next && o.st.regs == st.regs && Holds(o.st.w, [], ops + 1) && o.st.w.counters == st.w.counters
  {
    OneOperand(cfg, st.regs, st.w, src);
    NarrowedMade(n);
    hide Narrowed;
    hide EvalOps;
    assert FindIndex([Made(n)], IdOf("e", n)) == 0;
    assert [Made(n)][..0] + [Made(n)][1..] == [];
  }

  /** The first segment: one record made. */
  lemma MadeOne(cfg: Config, store: Store)
    requires cfg.tools == Host(cfg).tools && cfg.maxOps == 10 && "e" !in store.entities
    ensures var o := ExecBlock(cfg, [MakeCall(0)], {}, St(map[], Fresh(store)));
            && o.flow == Next && o.st.regs == map[0 := Made(1)] && Holds(o.st.w, [Made(1)], 1)
            && o.st.w.counters == map["e" := 1]
  {
    hide ExecBlock;
    hide ExecStmt;
    var st0 := St(map[], Fresh(store));
    MaxOfNone();
    Making(cfg, 0, {}, st0, [], 0);
    assert [] + [Made(1)] == [Made(1)];
    One(cfg, MakeCall(0), {}, st0);
    var none: Regs := map[];
    assert none[0 := Made(1)] == map[0 := Made(1)];
  }

  /** Its PAUSE. */
  lemma MadeOnePauses(cfg: Config, store: Store)
    requires cfg.tools == Host(cfg).tools && cfg.maxOps == 10 && "e" !in store.entities
    ensures var seg1 := RunBody(cfg, [MakeCall(0)] + [At(0, Instr.Pause)], {}, Fresh(store));
            && seg1.flow == Done(Paused(map[0 := Made(1)]))
            && seg1.st.w.store == ExecBlock(cfg, [MakeCall(0)], {}, St(map[], Fresh(store))).st.w.store
  {
    hide ExecBlock;
    hide InitialRegs;
    hide Holds;
    SeedNone(cfg);
    MadeOne(cfg, store);
    TopLevelPauseReturnsAll(cfg, [MakeCall(0)], 0, {}, St(map[], Fresh(store)));
    var regs: Regs := map[0 := Made(1)];
    assert Bound(regs) == regs;
  }

  /** The joined run makes record 2. */
  lemma JoinedMakesTwo(cfg: Config, store: Store)
    requires cfg.tools == Host(cfg).tools && cfg.maxOps == 10 && "e" !in store.entities
    ensures Rows(RunBody(cfg, [MakeCall(0)] + [DropCall(0), MakeCall(1)], {}, Fresh(store)).st.w.store, "e") ==
            [Made(2)]
  {
    hide ExecBlock;
    hide InitialRegs;
    SeedNone(cfg);
    MadeOne(cfg, store);
    var st0 := St(map[], Fresh(store));
    ExecAppend(cfg, [MakeCall(0)], [DropCall(0), MakeCall(1)], {}, st0);
    Continued(cfg, {} + Dsts([MakeCall(0)]), ExecBlock(cfg, [MakeCall(0)], {}, st0).st, 1);
  }

  /** CALL T0 -> r0; PAUSE, continued by CALL T1 r0; CALL T0 -> r1. The segment deletes nothing, nothing is injected and
      the budget holds, yet the split run ends with a different record: the continuation's id counter starts from the
      rows left after its own delete, and issues the deleted id again. */
  lemma DeleteBreaksSplit(cfg0: Config, store: Store)
    requires "e" !in store.entities
    ensures var cfg := Host(cfg0);
            var a, b := [MakeCall(0)], [DropCall(0), MakeCall(1)];
            var seg1 := RunBody(cfg, a + [At(0, Instr.Pause)], {}, Fresh(store));
            && seg1.flow == Done(Paused(map[0 := Made(1)]))
            && var regs: Regs := map[0 := Made(1)];
               var seg2 := RunBody(cfg.(initial := regs), b, {0}, Fresh(seg1.st.w.store));
               var whole := RunBody(cfg, a + b, {}, Fresh(store));
               && Rows(whole.st.w.store, "e") == [Made(2)] && Rows(seg2.st.w.store, "e") == [Made(1)]
               && Made(1) != Made(2)
  {
    hide ExecBlock;
    hide InitialRegs;
    var cfg := Host(cfg0);
    MadeOne(cfg, store);
    MadeOnePauses(cfg, store);
    JoinedMakesTwo(cfg, store);
    var cfg2 := cfg.(initial := map[0 := Made(1)]);
    SeedOne(cfg2, Made(1));
    var o := ExecBlock(cfg, [MakeCall(0)], {}, St(map[], Fresh(store)));
    Continued(cfg2, {0}, St(map[0 := Made(1)], Fresh(o.st.w.store)), 0);
    Differ();
  }

  lemma SeedNone(cfg: Config)
    ensures InitialRegs(cfg, {}) == map[]
  {
  }

  lemma SeedOne(cfg: Config, v: Value)
    requires 0 in cfg.initial && cfg.initial[0] == v
    ensures InitialRegs(cfg, {0}) == map[0 := v]
  {
  }

  lemma MaxOfNone()
    ensures MaxSuffix([]) == 0
  {
  }

  lemma Differ()
    ensures Made(1) != Made(2)
  {
    assert Show(1) == "1" && Show(2) == "2";
    var one, two := "e" + "_" + Show(1), "e" + "_" + Show(2);
    assert one[2] == '1' && two[2] == '2';
    assert Made(1).fields["id"] == Str(one) && Made(2).fields["id"] == Str(two);
  }

  /** The continuation from one record: with the counter at 1 the new id is 2, with none it is 1 again. */
  lemma Continued(cfg: Config, seen: set<nat>, st: St, counter: nat)
    requires cfg.tools == Host(cfg).tools && cfg.maxOps == 10 && Holds(st.w, [Made(1)], counter) && counter <= 1
    requires st.regs == map[0 := Made(1)] && st.w.counters == if counter == 1 then map["e" := 1] else map[]
    ensures Rows(ExecBlock(cfg, [DropCall(0), MakeCall(1)], seen, st).st.w.store, "e") == [Made(counter + 1)]
    ensures ExecBlock(cfg, [DropCall(0), MakeCall(1)], seen, st).flow == Next
  {
    hide ExecBlock;
    hide ExecStmt;
    Dropping(cfg, 0, seen, st, 1, counter);
    assert [DropCall(0), MakeCall(1)] == [DropCall(0)] + [MakeCall(1)];
    Then(cfg, DropCall(0), [MakeCall(1)], seen, st);
    var st1 := ExecStmt(cfg, DropCall(0), seen, st).st;
    var seen1 := seen + StmtDsts(DropCall(0));
    One(cfg, MakeCall(1), seen1, st1);
    MaxOfNone();
    Making(cfg, 1, seen1, st1, [], counter + 1);
    assert [] + [Made(counter + 1)] == [Made(counter + 1)];
  }

  // ---------------------------------------------------------------- a register the checker does not hold bound

  function EmptyTest(n: nat, neg: bool): Pred {
    FlatPred([Clause(neg, LOp(OReg(n)), EMPTY, RNone)], [])
  }

  lemma Testing(cfg: Config, regs: Regs, w: World, n: nat, neg: bool)
    requires w.ops < cfg.maxOps
    ensures EvalPred(cfg, regs, w, None, EmptyTest(n, neg)) == StepBool(Tick(w), Ok(IsEmpty(Lookup(regs, n)) != neg))
  {
  }

  /** IF EMPTY r0 [LET r0 -> r1]. */
  function MaybeBind(): Stmt {
    At(0, If(EmptyTest(0, false), [At(0, Let(OReg(0), 1))], NoElse))
  }

  /** FOREACH r0 -> r2 [LET r0 -> r1]; RETURN r1. */
  function LoopThenReturn(): seq<Stmt> {
    [At(0, Foreach(0, 2, [At(0, Let(OReg(0), 1))])), At(0, Return(OReg(1)))]
  }

  lemma MaybeBindRuns(cfg: Config, seen: set<nat>, w: World)
    requires w.ops < cfg.maxOps
    ensures ExecStmt(cfg, MaybeBind(), seen, St(map[0 := List([])], w)) ==
            Out(St(map[0 := List([]), 1 := List([])], Tick(w)), Next)
  {
    var regs: Regs := map[0 := List([])];
    var inner := At(0, Let(OReg(0), 1));
    Testing(cfg, regs, w, 0, false);
    hide EvalFrom;
    One(cfg, inner, seen, St(regs, Tick(w)));
    assert ExecStmt(cfg, inner, seen, St(regs, Tick(w))) == Out(St(regs[1 := List([])], Tick(w)), Next);
    hide ExecBlock;
    assert regs[1 := List([])] == map[0 := List([]), 1 := List([])];
  }

  lemma LoopReturns(cfg: Config, seen: set<nat>, st: St)
    requires 0 in st.regs && st.regs[0] == List([])
    ensures ExecBlock(cfg, LoopThenReturn(), seen, st) == Out(st, Done(Returned(Lookup(st.regs, 1))))
  {
    hide ExecBlock;
    var loop := At(0, Foreach(0, 2, [At(0, Let(OReg(0), 1))]));
    var ret := At(0, Return(OReg(1)));
    assert LoopThenReturn() == [loop] + [ret];
    Then(cfg, loop, [ret], seen, st);
    assert ExecStmt(cfg, loop, seen, st) == Out(st, Next);
    One(cfg, ret, seen + StmtDsts(loop), st);
  }

  /** The pause environment drops r1, which an IF without ELSE bound. The continuation checks clean, as its loop binds
      r1, but over an empty list it does not: the split run returns undefined where the joined run returns the list. */
  lemma DroppedRegisterBreaksSplit(cfg0: Config, e: Entity, store: Store)
    requires cfg0.maxOps > 2
    ensures var cfg := cfg0.(initial := map[0 := List([])]);
            var ctx := TaskContext(map[], map[], map[], map[0 := TList(TObj(e))]);
            var a, b := [MaybeBind()], LoopThenReturn();
            var seg1 := RunBody(cfg, a + [At(0, Instr.Pause)], {0}, Fresh(store));
            && CheckBlock(ctx, a, ctx.initial) == Fall(ctx.initial, []) && Clean(ctx, b, ctx.initial)
            && seg1.flow == Done(Paused(map[0 := List([]), 1 := List([])]))
            && RunBody(cfg, a + b, {0}, Fresh(store)).flow == Done(Returned(List([])))
            && RunBody(cfg.(initial := seg1.flow.m.regs), b, {0}, Fresh(seg1.st.w.store)).flow == Done(Returned(Undef))
  {
    hide CheckBlock;
    hide CheckStmt;
    hide ExecBlock;
    hide ExecStmt;
    hide StmtDsts;
    hide InitialRegs;
    var cfg := cfg0.(initial := map[0 := List([])]);
    var ctx := TaskContext(map[], map[], map[], map[0 := TList(TObj(e))]);
    MaybeBindChecks(ctx, e);
    LoopChecks(ctx, e);
    var a, b := [MaybeBind()], LoopThenReturn();
    var st0 := St(map[0 := List([])], Fresh(store));
    SeedOne(cfg, List([]));
    MaybeBindRuns(cfg, {0}, Fresh(store));
    One(cfg, MaybeBind(), {0}, st0);
    TopLevelPauseReturnsAll(cfg, a, 0, {0}, st0);
    var both: Regs := map[0 := List([]), 1 := List([])];
    assert Bound(both) == both;
    assert a + b == [MaybeBind()] + b;
    Then(cfg, MaybeBind(), b, {0}, st0);
    LoopReturns(cfg, {0} + StmtDsts(MaybeBind()), St(both, Tick(Fresh(store))));
    var cfg2 := cfg.(initial := both);
    SeedOne(cfg2, List([]));
    LoopReturns(cfg2, {0}, St(map[0 := List([])], Fresh(store)));
  }

  lemma MaybeBindChecks(ctx: TaskContext, e: Entity)
    requires ctx.initial == map[0 := TList(TObj(e))]
    ensures CheckBlock(ctx, [MaybeBind()], ctx.initial) == Fall(ctx.initial, [])
  {
    var env := ctx.initial;
    var inner := [At(0, Let(OReg(0), 1))];
    assert inner[1..] == [] && [MaybeBind()][1..] == [];
    assert CheckBlock(ctx, inner, env) == Fall(env[1 := env[0]], []);
    assert EmptyTest(0, false).clauses[1..] == [];
    assert CheckCond(ctx, env, EmptyTest(0, false).clauses, 0) == [];
    hide CheckCond;
    assert CheckStmt(ctx, MaybeBind(), env) == Fall(env, []) by { hide CheckBlock; }
    hide CheckStmt;
    assert CheckBlock(ctx, [], env) == Fall(env, []);
  }

  lemma LoopChecks(ctx: TaskContext, e: Entity)
    requires ctx.initial == map[0 := TList(TObj(e))]
    ensures Clean(ctx, LoopThenReturn(), ctx.initial)
  {
    var env := ctx.initial;
    var inner := [At(0, Let(OReg(0), 1))];
    var b := LoopThenReturn();
    var env1 := env[2 := TObj(e)][1 := env[0]];
    assert inner[1..] == [] && b[1..] == [b[1]] && [b[1]][1..] == [];
    assert CheckBlock(ctx, inner, env[2 := TObj(e)]) == Fall(env1, []);
    assert CheckStmt(ctx, b[0], env) == Fall(env1, []) by { hide CheckBlock; }
    assert CheckStmt(ctx, b[1], env1) == CheckOut(env1, [], true, []);
    hide CheckStmt;
    assert CheckBlock(ctx, [b[1]], env1).diags == [];
  }

  // ---------------------------------------------------------------- PAUSE inside a loop

  /** IF NOT EMPTY r2 [PAUSE]; LET r0 -> r2; LET 7 -> r3. */
  function LoopBody(): seq<Stmt> {
    [At(0, If(EmptyTest(2, true), [At(0, Instr.Pause)], NoElse)), At(0, Let(OReg(0), 2)), At(0, Let(OInt(7), 3))]
  }

  lemma FirstTurn(cfg: Config, seen: set<nat>, regs: Regs, w: World)
    requires w.ops < cfg.maxOps && 0 in regs && 2 in regs && regs[2] == List([])
    ensures ExecBlock(cfg, LoopBody(), seen, St(regs, w)) == Out(St(regs[2 := regs[0]][3 := Num(7)], Tick(w)), Next)
  {
    hide ExecBlock;
    var b := LoopBody();
    Testing(cfg, regs, w, 2, true);
    hide EvalFrom;
    assert b == [b[0]] + [b[1], b[2]] && [b[1], b[2]] == [b[1]] + [b[2]];
    Then(cfg, b[0], [b[1], b[2]], seen, St(regs, w));
    assert ExecStmt(cfg, b[0], seen, St(regs, w)) == Out(St(regs, Tick(w)), Next);
    var seen1 := seen + StmtDsts(b[0]);
    Then(cfg, b[1], [b[2]], seen1, St(regs, Tick(w)));
    One(cfg, b[2], seen1 + StmtDsts(b[1]), St(regs[2 := regs[0]], Tick(w)));
  }

  lemma SecondTurn(cfg: Config, seen: set<nat>, regs: Regs, w: World)
    requires w.ops < cfg.maxOps && 2 in regs && regs[2].List? && regs[2].elems != []
    ensures ExecBlock(cfg, LoopBody(), seen, St(regs, w)) == Out(St(regs, Tick(w)), Done(Paused(PauseRegs(regs, seen))))
  {
    hide ExecBlock;
    var b := LoopBody();
    Testing(cfg, regs, w, 2, true);
    hide EvalFrom;
    assert b == [b[0]] + [b[1], b[2]];
    Then(cfg, b[0], [b[1], b[2]], seen, St(regs, w));
    One(cfg, At(0, Instr.Pause), seen, St(regs, Tick(w)));
    assert ExecStmt(cfg, b[0], seen, St(regs, w)) == Out(St(regs, Tick(w)), Done(Paused(PauseRegs(regs, seen))));
  }

  /** FOREACH r0 -> r1 [the body]. */
  function LoopProgram(): seq<Stmt> {
    [At(0, Foreach(0, 1, LoopBody()))]
  }

  /** TRY RETRY 1 -> r4 [the body; SELECT r0 [1] -> r5]. */
  function RetryProgram(): seq<Stmt> {
    [At(0, Try(1, 4, RetryBody()))]
  }

  function RetryBody(): seq<Stmt> {
    LoopBody() + [At(0, Select(0, OInt(1), 5))]
  }

  /** Both programs go on from two lists of numbers. */
  function ListsContext(): TaskContext {
    TaskContext(map[], map[], map[], map[0 := TList(TInt), 2 := TList(TInt)])
  }

  lemma LoopBodyChecks(ctx: TaskContext, env: Env)
    requires 0 in env && 2 in env && env[0] == TList(TInt) && env[2] == TList(TInt)
    ensures CheckBlock(ctx, LoopBody(), env) == CheckOut(env[3 := TInt], [], false, [env])
  {
    var b := LoopBody();
    assert CheckBlock(ctx, [At(0, Instr.Pause)], env) == CheckOut(env, [], true, [env]) by {
      assert [At(0, Instr.Pause)][1..] == [];
    }
    assert CheckCond(ctx, env, EmptyTest(2, true).clauses, 0) == [] by { assert EmptyTest(2, true).clauses[1..] == []; }
    assert CheckStmt(ctx, b[0], env) == CheckOut(env, [], false, [env]) by {
      hide CheckBlock;
      hide CheckCond;
    }
    assert env[2 := env[0]] == env;
    assert CheckStmt(ctx, b[1], env) == Fall(env, []);
    assert CheckStmt(ctx, b[2], env) == Fall(env[3 := TInt], []);
    assert b[1..] == [b[1], b[2]] && b[1..][1..] == [b[2]] && [b[2]][1..] == [];
    hide CheckStmt;
    assert CheckBlock(ctx, [], env[3 := TInt]) == Fall(env[3 := TInt], []);
    assert CheckBlock(ctx, [b[2]], env) == Fall(env[3 := TInt], []);
    assert CheckBlock(ctx, b[1..], env) == Fall(env[3 := TInt], []);
  }

  /** A clean statement is a clean program. */
  lemma OneChecks(ctx: TaskContext, s: Stmt, env: Env)
    requires CheckStmt(ctx, s, env).diags == [] && !CheckStmt(ctx, s, env).done
    ensures Clean(ctx, [s], env)
  {
    hide CheckStmt;
    var h := CheckStmt(ctx, s, env);
    assert [s][0] == s && [s][1..] == [];
    assert CheckBlock(ctx, [], h.env).diags == [];
  }

  lemma LoopProgramClean()
    ensures Clean(ListsContext(), LoopProgram(), ListsContext().initial)
  {
    var ctx := ListsContext();
    LoopBodyChecks(ctx, ctx.initial[1 := TInt]);
    hide LoopBody;
    hide CheckBlock;
    OneChecks(ctx, LoopProgram()[0], ctx.initial) by { EachChecks(ctx, 0, 1, LoopBody(), ctx.initial); }
  }

  lemma RetryProgramClean()
    ensures Clean(ListsContext(), RetryProgram(), ListsContext().initial)
  {
    var ctx := ListsContext();
    var sel := At(0, Select(0, OInt(1), 5));
    LoopBodyChecks(ctx, ctx.initial);
    var env := ctx.initial[3 := TInt];
    assert CheckStmt(ctx, sel, env) == Fall(env[5 := TInt], []);
    OneChecks(ctx, sel, env);
    hide CheckStmt;
    ChecksJoin(ctx, LoopBody(), [sel], ctx.initial);
    OneChecks(ctx, RetryProgram()[0], ctx.initial) by { TryChecks(ctx, 1, 4, RetryBody(), ctx.initial); }
  }

  lemma EachChecks(ctx: TaskContext, src: nat, v: nat, body: seq<Stmt>, env: Env)
    requires src in env && env[src].TList?
    ensures var c := CheckStmt(ctx, At(0, Foreach(src, v, body)), env);
            c.diags == CheckBlock(ctx, body, env[v := env[src].elem]).diags && !c.done
  {
    hide CheckBlock;
  }

  lemma TryChecks(ctx: TaskContext, retry: nat, dst: nat, body: seq<Stmt>, env: Env)
    ensures var c := CheckStmt(ctx, At(0, Try(retry, dst, body)), env);
            c.diags == CheckBlock(ctx, body, env).diags && !c.done
  {
    hide CheckBlock;
  }

  /** Two clean blocks, the second checked where the first leaves off, are clean joined. */
  lemma {:induction false} ChecksJoin(ctx: TaskContext, a: seq<Stmt>, b: seq<Stmt>, env: Env)
    requires CheckBlock(ctx, a, env).diags == [] && !CheckBlock(ctx, a, env).done
    requires CheckBlock(ctx, b, CheckBlock(ctx, a, env).env).diags == []
    ensures CheckBlock(ctx, a + b, env).diags == []
    decreases a
  {
    hide CheckStmt;
    if a == [] {
      assert a + b == b;
    } else {
      var h := CheckStmt(ctx, a[0], env);
      assert (a + b)[1..] == a[1..] + b;
      if !h.done { ChecksJoin(ctx, a[1..], b, h.env); }
    }
  }

  /** Registers r0 and r2 as the run starts. */
  function ListsRegs(xs: seq<Value>): Regs {
    map[0 := List(xs), 2 := List([])]
  }

  lemma SeedLists(cfg: Config, xs: seq<Value>)
    requires cfg.initial == ListsRegs(xs)
    ensures InitialRegs(cfg, {0, 2}) == ListsRegs(xs)
  {
  }

  lemma BodyNotFull(seen: set<nat>, may: set<nat>)
    requires 3 in may && 3 !in seen
    ensures !BlockFull(LoopBody(), seen, may) && !BlockFull(RetryBody(), seen, may)
  {
    var b := LoopBody();
    var p := [At(0, Instr.Pause)];
    assert !BlockFull(p, seen, may);
    assert !StmtFull(b[0], seen, may);
    assert RetryBody()[0] == b[0];
  }

  /** A clean program whose run drops a register: in the second turn of the loop r3 is bound, but the PAUSE does not
      return it, as the emitted list holds the registers assigned above it in the text, and r3 is assigned below. */
  lemma LoopPauseDropsRegister(cfg: Config, x: int, y: int, w: World)
    requires w.ops + 1 < cfg.maxOps && cfg.initial == ListsRegs([Num(x), Num(y)])
    ensures Clean(ListsContext(), LoopProgram(), ListsContext().initial) && !BlockFull(LoopProgram(), {0, 2}, {0, 2})
    ensures var o := RunBody(cfg, LoopProgram(), {0, 2}, w);
            && o.flow.Done? && o.flow.m.Paused?
            && 3 in Bound(o.st.regs) && 3 !in o.flow.m.regs
  {
    hide ExecBlock;
    hide ExecEach;
    hide InitialRegs;
    LoopProgramClean();
    LoopNotFull();
    hide BlockFull;
    hide CheckBlock;
    var xs := [Num(x), Num(y)];
    var regs := ListsRegs(xs);
    SeedLists(cfg, xs);
    var seen := {0, 2} + {1};
    var loop := LoopProgram()[0];
    One(cfg, loop, {0, 2}, St(regs, w));
    assert Lookup(regs, 0) == List(xs);
    assert ExecStmt(cfg, loop, {0, 2}, St(regs, w)) == ExecEach(cfg, xs, 1, LoopBody(), seen, St(regs, w));
    TwoTurns(cfg, seen, regs, xs[0], xs[1], w);
    var last := regs[1 := xs[0]][2 := regs[0]][3 := Num(7)][1 := xs[1]];
    assert 3 in last && last[3] == Num(7) && 3 !in seen;
  }

  lemma LoopNotFull()
    ensures !BlockFull(LoopProgram(), {0, 2}, {0, 2})
  {
    var b := LoopBody();
    assert StmtDsts(b[2]) == {3} && Dsts(b) == StmtDsts(b[0]) + Dsts(b[1..]) && b[1..][0] == b[1] &&
           b[1..][1..] == [b[2]];
    assert Dsts([b[2]]) == {3} + Dsts([]);
    assert 3 in Dsts(b);
    BodyNotFull({0, 2} + {1}, {0, 2} + {1} + Dsts(b));
    hide LoopBody;
    hide Dsts;
  }

  lemma TwoTurns(cfg: Config, seen: set<nat>, regs: Regs, x: Value, y: Value, w: World)
    requires w.ops + 1 < cfg.maxOps && 0 in regs && 2 in regs && regs[0] == List([x, y]) && regs[2] == List([])
    ensures var last := regs[1 := x][2 := regs[0]][3 := Num(7)][1 := y];
            ExecEach(cfg, [x, y], 1, LoopBody(), seen, St(regs, w)) ==
                Out(St(last, Tick(Tick(w))), Done(Paused(PauseRegs(last, seen))))
  {
    hide ExecBlock;
    var r1 := regs[1 := x];
    FirstTurn(cfg, seen, r1, w);
    var r2 := r1[2 := r1[0]][3 := Num(7)];
    SecondTurn(cfg, seen, r2[1 := y], Tick(w));
    assert [x, y][1..] == [y];
    var o := Out(St(r2[1 := y], Tick(Tick(w))), Done(Paused(PauseRegs(r2[1 := y], seen))));
    assert ExecEach(cfg, [y], 1, LoopBody(), seen, St(r2, Tick(w))) == o;
  }

  lemma RetryNotFull()
    ensures !BlockFull(RetryProgram(), {0, 2}, {0, 2})
  {
    var b := RetryBody();
    assert StmtDsts(b[2]) == {3} && b[1..][0] == b[1] && b[1..][1..][0] == b[2];
    assert Dsts(b) == StmtDsts(b[0]) + Dsts(b[1..]) && Dsts(b[1..]) == StmtDsts(b[1]) + Dsts(b[1..][1..]);
    assert 3 in Dsts(b);
    BodyNotFull({0, 2} + {4}, {0, 2} + {4} + Dsts(b));
    hide LoopBody;
    hide RetryBody;
    hide Dsts;
  }

  /** The first attempt binds r3 and fails at its SELECT. */
  lemma FirstAttempt(cfg: Config, seen: set<nat>, regs: Regs, x: Value, w: World)
    requires w.ops + 1 < cfg.maxOps && 0 in regs && 2 in regs && regs[0] == List([x]) && regs[2] == List([])
    ensures ExecBlock(cfg, RetryBody(), seen, St(regs, w)) ==
            Out(St(regs[2 := regs[0]][3 := Num(7)], Tick(Tick(w))), Fail(ToolErr("INDEX_OUT_OF_RANGE")))
  {
    hide ExecBlock;
    var sel := At(0, Select(0, OInt(1), 5));
    FirstTurn(cfg, seen, regs, w);
    ExecAppend(cfg, LoopBody(), [sel], seen, St(regs, w));
    SelectFails(cfg, seen + Dsts(LoopBody()), regs[2 := regs[0]][3 := Num(7)], x, Tick(w));
  }

  lemma SelectFails(cfg: Config, seen: set<nat>, regs: Regs, x: Value, w: World)
    requires w.ops < cfg.maxOps && 0 in regs && regs[0] == List([x])
    ensures ExecBlock(cfg, [At(0, Select(0, OInt(1), 5))], seen, St(regs, w)) ==
            Out(St(regs, Tick(w)), Fail(ToolErr("INDEX_OUT_OF_RANGE")))
  {
    hide ExecBlock;
    One(cfg, At(0, Select(0, OInt(1), 5)), seen, St(regs, w));
    assert Lookup(regs, 0) == List([x]);
  }

  /** The second finds r2 filled and pauses. */
  lemma SecondAttempt(cfg: Config, seen: set<nat>, regs: Regs, w: World)
    requires w.ops < cfg.maxOps && 2 in regs && regs[2].List? && regs[2].elems != []
    ensures ExecBlock(cfg, RetryBody(), seen, St(regs, w)) ==
            Out(St(regs, Tick(w)), Done(Paused(PauseRegs(regs, seen))))
  {
    hide ExecBlock;
    SecondTurn(cfg, seen, regs, w);
    ExecAppend(cfg, LoopBody(), [At(0, Select(0, OInt(1), 5))], seen, St(regs, w));
  }

  /** A retry drops registers as a loop does: the second attempt pauses above the assignment the first one made. */
  lemma RetryPauseDropsRegister(cfg: Config, x: int, w: World)
    requires w.ops + 2 < cfg.maxOps && cfg.initial == ListsRegs([Num(x)])
    ensures Clean(ListsContext(), RetryProgram(), ListsContext().initial) && !BlockFull(RetryProgram(), {0, 2}, {0, 2})
    ensures var o := RunBody(cfg, RetryProgram(), {0, 2}, w);
            && o.flow.Done? && o.flow.m.Paused?
            && 3 in Bound(o.st.regs) && 3 !in o.flow.m.regs
  {
    hide ExecBlock;
    hide InitialRegs;
    RetryProgramClean();
    RetryNotFull();
    hide BlockFull;
    hide CheckBlock;
    var regs := ListsRegs([Num(x)]);
    SeedLists(cfg, [Num(x)]);
    var seen := {0, 2} + {4};
    var stmt := RetryProgram()[0];
    var regs1: Regs := regs[4 := Str("OK")];
    FirstAttempt(cfg, seen, regs1, Num(x), w);
    var regs2: Regs := regs1[2 := regs1[0]][3 := Num(7)][4 := Str("INDEX_OUT_OF_RANGE")];
    SecondAttempt(cfg, seen, regs2, Tick(Tick(w)));
    hide RetryBody;
    One(cfg, stmt, {0, 2}, St(regs, w));
    assert ExecStmt(cfg, stmt, {0, 2}, St(regs, w)) == ExecTry(cfg, 1, 4, RetryBody(), seen, St(regs1, w));
    assert ExecTry(cfg, 1, 4, RetryBody(), seen, St(regs1, w)) ==
           ExecTry(cfg, 0, 4, RetryBody(), seen, St(regs2, Tick(Tick(w))));
    assert 3 in regs2 && regs2[3] == Num(7) && 3 !in seen;
  }

  // ---------------------------------------------------------------- the textual condition is not necessary

  /** FOREACH r0 -> r1 [IF EMPTY r0 [PAUSE]; LET 7 -> r3]. */
  function NeverPauses(): seq<Stmt> {
    [At(0, Foreach(0, 1, GuardedPause()))]
  }

  function GuardedPause(): seq<Stmt> {
    [At(0, If(EmptyTest(0, false), [At(0, Instr.Pause)], NoElse)), At(0, Let(OInt(7), 3))]
  }

  lemma GuardFails(cfg: Config, regs: Regs, w: World)
    requires !IsEmpty(Lookup(regs, 0))
    ensures var c := EvalPred(cfg, regs, w, None, EmptyTest(0, false)); c.r != Ok(true)
  {
  }

  lemma GuardedTurn(cfg: Config, seen: set<nat>, st: St)
    requires 0 in st.regs && !IsEmpty(st.regs[0])
    ensures var o := ExecBlock(cfg, GuardedPause(), seen, st); !o.flow.Done? && Lookup(o.st.regs, 0) == st.regs[0]
  {
    hide ExecBlock;
    var b := GuardedPause();
    GuardFails(cfg, st.regs, st.w);
    hide EvalFrom;
    assert b == [b[0]] + [b[1]];
    Then(cfg, b[0], [b[1]], seen, st);
    var o := ExecStmt(cfg, b[0], seen, st);
    One(cfg, b[1], seen + StmtDsts(b[0]), o.st);
  }

  lemma {:induction false} GuardedTurns(cfg: Config, xs: seq<Value>, seen: set<nat>, st: St)
    requires 0 in st.regs && !IsEmpty(st.regs[0])
    ensures !ExecEach(cfg, xs, 1, GuardedPause(), seen, st).flow.Done?
    decreases xs
  {
    hide ExecBlock;
    hide IsEmpty;
    if xs != [] {
      var st1 := St(st.regs[1 := xs[0]], st.w);
      GuardedTurn(cfg, seen, st1);
      var o := ExecBlock(cfg, GuardedPause(), seen, st1);
      assert 0 in o.st.regs by { NotBound(o.st.regs); }
      if o.flow.Next? { GuardedTurns(cfg, xs[1..], seen, o.st); }
    }
  }

  lemma NotBound(regs: Regs)
    ensures 0 !in regs ==> IsEmpty(Lookup(regs, 0))
  {
  }

  /** A program that does not meet the condition and yet drops nothing: its guard contradicts its loop, so it never
      pauses. */
  lemma ContradictoryGuard(cfg: Config, xs: seq<Value>, w: World)
    requires cfg.initial == ListsRegs(xs)
    ensures !BlockFull(NeverPauses(), {0}, {0}) && ReturnsAll(RunBody(cfg, NeverPauses(), {0}, w))
  {
    hide ExecBlock;
    hide ExecEach;
    hide Bound;
    hide InitialRegs;
    NeverPausesNotFull();
    hide BlockFull;
    SeedOne(cfg, List(xs));
    var regs: Regs := map[0 := List(xs)];
    var loop := NeverPauses()[0];
    One(cfg, loop, {0}, St(regs, w));
    assert Lookup(regs, 0) == List(xs);
    if xs != [] { GuardedTurns(cfg, xs, {0} + {1}, St(regs, w)); }
    NoTurns(cfg, {0} + {1}, St(regs, w));
    assert ExecStmt(cfg, loop, {0}, St(regs, w)) == ExecEach(cfg, xs, 1, GuardedPause(), {0} + {1}, St(regs, w));
  }

  lemma NoTurns(cfg: Config, seen: set<nat>, st: St)
    ensures ExecEach(cfg, [], 1, GuardedPause(), seen, st) == Out(st, Next)
  {
  }

  lemma NeverPausesNotFull()
    ensures !BlockFull(NeverPauses(), {0}, {0})
  {
    var b := GuardedPause();
    var p := [At(0, Instr.Pause)];
    assert b[1..] == [b[1]] && StmtDsts(b[1]) == {3};
    assert Dsts(b) == StmtDsts(b[0]) + Dsts([b[1]]) && Dsts([b[1]]) == {3} + Dsts([]);
    var seen, may := {0} + {1}, {0} + {1} + Dsts(b);
    assert 3 in may && 3 !in seen;
    assert !BlockFull(p, seen, may);
    assert !StmtFull(b[0], seen, may);
    assert !BlockFull(b, seen, may);
    hide GuardedPause;
    hide Dsts;
  }
}
