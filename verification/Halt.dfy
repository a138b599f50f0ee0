/** A blocked call ends a PARALLEL-free run. */
module Halt {
  import opened Common
  import opened Ir
  import opened Runtime
  import opened Semantics
  import opened Effects
  import opened Invariant
  import opened Simulation
  import opened Gate
  import opened Ids

  predicate NoParallel(body: seq<Stmt>)
    decreases body
  {
    body == [] || (StmtNoParallel(body[0]) && NoParallel(body[1..]))
  }

  predicate StmtNoParallel(s: Stmt)
    decreases s
  {
    match s.instr
    case Parallel(_) => false
    case Foreach(_, _, b) => NoParallel(b)
    case If(_, t, e) => NoParallel(t) && (match e case NoElse => true case Else(b) => NoParallel(b))
    case Try(_, _, b) => NoParallel(b)
    case _ => true
  }

  function Unapproved(cfg: Config): Config {
    cfg.(approval := false, preview := false)
  }

  /** The approved sandbox can get from `a` to `b` by budget charges, line marks and calls. */
  ghost predicate Later(cfg: Config, a: World, b: World) {
    exists script :: Play(Approved(cfg), a, script) == b
  }

  /** In the world `g` was stopped in, but for the charge of the stopped call, the approved sandbox makes that call and
      goes on to `a`. */
  ghost predicate GoesOn(cfg: Config, g: World, sym: string, a: World) {
    exists u, args :: g == Tick(u) && Later(cfg, RtCall(Approved(cfg), u, sym, args).w, a)
  }

  /** `g` stopped at an irreversible tool that the other run, then in the same state, went on to call as its very next
      logged call. */
  ghost predicate CutAt(cfg: Config, g: World, e: Exn, a: World) {
    && e.Blocked? && IsIrreversible(cfg, e.tool) && GoesOn(cfg, g, e.tool, a)
    && |g.calls| < |a.calls| && g.calls <= a.calls && a.calls[|g.calls|].tool == e.tool
  }

  lemma LaterSame(cfg: Config, w: World)
    ensures Later(cfg, w, w)
  {
    assert Play(Approved(cfg), w, []) == w;
  }

  lemma LaterOn(cfg: Config, a: World, b: World, c: World)
    requires Later(cfg, a, b) && Later(cfg, b, c)
    ensures Later(cfg, a, c)
  {
    hide Play;
    var s1 :| Play(Approved(cfg), a, s1) == b;
    var s2 :| Play(Approved(cfg), b, s2) == c;
    PlayAppend(Approved(cfg), a, s1, s2);
  }

  lemma LaterLogs(cfg: Config, a: World, b: World)
    requires Later(cfg, a, b)
    ensures a.calls <= b.calls
  {
    hide Play;
    var script :| Play(Approved(cfg), a, script) == b;
    PlayLogs(Approved(cfg), a, script);
  }

  /** A cut stays a cut while the approved run goes on. */
  lemma CutLater(cfg: Config, g: World, e: Exn, a: World, b: World)
    requires CutAt(cfg, g, e, a) && Later(cfg, a, b)
    ensures CutAt(cfg, g, e, b)
  {
    hide Later;
    hide RtCall;
    LaterLogs(cfg, a, b);
    var u, args :| g == Tick(u) && Later(cfg, RtCall(Approved(cfg), u, e.tool, args).w, a);
    LaterOn(cfg, RtCall(Approved(cfg), u, e.tool, args).w, a, b);
  }

  ghost predicate Follows(cfg: Config, g: Out, a: Out) {
    g == a || (g.flow.Fail? && CutAt(cfg, g.st.w, g.flow.e, a.st.w))
  }

  ghost predicate StepFollows(cfg: Config, g: Step, a: Step) {
    g == a || (g.r.Err? && CutAt(cfg, g.w, g.r.error, a.w))
  }

  lemma CallFollows(cfg: Config, w: World, sym: string, args: seq<Value>)
    ensures StepFollows(cfg, RtCall(Unapproved(cfg), w, sym, args), RtCall(Approved(cfg), w, sym, args))
  {
    hide Narrowed;
    hide RunImpl;
    hide Inject;
    hide GoesOn;
    if !IsIrreversible(cfg, sym) {
      CallAlike(Unapproved(cfg), Approved(cfg), w, sym, args);
    } else {
      CallGoesOn(cfg, w, sym, args);
    }
  }

  lemma CallGoesOn(cfg: Config, w: World, sym: string, args: seq<Value>)
    ensures GoesOn(cfg, Tick(w), sym, RtCall(Approved(cfg), w, sym, args).w)
  {
    hide RtCall;
    hide Later;
    LaterSame(cfg, RtCall(Approved(cfg), w, sym, args).w);
  }

  lemma PlayedLater(cfg: Config, syms: set<string>, a: World, b: World)
    requires Played(Approved(cfg), a, syms, b)
    ensures Later(cfg, a, b)
  {
    hide Play;
  }

  lemma BlockLater(cfg: Config, body: seq<Stmt>, seen: set<nat>, st: St)
    ensures Later(cfg, st.w, ExecBlock(Approved(cfg), body, seen, st).st.w)
  {
    hide ExecBlock;
    hide Symbols;
    hide Played;
    hide Later;
    var syms := Symbols(body);
    SymbolsWithin(body);
    PlayedStable(Approved(cfg), st.w, syms);
    hide Stable;
    BlockKeeps(Approved(cfg), PlayedInv(Approved(cfg), st.w, syms), AnyExn(), syms, body, seen, st);
    PlayedLater(cfg, syms, st.w, ExecBlock(Approved(cfg), body, seen, st).st.w);
  }

  lemma EachLater(cfg: Config, xs: seq<Value>, v: nat, body: seq<Stmt>, seen: set<nat>, st: St)
    ensures Later(cfg, st.w, ExecEach(Approved(cfg), xs, v, body, seen, st).st.w)
  {
    hide ExecEach;
    hide Symbols;
    hide Played;
    hide Later;
    var syms := Symbols(body);
    SymbolsWithin(body);
    PlayedStable(Approved(cfg), st.w, syms);
    hide Stable;
    EachKeeps(Approved(cfg), PlayedInv(Approved(cfg), st.w, syms), AnyExn(), syms, xs, v, body, seen, st);
    PlayedLater(cfg, syms, st.w, ExecEach(Approved(cfg), xs, v, body, seen, st).st.w);
  }

  lemma TryLater(cfg: Config, left: nat, dst: nat, body: seq<Stmt>, seen: set<nat>, st: St)
    ensures Later(cfg, st.w, ExecTry(Approved(cfg), left, dst, body, seen, st).st.w)
  {
    hide ExecTry;
    hide Symbols;
    hide Played;
    hide Later;
    var syms := Symbols(body);
    SymbolsWithin(body);
    PlayedStable(Approved(cfg), st.w, syms);
    hide Stable;
    TryKeeps(Approved(cfg), PlayedInv(Approved(cfg), st.w, syms), AnyExn(), syms, left, dst, body, seen, st);
    PlayedLater(cfg, syms, st.w, ExecTry(Approved(cfg), left, dst, body, seen, st).st.w);
  }

  /** Everything but calls runs alike under both configurations. */
  lemma CallFree(cfg: Config)
    ensures Simulates(Unapproved(cfg), Approved(cfg), SameWorld(), None, {})
  {
    FlagsAlike(Unapproved(cfg), Approved(cfg), {});
  }

  lemma CallStepFollows(cfg: Config, regs: Regs, w: World, c: CallI)
    ensures StepFollows(cfg, CallStep(Unapproved(cfg), regs, w, c), CallStep(Approved(cfg), regs, w, c))
  {
    hide EvalOps;
    hide RtCall;
    hide Simulates;
    CallFree(cfg);
    OpsSim(Unapproved(cfg), Approved(cfg), SameWorld(), None, {}, true, regs, regs, w, w, c.args);
    var a := EvalOps(Unapproved(cfg), regs, w, c.args);
    if a.r.Ok? { CallFollows(cfg, a.w, c.tool, a.r.value); }
  }

  /** Stopped before the approved run went on from `a` to `b`, the run is stopped before `b`. */
  lemma FollowsOn(cfg: Config, g: Out, a: Out, b: Out)
    requires Later(cfg, a.st.w, b.st.w)
    ensures g.flow.Fail? && CutAt(cfg, g.st.w, g.flow.e, a.st.w) ==> CutAt(cfg, g.st.w, g.flow.e, b.st.w)
  {
    hide CutAt;
    hide Later;
    if g.flow.Fail? && CutAt(cfg, g.st.w, g.flow.e, a.st.w) {
      CutLater(cfg, g.st.w, g.flow.e, a.st.w, b.st.w);
    }
  }

  lemma {:induction false} BlockFollows(cfg: Config, body: seq<Stmt>, seen: set<nat>, st: St)
    requires NoParallel(body)
    ensures Follows(cfg, ExecBlock(Unapproved(cfg), body, seen, st), ExecBlock(Approved(cfg), body, seen, st))
    decreases body, 0, 0
  {
    hide ExecStmt;
    if body != [] {
      StmtFollows(cfg, body[0], seen, st);
      var g, a := ExecStmt(Unapproved(cfg), body[0], seen, st), ExecStmt(Approved(cfg), body[0], seen, st);
      var seen1 := seen + StmtDsts(body[0]);
      if a.flow.Next? {
        BlockLater(cfg, body[1..], seen1, a.st);
        BlockFollows(cfg, body[1..], seen1, a.st);
        FollowsOn(cfg, g, a, ExecBlock(Approved(cfg), body[1..], seen1, a.st));
      }
    }
  }

  lemma {:induction false} StmtFollows(cfg: Config, s: Stmt, seen: set<nat>, st0: St)
    requires StmtNoParallel(s)
    ensures Follows(cfg, ExecStmt(Unapproved(cfg), s, seen, st0), ExecStmt(Approved(cfg), s, seen, st0))
    decreases s, 0, 0
  {
    hide ExecBlock;
    hide ExecEach;
    hide ExecTry;
    hide EvalFrom;
    hide EvalOp;
    hide SimpleValue;
    hide CallStep;
    hide StmtDsts;
    hide Simulates;
    var st := Enter(st0, s.line);
    var g, a := Unapproved(cfg), Approved(cfg);
    var i := s.instr;
    CallFree(cfg);
    if IsSimple(i) {
      SimpleSim(g, a, SameWorld(), None, {}, true, st.regs, st.regs, st.w, st.w, i);
    } else {
      match i
      case DoCall(c) => CallStepFollows(cfg, st.regs, st.w, c);
      case Foreach(src, v, body) =>
        var it := Iterable(Lookup(st.regs, src));
        if it.Ok? { EachFollows(cfg, it.value, v, body, seen + {v}, st); }
      case If(cond, thn, els) =>
        PredSim(g, a, SameWorld(), None, {}, true, st.regs, st.regs, st.w, st.w, None, cond, 0);
        var c := EvalPred(a, st.regs, st.w, None, cond);
        if c.r.Ok? {
          if c.r.value { BlockFollows(cfg, thn, seen, St(st.regs, c.w)); }
          else if els.Else? { BlockFollows(cfg, els.body, seen + Dsts(thn), St(st.regs, c.w)); }
        }
      case Try(retry, dst, body) =>
        TryFollows(cfg, retry, dst, body, seen + {dst}, St(st.regs[dst := Str("OK")], st.w));
      case Return(op) => OpSim(g, a, SameWorld(), None, {}, true, st.regs, st.regs, st.w, st.w, op);
      case _ =>
    }
  }

  lemma {:induction false} EachFollows(cfg: Config, xs: seq<Value>, v: nat, body: seq<Stmt>, seen: set<nat>, st: St)
    requires NoParallel(body)
    ensures Follows(cfg, ExecEach(Unapproved(cfg), xs, v, body, seen, st),
                    ExecEach(Approved(cfg), xs, v, body, seen, st))
    decreases body, 1, |xs|
  {
    hide ExecBlock;
    if xs != [] {
      var st1 := St(st.regs[v := xs[0]], st.w);
      BlockFollows(cfg, body, seen, st1);
      var g, a := ExecBlock(Unapproved(cfg), body, seen, st1), ExecBlock(Approved(cfg), body, seen, st1);
      if a.flow.Next? {
        EachLater(cfg, xs[1..], v, body, seen, a.st);
        EachFollows(cfg, xs[1..], v, body, seen, a.st);
        FollowsOn(cfg, g, a, ExecEach(Approved(cfg), xs[1..], v, body, seen, a.st));
      }
    }
  }

  lemma {:induction false} TryFollows(cfg: Config, left: nat, dst: nat, body: seq<Stmt>, seen: set<nat>, st: St)
    requires NoParallel(body)
    ensures Follows(cfg, ExecTry(Unapproved(cfg), left, dst, body, seen, st),
                    ExecTry(Approved(cfg), left, dst, body, seen, st))
    decreases body, 1, left
  {
    hide ExecBlock;
    BlockFollows(cfg, body, seen, st);
    var g, a := ExecBlock(Unapproved(cfg), body, seen, st), ExecBlock(Approved(cfg), body, seen, st);
    if a.flow.Fail? && a.flow.e.ToolErr? && left > 0 {
      var st1 := St(a.st.regs[dst := Str(a.flow.e.code)], a.st.w);
      TryLater(cfg, left - 1, dst, body, seen, st1);
      TryFollows(cfg, left - 1, dst, body, seen, st1);
      FollowsOn(cfg, g, a, ExecTry(Approved(cfg), left - 1, dst, body, seen, st1));
    }
  }

  /** A PARALLEL-free program run without approval either runs exactly as the approved one, or ends effect_blocked at
      the first irreversible call the approved run logs: with the log up to that call, and in the state in which the
      approved run made it. */
  lemma GatedRunIsPrefix(cfg: Config, body: seq<Stmt>, init: set<nat>, w: World)
    requires NoParallel(body)
    ensures var g, a := RunBody(Unapproved(cfg), body, init, w), RunBody(Approved(cfg), body, init, w);
            && (g == a ||
                (g.flow.Fail? && CutAt(cfg, g.st.w, g.flow.e, a.st.w) &&
                 RunReport(Unapproved(cfg), body, init, w).status.StatusBlocked?))
            && w.calls <= g.st.w.calls
            && forall i | |w.calls| <= i < |g.st.w.calls| :: !IsIrreversible(cfg, g.st.w.calls[i].tool)
  {
    hide ExecBlock;
    hide GoesOn;
    BlockFollows(cfg, body, init, St(InitialRegs(cfg, init), w));
    GatedLogHarmless(Unapproved(cfg), body, init, w);
    RunIsScript(Unapproved(cfg), body, init, w);
    ScriptLogs(Unapproved(cfg), Symbols(body), w, RunBody(Unapproved(cfg), body, init, w).st.w);
    var calls := RunBody(Unapproved(cfg), body, init, w).st.w.calls;
    forall i | |w.calls| <= i < |calls|
      ensures !IsIrreversible(cfg, calls[i].tool)
    {
      assert !IsIrreversible(Unapproved(cfg), calls[i].tool);
    }
  }

  lemma ScriptLogs(cfg: Config, syms: set<string>, a: World, b: World)
    requires Played(cfg, a, syms, b)
    ensures a.calls <= b.calls
  {
    hide Play;
    var script :| ScriptWithin(script, syms) && Play(cfg, a, script) == b;
    PlayLogs(cfg, a, script);
  }

  /** Without PARALLEL a run is blocked exactly when the approved run goes on to log an irreversible call. */
  lemma BlockedIffIrreversible(cfg: Config, body: seq<Stmt>, init: set<nat>, w: World)
    requires NoParallel(body) && HonestForeign(cfg)
    ensures var g, a := RunBody(Unapproved(cfg), body, init, w), RunBody(Approved(cfg), body, init, w);
            g.flow.Fail? && g.flow.e.Blocked? <==>
            exists i :: |w.calls| <= i < |a.st.w.calls| && IsIrreversible(cfg, a.st.w.calls[i].tool)
  {
    hide RunBody;
    hide RunReport;
    hide GoesOn;
    hide Symbols;
    GatedRunIsPrefix(cfg, body, init, w);
    BlockedRunNamesGatedTool(Approved(cfg), body, init, w);
    var g, a := RunBody(Unapproved(cfg), body, init, w), RunBody(Approved(cfg), body, init, w);
    if g != a {
      assert IsIrreversible(cfg, a.st.w.calls[|g.st.w.calls|].tool);
    }
  }

  // ---------------------------------------------------------------- PARALLEL

  function DemoTool(name: string, effects: set<Effect>, impl: Impl): Tool {
    Tool(name, [], effects, impl)
  }

  function DemoBody(): seq<Stmt> {
    var missing, erase, later := CallI("T0", [], None, 0), CallI("T1", [], None, 0), CallI("T2", [], None, 0);
    [At(0, Try(0, 0, [At(0, Parallel([missing, erase]))])), At(0, DoCall(later))]
  }

  /** The block's first call fails, its second is blocked, and the first is what the block reports. */
  lemma DemoParallel(cfg: Config, w: World, regs: Regs) returns (w': World)
    requires !cfg.approval && !cfg.preview && w.ops + 3 <= cfg.maxOps && w.injections == []
    requires cfg.tools == map["T0" := DemoTool("get", {}, NoopEmpty("OBJ")),
                              "T1" := DemoTool("erase", {Irreversible}, Noop),
                              "T2" := DemoTool("note", {Mutates}, Noop)]
    ensures ParallelOut(cfg, St(regs, w), [CallI("T0", [], None, 0), CallI("T1", [], None, 0)]) ==
            Out(St(regs, w'), Fail(ToolErr("NOT_FOUND")))
    ensures w'.ops == w.ops + 2 && w'.injections == []
    ensures |w'.calls| == |w.calls| + 1 && w'.calls[|w.calls|].tool == "T0"
  {
    var missing, erase := CallI("T0", [], None, 0), CallI("T1", [], None, 0);
    var s0 := RtCall(cfg, w, "T0", []);
    DemoCall(cfg, w, "T0");
    DemoCall(cfg, s0.w, "T1");
    var s1 := RtCall(cfg, s0.w, "T1", []);
    w' := s1.w;
    hide RtCall;
    assert [missing, erase][1..] == [erase] && [erase][1..] == [];
    assert RunCalls(cfg, regs, s1.w, []) == Settled(s1.w, [], None);
    assert RunCalls(cfg, regs, s0.w, [erase]).failure == Some(s1.r.error);
    assert RunCalls(cfg, regs, w, [missing, erase]).failure == Some(ToolErr("NOT_FOUND"));
  }

  /** A TRY with no retries around one PARALLEL block whose calls end in a tool error. */
  lemma DemoTry(cfg: Config, calls: seq<CallI>, w: World, w': World)
    requires ParallelOut(cfg, St(map[0 := Str("OK")], w), calls) ==
             Out(St(map[0 := Str("OK")], w'), Fail(ToolErr("NOT_FOUND")))
    ensures ExecStmt(cfg, At(0, Try(0, 0, [At(0, Parallel(calls))])), {}, St(map[], w)) ==
            Out(St(map[0 := Str("NOT_FOUND")], w'), Next)
  {
    hide ParallelOut;
    var regs: Regs := map[0 := Str("OK")];
    var inner := [At(0, Parallel(calls))];
    var st := St(regs, w);
    assert {} + {0} == {0};
    assert ExecBlock(cfg, inner, {0}, st) == Out(St(regs, w'), Fail(ToolErr("NOT_FOUND"))) by {
      assert inner[0].instr == Parallel(calls);
    }
    hide ExecBlock;
    assert regs[0 := Str("NOT_FOUND")] == map[0 := Str("NOT_FOUND")];
    assert ExecTry(cfg, 0, 0, inner, {0}, st) == Out(St(map[0 := Str("NOT_FOUND")], w'), Next);
    hide ExecTry;
    var regs0: Regs := map[];
    assert regs0[0 := Str("OK")] == regs;
  }

  /** PARALLEL must be excluded: a TRY around a block whose first call fails hides the gated second call, and the run
      goes on to call T2 and ends normally. */
  lemma ParallelHidesBlockedCall(cfg: Config, w: World)
    requires !cfg.approval && !cfg.preview && w.ops + 3 <= cfg.maxOps && w.injections == []
    requires cfg.tools == map["T0" := DemoTool("get", {}, NoopEmpty("OBJ")),
                              "T1" := DemoTool("erase", {Irreversible}, Noop),
                              "T2" := DemoTool("note", {Mutates}, Noop)]
    ensures var o := RunBody(cfg, DemoBody(), {}, w);
            && o.flow == Done(Stopped)
            && o.st.regs == map[0 := Str("NOT_FOUND")]
            && |o.st.w.calls| == |w.calls| + 2 && o.st.w.calls[|w.calls|].tool == "T0" &&
                 o.st.w.calls[|w.calls| + 1].tool == "T2"
  {
    var body := DemoBody();
    var missing, erase, later := CallI("T0", [], None, 0), CallI("T1", [], None, 0), CallI("T2", [], None, 0);
    var w1 := DemoParallel(cfg, w, map[0 := Str("OK")]);
    DemoCall(cfg, w1, "T2");
    hide RtCall;
    DemoTry(cfg, [missing, erase], w, w1);
    var st1 := St(map[0 := Str("NOT_FOUND")], w1);
    DemoTail(cfg, later, st1);
    hide ExecStmt;
    hide ParallelOut;
    assert InitialRegs(cfg, {}) == map[];
    assert body[1..] == [At(0, DoCall(later))];
    assert ExecBlock(cfg, body, {}, St(map[], w)) == ExecBlock(cfg, body[1..], {} + StmtDsts(body[0]), st1);
  }

  lemma DemoCall(cfg: Config, w: World, sym: string)
    requires !cfg.approval && !cfg.preview && w.ops + 1 <= cfg.maxOps && w.injections == []
    requires sym in cfg.tools && cfg.tools[sym].params == []
    requires var i := cfg.tools[sym].impl; i == Noop || i == NoopEmpty("OBJ")
    ensures var s := RtCall(cfg, w, sym, []);
            && s.w.ops == w.ops + 1 && s.w.injections == []
            && (if IsIrreversible(cfg, sym) then s.w.calls == w.calls && s.r == Err(Blocked(sym, []))
                else |s.w.calls| == |w.calls| + 1 && w.calls <= s.w.calls && s.w.calls[|w.calls|].tool == sym &&
                     s.r == if cfg.tools[sym].impl.Noop? then Ok(Nil) else Err(ToolErr("NOT_FOUND")))
  {
  }

  lemma DemoTail(cfg: Config, later: CallI, st: St)
    requires later == CallI("T2", [], None, 0)
    ensures forall seen: set<nat> ::
              ExecBlock(cfg, [At(0, DoCall(later))], seen, st) ==
              BindOption(st.regs, None, RtCall(cfg, st.w, "T2", []))
  {
    hide RtCall;
    forall seen: set<nat>
      ensures ExecBlock(cfg, [At(0, DoCall(later))], seen, st) == BindOption(st.regs, None, RtCall(cfg, st.w, "T2", []))
    {
      var b := [At(0, DoCall(later))];
      assert b[1..] == [];
      assert EvalOps(cfg, st.regs, st.w, []) == StepAll(st.w, Ok([]));
      var o := ExecStmt(cfg, b[0], seen, st);
      assert o == BindOption(st.regs, None, RtCall(cfg, st.w, "T2", []));
      assert ExecBlock(cfg, [], seen + StmtDsts(b[0]), o.st) == Out(o.st, Next);
    }
  }
}
