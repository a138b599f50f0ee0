/** Which PAUSEs return all bound registers. */
module PauseReturns {
  import opened Common
  import opened Ir
  import opened Runtime
  import opened Semantics
  import opened Gate
  import opened Pause

  // ---------------------------------------------------------------- the condition, read off the text

  /** At every PAUSE of the block each register that can be bound by then, `may`, is one of those assigned above it in
      the text, `seen`. A FOREACH and a TRY with retries can come back to a PAUSE with all destinations of their block
      bound. */
  predicate BlockFull(body: seq<Stmt>, seen: set<nat>, may: set<nat>)
    decreases body
  {
    body == [] ||
    (StmtFull(body[0], seen, may) && BlockFull(body[1..], seen + StmtDsts(body[0]), may + StmtDsts(body[0])))
  }

  predicate StmtFull(s: Stmt, seen: set<nat>, may: set<nat>)
    decreases s
  {
    match s.instr
    case Pause => may <= seen
    case Foreach(_, v, b) => BlockFull(b, seen + {v}, may + {v} + Dsts(b))
    case If(_, t, e) =>
      BlockFull(t, seen, may) && (match e case NoElse => true case Else(b) => BlockFull(b, seen + Dsts(t), may))
    case Try(retry, d, b) => BlockFull(b, seen + {d}, may + {d} + (if retry > 0 then Dsts(b) else {}))
    case _ => true
  }

  /** A run that ends in a PAUSE hands back all bound registers. */
  predicate ReturnsAll(o: Out) {
    o.flow.Done? && o.flow.m.Paused? ==> o.flow.m.regs == Bound(o.st.regs)
  }

  // ---------------------------------------------------------------- it suffices

  lemma {:induction false} BlockReturnsAll(cfg: Config, body: seq<Stmt>, seen: set<nat>, may: set<nat>, st: St)
    requires BlockFull(body, seen, may) && st.regs.Keys <= may
    ensures ReturnsAll(ExecBlock(cfg, body, seen, st))
    decreases body, 0, 0
  {
    hide ExecStmt;
    hide StmtFull;
    hide StmtDsts;
    hide ReturnsAll;
    if body == [] {
      NextReturnsAll(st);
    } else {
      StmtReturnsAll(cfg, body[0], seen, may, st);
      var o := ExecStmt(cfg, body[0], seen, st);
      if o.flow.Next? {
        StmtRegs(cfg, body[0], seen, st);
        BlockReturnsAll(cfg, body[1..], seen + StmtDsts(body[0]), may + StmtDsts(body[0]), o.st);
      }
    }
  }

  lemma NextReturnsAll(st: St)
    ensures ReturnsAll(Out(st, Next))
  {
  }

  lemma PauseReturnsAll(regs: Regs, seen: set<nat>)
    requires regs.Keys <= seen
    ensures PauseRegs(regs, seen) == Bound(regs)
  {
  }

  lemma {:induction false} StmtReturnsAll(cfg: Config, s: Stmt, seen: set<nat>, may: set<nat>, st0: St)
    requires StmtFull(s, seen, may) && st0.regs.Keys <= may
    ensures ReturnsAll(ExecStmt(cfg, s, seen, st0))
    decreases s, 0, 0
  {
    hide ExecBlock;
    hide ExecEach;
    hide ExecTry;
    hide EvalFrom;
    hide EvalOp;
    hide SimpleValue;
    hide CallStep;
    hide RunCalls;
    hide BindAll;
    hide PauseRegs;
    hide Bound;
    hide BlockFull;
    var st := Enter(st0, s.line);
    match s.instr
    case Pause => PauseReturnsAll(st.regs, seen);
    case Foreach(src, v, body) =>
      var it := Iterable(Lookup(st.regs, src));
      if it.Ok? { EachReturnsAll(cfg, it.value, v, body, seen + {v}, may + {v} + Dsts(body), st); }
    case If(cond, thn, els) =>
      var c := EvalPred(cfg, st.regs, st.w, None, cond);
      BlockReturnsAll(cfg, thn, seen, may, St(st.regs, c.w));
      if els.Else? { BlockReturnsAll(cfg, els.body, seen + Dsts(thn), may, St(st.regs, c.w)); }
    case Try(retry, dst, body) =>
      var may1 := may + {dst} + (if retry > 0 then Dsts(body) else {});
      TryReturnsAll(cfg, retry, dst, body, seen + {dst}, may1, St(st.regs[dst := Str("OK")], st.w));
    case Parallel(calls) => SettledLength(cfg, st.regs, st.w, calls);
    case _ =>
  }

  lemma {:induction false} EachReturnsAll(cfg: Config, xs: seq<Value>, v: nat, body: seq<Stmt>, seen: set<nat>,
                                          may: set<nat>, st: St)
    requires BlockFull(body, seen, may) && {v} + Dsts(body) <= may && st.regs.Keys <= may
    ensures ReturnsAll(ExecEach(cfg, xs, v, body, seen, st))
    decreases body, 1, |xs|
  {
    hide ExecBlock;
    hide BlockFull;
    hide Dsts;
    hide Bound;
    if xs != [] {
      var st1 := St(st.regs[v := xs[0]], st.w);
      BlockReturnsAll(cfg, body, seen, may, st1);
      BlockRegs(cfg, body, seen, st1);
      var o := ExecBlock(cfg, body, seen, st1);
      if o.flow.Next? { EachReturnsAll(cfg, xs[1..], v, body, seen, may, o.st); }
    }
  }

  lemma {:induction false} TryReturnsAll(cfg: Config, left: nat, dst: nat, body: seq<Stmt>, seen: set<nat>,
                                         may: set<nat>, st: St)
    requires BlockFull(body, seen, may) && dst in may && (left > 0 ==> Dsts(body) <= may) && st.regs.Keys <= may
    ensures ReturnsAll(ExecTry(cfg, left, dst, body, seen, st))
    decreases body, 1, left
  {
    hide ExecBlock;
    hide BlockFull;
    hide Dsts;
    hide Bound;
    BlockReturnsAll(cfg, body, seen, may, st);
    BlockRegs(cfg, body, seen, st);
    var o := ExecBlock(cfg, body, seen, st);
    if o.flow.Fail? && o.flow.e.ToolErr? && left > 0 {
      TryReturnsAll(cfg, left - 1, dst, body, seen, may, St(o.st.regs[dst := Str(o.flow.e.code)], o.st.w));
    }
  }

  /** Wherever it stands, a PAUSE of a run returns all bound registers if the text has no PAUSE that a loop or a retry
      can come back to with a register bound that is assigned below it only. */
  lemma FullTextReturnsAll(cfg: Config, body: seq<Stmt>, init: set<nat>, w: World)
    requires BlockFull(body, init, init)
    ensures ReturnsAll(RunBody(cfg, body, init, w))
  {
    hide ExecBlock;
    hide BlockFull;
    hide Bound;
    hide InitialRegs;
    SeededKeys(cfg, init);
    BlockReturnsAll(cfg, body, init, init, St(InitialRegs(cfg, init), w));
  }

  // ---------------------------------------------------------------- texts that meet it

  predicate Unlooped(body: seq<Stmt>)
    decreases body
  {
    body == [] || (StmtUnlooped(body[0]) && Unlooped(body[1..]))
  }

  /** No PAUSE stands in a FOREACH or in a TRY with retries. */
  predicate StmtUnlooped(s: Stmt)
    decreases s
  {
    match s.instr
    case Foreach(_, _, b) => PauseFree(b)
    case If(_, t, e) => Unlooped(t) && (match e case NoElse => true case Else(b) => Unlooped(b))
    case Try(retry, _, b) => if retry > 0 then PauseFree(b) else Unlooped(b)
    case _ => true
  }

  predicate PauseFree(body: seq<Stmt>)
    decreases body
  {
    body == [] || (StmtPauseFree(body[0]) && PauseFree(body[1..]))
  }

  predicate StmtPauseFree(s: Stmt)
    decreases s
  {
    match s.instr
    case Pause => false
    case Foreach(_, _, b) => PauseFree(b)
    case If(_, t, e) => PauseFree(t) && (match e case NoElse => true case Else(b) => PauseFree(b))
    case Try(_, _, b) => PauseFree(b)
    case _ => true
  }

  lemma {:induction false} PauseFreeFull(body: seq<Stmt>, seen: set<nat>, may: set<nat>)
    requires PauseFree(body)
    ensures BlockFull(body, seen, may)
    decreases body
  {
    hide StmtFull;
    hide StmtPauseFree;
    if body != [] {
      StmtPauseFreeFull(body[0], seen, may);
      PauseFreeFull(body[1..], seen + StmtDsts(body[0]), may + StmtDsts(body[0]));
    }
  }

  lemma {:induction false} StmtPauseFreeFull(s: Stmt, seen: set<nat>, may: set<nat>)
    requires StmtPauseFree(s)
    ensures StmtFull(s, seen, may)
    decreases s
  {
    hide BlockFull;
    hide PauseFree;
    match s.instr
    case Foreach(_, v, b) => PauseFreeFull(b, seen + {v}, may + {v} + Dsts(b));
    case If(_, t, e) =>
      PauseFreeFull(t, seen, may);
      if e.Else? { PauseFreeFull(e.body, seen + Dsts(t), may); }
    case Try(retry, d, b) => PauseFreeFull(b, seen + {d}, may + {d} + (if retry > 0 then Dsts(b) else {}));
    case _ =>
  }

  lemma {:induction false} UnloopedFull(body: seq<Stmt>, seen: set<nat>, may: set<nat>)
    requires Unlooped(body) && may <= seen
    ensures BlockFull(body, seen, may)
    decreases body
  {
    hide StmtFull;
    hide StmtUnlooped;
    hide StmtDsts;
    if body != [] {
      StmtUnloopedFull(body[0], seen, may);
      UnloopedFull(body[1..], seen + StmtDsts(body[0]), may + StmtDsts(body[0]));
    }
  }

  lemma {:induction false} StmtUnloopedFull(s: Stmt, seen: set<nat>, may: set<nat>)
    requires StmtUnlooped(s) && may <= seen
    ensures StmtFull(s, seen, may)
    decreases s
  {
    hide BlockFull;
    hide PauseFree;
    hide Unlooped;
    match s.instr
    case Foreach(_, v, b) => PauseFreeFull(b, seen + {v}, may + {v} + Dsts(b));
    case If(_, t, e) =>
      UnloopedFull(t, seen, may);
      if e.Else? { UnloopedFull(e.body, seen + Dsts(t), may); }
    case Try(retry, d, b) =>
      if retry > 0 {
        PauseFreeFull(b, seen + {d}, may + {d} + Dsts(b));
      } else {
        UnloopedFull(b, seen + {d}, may + {d} + {});
      }
    case _ =>
  }

  /** In particular where no PAUSE stands in a FOREACH or a TRY with retries; in IF arms and in a TRY without retries it
      may. */
  lemma UnloopedReturnsAll(cfg: Config, body: seq<Stmt>, init: set<nat>, w: World)
    requires Unlooped(body)
    ensures ReturnsAll(RunBody(cfg, body, init, w))
  {
    hide RunBody;
    hide BlockFull;
    hide ReturnsAll;
    UnloopedFull(body, init, init);
    FullTextReturnsAll(cfg, body, init, w);
  }
}
