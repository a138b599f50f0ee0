/** Emitted code runs as the program means. */
module CompileCorrect {
  import opened Common
  import opened Ir
  import opened Runtime
  import opened Semantics
  import opened JsTarget
  import opened Compile
  import opened CompilePred

  function FlowOf(f: Flow): JsFlow {
    match f case Next => JsNext case Done(m) => JsReturn(m) case Fail(e) => JsThrow(e)
  }

  /** A state of the direct semantics as the JavaScript locals hold it. */
  function Image(base: Regs, st: St): St {
    St(base + st.regs, st.w)
  }

  function ImageOut(base: Regs, o: Out): JsOut {
    JsOut(Image(base, o.st), FlowOf(o.flow))
  }

  lemma VarOk(cfg: Config, base: Regs, regs: Regs, w: World, n: nat)
    requires Blank(base) && n in base
    ensures JsEval(cfg, base + regs, w, None, Var(n)) == Step(w, Ok(Lookup(regs, n)))
  {
  }

  /** Instructions whose only operand is their source register. */
  predicate OneArg(i: Instr) {
    i.Get? || i.MapF? || i.Count? || i.Sort? || i.First?
  }

  lemma OneArgOk(cfg: Config, base: Regs, regs: Regs, w: World, i: Instr)
    requires Blank(base) && OneArg(i) && i.src in base
    ensures JsEval(cfg, base + regs, w, None, SimpleE(i)) == SimpleValue(cfg, regs, w, i)
  {
    hide RtFld;
    hide RtMap;
    hide RtSort;
    hide RtCount;
    hide RtFirst;
    hide Keep;
    hide EvalOp;
    hide EvalOps;
    VarOk(cfg, base, regs, w, i.src);
  }

  lemma FilterInstrOk(cfg: Config, base: Regs, regs: Regs, w: World, i: Instr)
    requires Blank(base) && i.Filter? && i.src in base && ClausesUses(i.pred.clauses) <= base.Keys
    ensures JsEval(cfg, base + regs, w, None, SimpleE(i)) == SimpleValue(cfg, regs, w, i)
  {
    hide PredToks;
    hide JsFilter;
    hide Keep;
    VarOk(cfg, base, regs, w, i.src);
    var v := Lookup(regs, i.src);
    if v.List? { FilterOk(cfg, base, regs, w, i.pred, v.elems); }
  }

  lemma MostOk(cfg: Config, base: Regs, regs: Regs, w: World, i: Instr)
    requires Blank(base) && i.Most? && i.src in base && (i.cands.Some? ==> i.cands.value in base)
    ensures JsEval(cfg, base + regs, w, None, SimpleE(i)) == SimpleValue(cfg, regs, w, i)
  {
    hide RtExtreme;
    VarOk(cfg, base, regs, w, i.src);
    if i.cands.Some? { VarOk(cfg, base, regs, w, i.cands.value); }
  }

  lemma SelectOk(cfg: Config, base: Regs, regs: Regs, w: World, i: Instr)
    requires Blank(base) && i.Select? && i.src in base && OpUses(i.idx) <= base.Keys
    ensures JsEval(cfg, base + regs, w, None, SimpleE(i)) == SimpleValue(cfg, regs, w, i)
  {
    hide RtSelect;
    hide OperandE;
    hide EvalOp;
    VarOk(cfg, base, regs, w, i.src);
    OperandOk(cfg, base, regs, w, None, i.idx);
  }

  lemma FormatOk(cfg: Config, base: Regs, regs: Regs, w: World, i: Instr)
    requires Blank(base) && i.Format? && OpsUses(i.ops) <= base.Keys
    ensures JsEval(cfg, base + regs, w, None, SimpleE(i)) == SimpleValue(cfg, regs, w, i)
  {
    hide RtFormat;
    hide OperandsE;
    hide EvalOps;
    hide JsEvalAll;
    OperandsOk(cfg, base, regs, w, None, i.ops);
  }

  lemma {:induction false} SimpleOk(cfg: Config, base: Regs, regs: Regs, w: World, line: nat, i: Instr)
    requires Blank(base) && IsSimple(i) && StmtUses(At(line, i)) <= base.Keys
    ensures JsEval(cfg, base + regs, w, None, SimpleE(i)) == SimpleValue(cfg, regs, w, i)
  {
    hide JsEval;
    hide OperandE;
    match i
    case Let(op, _) => OperandOk(cfg, base, regs, w, None, op);
    case Format(_, _, _, _) => FormatOk(cfg, base, regs, w, i);
    case Filter(_, _, _) => FilterInstrOk(cfg, base, regs, w, i);
    case Select(_, _, _) => SelectOk(cfg, base, regs, w, i);
    case Most(_, _, _, _, _) => MostOk(cfg, base, regs, w, i);
    case _ => OneArgOk(cfg, base, regs, w, i);
  }

  // ---------------------------------------------------------------- PARALLEL

  lemma {:induction false} PromisesOk(cfg: Config, base: Regs, regs: Regs, w: World, calls: seq<CallI>)
    requires Blank(base) && CallsUses(calls) <= base.Keys
    ensures match BuildPromises(cfg, base + regs, w, CallsE(calls))
            case Thrown(w', e) => RunCalls(cfg, regs, w, calls) == Faulted(w', e)
            case Built(w', ps) =>
              var o := RunCalls(cfg, regs, w, calls);
              o.Settled? && o.w == w' && |ps| == |calls| == |o.vals| &&
              AllSettled(ps) == if o.failure.Some? then Err(o.failure.value) else Ok(o.vals)
    decreases calls
  {
    hide RtCall;
    hide EvalOps;
    hide JsEvalAll;
    if calls != [] {
      var cs := CallsE(calls);
      assert cs[0] == CallE(calls[0]) && cs[1..] == CallsE(calls[1..]);
      OperandsOk(cfg, base, regs, w, None, calls[0].args);
      var a := EvalOps(cfg, regs, w, calls[0].args);
      if a.r.Ok? {
        var s := RtCall(cfg, a.w, calls[0].tool, a.r.value);
        PromisesOk(cfg, base, regs, s.w, calls[1..]);
        match BuildPromises(cfg, base + regs, s.w, cs[1..])
        case Thrown(_, _) =>
        case Built(_, ps) =>
          assert ([s.r] + ps)[1..] == ps;
      }
    }
  }

  lemma {:induction false} AssignParsOk(cfg: Config, base: Regs, st: St, calls: seq<CallI>, p: nat, i: nat,
                                        vals: seq<Value>, sc: Scope, rest: seq<JsStmt>)
    requires i <= |calls| == |vals| && p in sc.par && sc.par[p] == vals
    ensures JsExec(cfg, AssignPars(calls, p, i) + rest, sc, Image(base, st)) ==
            JsExec(cfg, rest, sc, Image(base, st.(regs := BindAll(st.regs, calls[i..], vals[i..]))))
    decreases |calls| - i
  {
    if i == |calls| {
      assert AssignPars(calls, p, i) + rest == rest;
    } else {
      assert calls[i..][1..] == calls[i + 1..] && vals[i..][1..] == vals[i + 1..];
      var tail := AssignPars(calls, p, i + 1);
      if calls[i].dst.Some? {
        var d := calls[i].dst.value;
        var st1 := st.(regs := st.regs[d := vals[i]]);
        var s := AssignPar(d, p, i);
        assert AssignPars(calls, p, i) + rest == [s] + (tail + rest);
        HeadStep(cfg, s, tail + rest, sc, Image(base, st));
        assert (base + st.regs)[d := vals[i]] == base + st1.regs;
        AssignParsOk(cfg, base, st1, calls, p, i + 1, vals, sc, rest);
      } else {
        assert AssignPars(calls, p, i) + rest == tail + rest;
        AssignParsOk(cfg, base, st, calls, p, i + 1, vals, sc, rest);
      }
    }
  }

  lemma HeadStep(cfg: Config, s: JsStmt, rest: seq<JsStmt>, sc: Scope, st: St)
    requires !s.ConstAll?
    ensures JsExec(cfg, [s] + rest, sc, st) ==
            var o := JsExecStmt(cfg, s, sc, st);
            if o.flow.JsNext? then JsExec(cfg, rest, sc, o.st) else o
  {
    hide JsExecStmt;
    assert ([s] + rest)[1..] == rest;
  }

  lemma {:induction false} ParallelOk(cfg: Config, base: Regs, st: St, calls: seq<CallI>, p: nat, sc: Scope,
                                      rest: seq<JsStmt>) returns (sc': Scope)
    requires Blank(base) && CallsUses(calls) <= base.Keys
    ensures var o := ParallelOut(cfg, st, calls);
            JsExec(cfg, [ConstAll(p, CallsE(calls))] + AssignPars(calls, p, 0) + rest, sc, Image(base, st)) ==
            if o.flow.Next? then JsExec(cfg, rest, sc', Image(base, o.st)) else ImageOut(base, o)
  {
    hide BuildPromises;
    hide RunCalls;
    hide AllSettled;
    hide JsExecStmt;
    sc' := sc;
    var tail := AssignPars(calls, p, 0) + rest;
    var ss := [ConstAll(p, CallsE(calls))] + AssignPars(calls, p, 0) + rest;
    assert ss[1..] == tail;
    PromisesOk(cfg, base, st.regs, st.w, calls);
    match BuildPromises(cfg, base + st.regs, st.w, CallsE(calls))
    case Thrown(_, _) =>
    case Built(w, ps) =>
      if AllSettled(ps).Ok? {
        var vals := AllSettled(ps).value;
        sc' := sc.(par := sc.par[p := vals]);
        AssignParsOk(cfg, base, St(st.regs, w), calls, p, 0, vals, sc', rest);
        assert calls[0..] == calls && vals[0..] == vals;
      }
  }

  // ---------------------------------------------------------------- statements

  /** What a piece of emitted code followed by `rest` must do to match `o`. */
  ghost predicate Matches(cfg: Config, base: Regs, code: seq<JsStmt>, rest: seq<JsStmt>, sc: Scope, sc': Scope, st: St,
                          o: Out) {
    JsExec(cfg, code + rest, sc, Image(base, st)) ==
    if o.flow.Next? then JsExec(cfg, rest, sc', Image(base, o.st)) else ImageOut(base, o)
  }

  lemma {:induction false} BlockOk(cfg: Config, base: Regs, body: seq<Stmt>, es: EmitState, st: St, sc: Scope,
                                   rest: seq<JsStmt>)
    returns (sc': Scope)
    requires Blank(base) && Uses(body) <= base.Keys && es.seen <= base.Keys
    ensures Matches(cfg, base, EmitBlock(body, es), rest, sc, sc', st, ExecBlock(cfg, body, es.seen, st))
    decreases body, 0, 0
  {
    hide ExecStmt;
    hide JsExec;
    hide EmitStmt;
    sc' := sc;
    if body == [] {
      assert EmitBlock(body, es) + rest == rest;
    } else {
      var head, tail := EmitStmt(body[0], es), EmitBlock(body[1..], After(body[0], es));
      assert EmitBlock(body, es) + rest == head + (tail + rest);
      sc' := StmtOk(cfg, base, body[0], es, st, sc, tail + rest);
      var o := ExecStmt(cfg, body[0], es.seen, st);
      AfterSeen(body[0], es);
      StmtDstsUsed(body[0]);
      if o.flow.Next? {
        sc' := BlockOk(cfg, base, body[1..], After(body[0], es), o.st, sc', rest);
      }
    }
  }

  lemma {:induction false} StmtOk(cfg: Config, base: Regs, s: Stmt, es: EmitState, st: St, sc: Scope, rest: seq<JsStmt>)
    returns (sc': Scope)
    requires Blank(base) && StmtUses(s) <= base.Keys && es.seen <= base.Keys
    ensures Matches(cfg, base, EmitStmt(s, es), rest, sc, sc', st, ExecStmt(cfg, s, es.seen, st))
    decreases s, 1, 0
  {
    hide JsExec;
    hide ExecStmt;
    hide EmitInstr;
    var code := EmitInstr(s, es);
    var st1 := Enter(st, s.line);
    if s.line == 0 {
      assert EmitStmt(s, es) + rest == code + rest;
    } else {
      assert EmitStmt(s, es) + rest == [AtLine(s.line)] + (code + rest);
      HeadStep(cfg, AtLine(s.line), code + rest, sc, Image(base, st));
    }
    sc' := InstrOk(cfg, base, s, es, st1, sc, rest);
    EnterOnce(cfg, s, es.seen, st);
  }

  lemma {:induction false} InstrOk(cfg: Config, base: Regs, s: Stmt, es: EmitState, st: St, sc: Scope,
                                   rest: seq<JsStmt>)
    returns (sc': Scope)
    requires Blank(base) && StmtUses(s) <= base.Keys && es.seen <= base.Keys
    ensures Matches(cfg, base, EmitInstr(s, es), rest, sc, sc', st, ExecStmt(cfg, At(0, s.instr), es.seen, st))
    decreases s, 0, 1
  {
    sc' := sc;
    match s.instr
    case Parallel(calls) =>
      sc' := ParallelOk(cfg, base, st, calls, es.pars, sc, rest);
    case Foreach(src, v, body) => ForeachOk(cfg, base, s, es, st, sc, rest);
    case If(_, _, _) => IfOk(cfg, base, s, es, st, sc, rest);
    case Try(retry, dst, body) => TryOk(cfg, base, s, es, st, sc, rest);
    case _ => FlatOk(cfg, base, s, es, st, sc, rest);
  }

  lemma CallOk(cfg: Config, base: Regs, s: Stmt, es: EmitState, st: St, sc: Scope, rest: seq<JsStmt>)
    requires Blank(base) && s.instr.DoCall? && OpsUses(s.instr.call.args) <= base.Keys
    ensures Matches(cfg, base, EmitInstr(s, es), rest, sc, sc, st, ExecStmt(cfg, At(0, s.instr), es.seen, st))
  {
    hide JsExec;
    hide JsEvalAll;
    hide OperandsE;
    hide EvalOps;
    hide RtCall;
    var c := s.instr.call;
    HeadStep(cfg, AwaitCall(c.dst, CallE(c)), rest, sc, Image(base, st));
    OperandsOk(cfg, base, st.regs, st.w, None, c.args);
    var r := CallStep(cfg, st.regs, st.w, c);
    assert JsCallStep(cfg, Image(base, st), CallE(c)) == r;
    hide JsCallStep;
    if c.dst.Some? && r.r.Ok? {
      assert (base + st.regs)[c.dst.value := r.r.value] == base + st.regs[c.dst.value := r.r.value];
    }
  }

  lemma SimpleInstrOk(cfg: Config, base: Regs, s: Stmt, es: EmitState, st: St, sc: Scope, rest: seq<JsStmt>)
    requires Blank(base) && IsSimple(s.instr) && StmtUses(s) <= base.Keys
    ensures Matches(cfg, base, EmitInstr(s, es), rest, sc, sc, st, ExecStmt(cfg, At(0, s.instr), es.seen, st))
  {
    hide JsExec;
    hide JsEval;
    hide SimpleValue;
    hide SimpleE;
    var i := s.instr;
    HeadStep(cfg, Assign(i.dst, SimpleE(i)), rest, sc, Image(base, st));
    SimpleOk(cfg, base, st.regs, st.w, s.line, i);
    hide StmtUses;
    var r := SimpleValue(cfg, st.regs, st.w, i);
    if r.r.Ok? { assert (base + st.regs)[i.dst := r.r.value] == base + st.regs[i.dst := r.r.value]; }
  }

  lemma {:induction false} FlatOk(cfg: Config, base: Regs, s: Stmt, es: EmitState, st: St, sc: Scope, rest: seq<JsStmt>)
    requires Blank(base) && StmtUses(s) <= base.Keys && es.seen <= base.Keys
    requires !s.instr.Parallel? && !s.instr.Foreach? && !s.instr.If? && !s.instr.Try?
    ensures Matches(cfg, base, EmitInstr(s, es), rest, sc, sc, st, ExecStmt(cfg, At(0, s.instr), es.seen, st))
  {
    if IsSimple(s.instr) {
      SimpleInstrOk(cfg, base, s, es, st, sc, rest);
    } else if s.instr.DoCall? {
      CallOk(cfg, base, s, es, st, sc, rest);
    } else {
      ExitOk(cfg, base, s, es, st, sc, rest);
    }
  }

  lemma ReturnOk(cfg: Config, base: Regs, s: Stmt, es: EmitState, st: St, sc: Scope, rest: seq<JsStmt>)
    requires Blank(base) && StmtUses(s) <= base.Keys && s.instr.Return?
    ensures Matches(cfg, base, EmitInstr(s, es), rest, sc, sc, st, ExecStmt(cfg, At(0, s.instr), es.seen, st))
  {
    hide JsExec;
    hide JsEval;
    hide EvalOp;
    hide OperandE;
    HeadStep(cfg, EmitInstr(s, es)[0], rest, sc, Image(base, st));
    OperandOk(cfg, base, st.regs, st.w, None, s.instr.op);
  }

  lemma ExitOk(cfg: Config, base: Regs, s: Stmt, es: EmitState, st: St, sc: Scope, rest: seq<JsStmt>)
    requires Blank(base) && StmtUses(s) <= base.Keys && es.seen <= base.Keys
    requires s.instr.Return? || s.instr.Stop? || s.instr.Pause? || s.instr.Abort?
    ensures Matches(cfg, base, EmitInstr(s, es), rest, sc, sc, st, ExecStmt(cfg, At(0, s.instr), es.seen, st))
  {
    hide JsExec;
    hide JsEval;
    hide EvalOp;
    hide OperandE;
    if s.instr.Return? {
      ReturnOk(cfg, base, s, es, st, sc, rest);
    } else {
      HeadStep(cfg, EmitInstr(s, es)[0], rest, sc, Image(base, st));
      if s.instr.Pause? { PauseOk(base, st.regs, es.seen); }
    }
  }

  lemma PauseOk(base: Regs, regs: Regs, seen: set<nat>)
    requires Blank(base) && seen <= base.Keys
    ensures (map n | n in seen && !(base + regs)[n].Undef? :: (base + regs)[n]) == PauseRegs(regs, seen)
  {
  }

  lemma {:induction false} ForeachOk(cfg: Config, base: Regs, s: Stmt, es: EmitState, st: St, sc: Scope,
                                     rest: seq<JsStmt>)
    requires s.instr.Foreach?
    requires Blank(base) && StmtUses(s) <= base.Keys && es.seen <= base.Keys
    ensures Matches(cfg, base, EmitInstr(s, es), rest, sc, sc, st, ExecStmt(cfg, At(0, s.instr), es.seen, st))
    decreases s, 0, 0
  {
    hide JsExec;
    hide EmitBlock;
    hide ExecEach;
    hide JsForOf;
    var Foreach(src, v, body) := s.instr;
    var es1 := es.(seen := es.seen + {v});
    var js := EmitBlock(body, es1);
    HeadStep(cfg, ForOf(v, src, js), rest, sc, Image(base, st));
    assert (base + st.regs)[src] == Lookup(st.regs, src);
    var it := Iterable(Lookup(st.regs, src));
    if it.Ok? {
      EachOk(cfg, base, it.value, v, body, es1, st, sc);
    }
  }

  lemma {:induction false} EachOk(cfg: Config, base: Regs, xs: seq<Value>, v: nat, body: seq<Stmt>, es: EmitState,
                                  st: St, sc: Scope)
    requires Blank(base) && Uses(body) <= base.Keys && es.seen <= base.Keys
    ensures JsForOf(cfg, xs, v, EmitBlock(body, es), sc, Image(base, st)) ==
            ImageOut(base, ExecEach(cfg, xs, v, body, es.seen, st))
    decreases body, 1, |xs|
  {
    hide JsExec;
    hide EmitBlock;
    hide ExecBlock;
    if xs != [] {
      var st1 := St(st.regs[v := xs[0]], st.w);
      assert (base + st.regs)[v := xs[0]] == base + st1.regs;
      BlockAlone(cfg, base, body, es, st1, sc);
      var o := ExecBlock(cfg, body, es.seen, st1);
      if o.flow.Next? {
        EachOk(cfg, base, xs[1..], v, body, es, o.st, sc);
      }
    }
  }

  lemma {:induction false} BlockAlone(cfg: Config, base: Regs, body: seq<Stmt>, es: EmitState, st: St, sc: Scope)
    requires Blank(base) && Uses(body) <= base.Keys && es.seen <= base.Keys
    ensures JsExec(cfg, EmitBlock(body, es), sc, Image(base, st)) == ImageOut(base, ExecBlock(cfg, body, es.seen, st))
    decreases body, 0, 1
  {
    hide EmitBlock;
    hide ExecBlock;
    var sc' := BlockOk(cfg, base, body, es, st, sc, []);
    assert EmitBlock(body, es) + [] == EmitBlock(body, es);
  }

  lemma {:induction false} IfOk(cfg: Config, base: Regs, s: Stmt, es: EmitState, st: St, sc: Scope, rest: seq<JsStmt>)
    requires s.instr.If?
    requires Blank(base) && StmtUses(s) <= base.Keys && es.seen <= base.Keys
    ensures Matches(cfg, base, EmitInstr(s, es), rest, sc, sc, st, ExecStmt(cfg, At(0, s.instr), es.seen, st))
    decreases s, 0, 0
  {
    hide JsExec;
    hide JsOr;
    hide EvalPred;
    hide EmitBlock;
    hide ExecBlock;
    hide PredToks;
    hide ClausesUses;
    hide Uses;
    hide Dsts;
    hide AfterBlock;
    var If(cond, thn, els) := s.instr;
    HeadStep(cfg, EmitInstr(s, es)[0], rest, sc, Image(base, st));
    PredOk(cfg, base, st.regs, st.w, None, cond);
    var c := EvalPred(cfg, st.regs, st.w, None, cond);
    var st1 := St(st.regs, c.w);
    BlockAlone(cfg, base, thn, es, st1, sc);
    if els.Else? {
      AfterBlockSeen(thn, es);
      DstsUsed(thn);
      BlockAlone(cfg, base, els.body, AfterBlock(thn, es), st1, sc);
    }
  }

  lemma {:induction false} TryOk(cfg: Config, base: Regs, s: Stmt, es: EmitState, st: St, sc: Scope, rest: seq<JsStmt>)
    requires s.instr.Try?
    requires Blank(base) && StmtUses(s) <= base.Keys && es.seen <= base.Keys
    ensures Matches(cfg, base, EmitInstr(s, es), rest, sc, sc, st, ExecStmt(cfg, At(0, s.instr), es.seen, st))
    decreases s, 0, 0
  {
    hide JsExec;
    hide JsForCount;
    hide EmitBlock;
    hide ExecTry;
    var Try(retry, dst, body) := s.instr;
    var loop := ForCount(es.tries, retry, [TryBlock(dst, EmitBlock(body, InTry(dst, es)))]);
    var st1 := St(st.regs[dst := Str("OK")], st.w);
    assert EmitInstr(s, es) + rest == [AssignOk(dst)] + ([loop] + rest);
    HeadStep(cfg, AssignOk(dst), [loop] + rest, sc, Image(base, st));
    assert (base + st.regs)[dst := Str("OK")] == base + st1.regs;
    HeadStep(cfg, loop, rest, sc, Image(base, st1));
    AttemptsOk(cfg, base, retry, 0, dst, body, InTry(dst, es), st1, sc);
  }

  /** The counted loop from attempt `i` on is the retry recursion with `retry - i` attempts left. */
  lemma {:induction false} AttemptsOk(cfg: Config, base: Regs, retry: nat, i: nat, dst: nat, body: seq<Stmt>,
                                      es: EmitState, st: St, sc: Scope)
    requires i <= retry && Blank(base) && Uses(body) <= base.Keys && es.seen <= base.Keys
    ensures JsForCount(cfg, i, retry, [TryBlock(dst, EmitBlock(body, es))], sc, Image(base, st)) ==
            ImageOut(base, ExecTry(cfg, retry - i, dst, body, es.seen, st))
    decreases body, 1, retry - i
  {
    hide JsExec;
    hide EmitBlock;
    hide ExecBlock;
    var js := EmitBlock(body, es);
    var o := ExecBlock(cfg, body, es.seen, st);
    AttemptOk(cfg, base, dst, body, es, st, sc);
    if o.flow.Fail? && o.flow.e.ToolErr? && i < retry {
      var st1 := St(o.st.regs[dst := Str(o.flow.e.code)], o.st.w);
      AttemptsOk(cfg, base, retry, i + 1, dst, body, es, st1, sc);
    }
  }

  /** One pass through `try { body; r = "OK"; break; } catch ...`. */
  lemma {:induction false} AttemptOk(cfg: Config, base: Regs, dst: nat, body: seq<Stmt>, es: EmitState, st: St,
                                     sc: Scope)
    requires Blank(base) && Uses(body) <= base.Keys && es.seen <= base.Keys
    ensures var o := ExecBlock(cfg, body, es.seen, st);
            JsExec(cfg, [TryBlock(dst, EmitBlock(body, es))], sc, Image(base, st)) ==
            if o.flow.Next? then JsOut(Image(base, St(o.st.regs[dst := Str("OK")], o.st.w)), JsBreak)
            else if o.flow.Fail? && o.flow.e.ToolErr?
            then JsOut(Image(base, St(o.st.regs[dst := Str(o.flow.e.code)], o.st.w)), JsNext)
            else ImageOut(base, o)
    decreases body, 0, 1
  {
    hide JsExec;
    hide EmitBlock;
    hide ExecBlock;
    var js := EmitBlock(body, es);
    var tail := [AssignOk(dst), Break];
    var o := ExecBlock(cfg, body, es.seen, st);
    var sc' := BlockOk(cfg, base, body, es, st, sc, tail);
    var t := TryBlock(dst, js);
    Single(cfg, t, sc, Image(base, st));
    if o.flow.Next? {
      TailOk(cfg, base, dst, o.st, sc');
    } else if o.flow.Fail? {
      HandlerOk(cfg, base, dst, o.flow.e, o.st, sc.(caught := Some(o.flow.e)));
    }
  }

  /** An attempt that reaches its end writes "OK" again and breaks. */
  lemma TailOk(cfg: Config, base: Regs, dst: nat, st: St, sc: Scope)
    ensures JsExec(cfg, [AssignOk(dst), Break], sc, Image(base, st)) ==
            JsOut(Image(base, St(st.regs[dst := Str("OK")], st.w)), JsBreak)
  {
    hide JsExec;
    assert (base + st.regs)[dst := Str("OK")] == base + st.regs[dst := Str("OK")];
    assert [AssignOk(dst), Break] == [AssignOk(dst)] + [Break];
    HeadStep(cfg, AssignOk(dst), [Break], sc, Image(base, st));
    Single(cfg, Break, sc, Image(base, St(st.regs[dst := Str("OK")], st.w)));
  }

  lemma HandlerOk(cfg: Config, base: Regs, dst: nat, e: Exn, st: St, sc: Scope)
    requires sc.caught == Some(e)
    ensures JsExec(cfg, [RethrowOthers, AssignCode(dst)], sc, Image(base, st)) ==
            if e.ToolErr? then JsOut(Image(base, St(st.regs[dst := Str(e.code)], st.w)), JsNext)
            else JsOut(Image(base, st), JsThrow(e))
  {
    hide JsExec;
    assert [RethrowOthers, AssignCode(dst)] == [RethrowOthers] + [AssignCode(dst)];
    HeadStep(cfg, RethrowOthers, [AssignCode(dst)], sc, Image(base, st));
    Single(cfg, AssignCode(dst), sc, Image(base, st));
    if e.ToolErr? {
      assert (base + st.regs)[dst := Str(e.code)] == base + st.regs[dst := Str(e.code)];
    }
  }

  lemma Single(cfg: Config, s: JsStmt, sc: Scope, st: St)
    requires !s.ConstAll?
    ensures JsExec(cfg, [s], sc, st) == JsExecStmt(cfg, s, sc, st)
  {
    hide JsExecStmt;
    assert [s] == [s] + [];
    HeadStep(cfg, s, [], sc, st);
    assert forall s1 :: JsExec(cfg, [], sc, s1) == JsOut(s1, JsNext);
  }
}
