/** The names in the emitted code: every register it mentions is declared, and no `const` is declared twice. */
module EmittedNames {
  import opened Common
  import opened Ir
  import opened Runtime
  import opened Semantics
  import Js = JsTarget
  import opened JsTarget
  import opened Compile
  import opened Check
  import opened Closed

  // ---------------------------------------------------------------- registers

  function ExprRegs(e: JsExpr): set<nat>
    decreases e
  {
    match e
    case Var(n) => {n}
    case ElemVar => {}
    case ConstantE(_) => {}
    case NowE => {}
    case NullE => {}
    case IntE(_) => {}
    case FormatE(_, vals, _) => ExprsRegs(vals)
    case CmpE(_, l, r) => ExprRegs(l) + ExprRegs(r)
    case ExtremeE(x, _, c, _) => ExprRegs(x) + ExprRegs(c)
    case SelectE(x, i) => ExprRegs(x) + ExprRegs(i)
    case FilterE(x, cond) => ExprRegs(x) + CondRegs(cond)
    case _ => ExprRegs(e.x)
  }

  function ExprsRegs(es: seq<JsExpr>): set<nat>
    decreases es
  {
    if es == [] then {} else ExprRegs(es[0]) + ExprsRegs(es[1..])
  }

  function TokRegs(t: JsTok): set<nat>
    decreases t
  {
    match t case Atom(_, test) => ExprRegs(test) case _ => {}
  }

  function CondRegs(toks: seq<JsTok>): set<nat>
    decreases toks
  {
    if toks == [] then {} else TokRegs(toks[0]) + CondRegs(toks[1..])
  }

  function CallsRegs(calls: seq<JsCall>): set<nat> {
    if calls == [] then {} else ExprsRegs(calls[0].args) + CallsRegs(calls[1..])
  }

  /** Every register a statement list names. */
  function CodeRegs(ss: seq<JsStmt>): set<nat>
    decreases ss
  {
    if ss == [] then {} else StmtRegs(ss[0]) + CodeRegs(ss[1..])
  }

  function StmtRegs(s: JsStmt): set<nat>
    decreases s
  {
    match s
    case Assign(d, e) => {d} + ExprRegs(e)
    case AwaitCall(to, c) => (if to.Some? then {to.value} else {}) + ExprsRegs(c.args)
    case ConstAll(_, calls) => CallsRegs(calls)
    case AssignPar(d, _, _) => {d}
    case AssignOk(d) => {d}
    case AssignCode(d) => {d}
    case ForOf(v, src, b) => {v, src} + CodeRegs(b)
    case IfElse(c, t, e) => CondRegs(c) + CodeRegs(t) + (match e case NoElse => {} case Else(b) => CodeRegs(b))
    case ForCount(_, _, b) => CodeRegs(b)
    case TryCatch(b, h) => CodeRegs(b) + CodeRegs(h)
    case RetValue(e) => ExprRegs(e)
    case RetPause(ns) => ns
    case _ => {}
  }

  lemma {:induction false} CodeAppend(a: seq<JsStmt>, b: seq<JsStmt>)
    ensures CodeRegs(a + b) == CodeRegs(a) + CodeRegs(b)
    decreases a
  {
    hide StmtRegs;
    if a == [] {
      assert a + b == b;
    } else {
      assert (a + b)[1..] == a[1..] + b;
      CodeAppend(a[1..], b);
    }
  }

  lemma CodeOne(s: JsStmt)
    ensures CodeRegs([s]) == StmtRegs(s)
  {
    hide StmtRegs;
    assert [s][1..] == [];
  }

  lemma OperandRegs(op: Operand)
    ensures ExprRegs(OperandE(op)) == OpUses(op)
  {
  }

  lemma {:induction false} OperandsRegs(ops: seq<Operand>)
    ensures ExprsRegs(OperandsE(ops)) == OpsUses(ops)
    decreases ops
  {
    hide OperandE;
    hide OpUses;
    hide ExprRegs;
    if ops != [] {
      OperandRegs(ops[0]);
      assert OperandsE(ops)[0] == OperandE(ops[0]) && OperandsE(ops)[1..] == OperandsE(ops[1..]);
      OperandsRegs(ops[1..]);
    }
  }

  lemma {:induction false} CallsArgsRegs(calls: seq<CallI>)
    ensures CallsRegs(CallsE(calls)) == CallsUses(calls)
    decreases calls
  {
    hide OpsUses;
    hide ExprsRegs;
    if calls != [] {
      OperandsRegs(calls[0].args);
      assert CallsE(calls)[0] == CallE(calls[0]) && CallsE(calls)[1..] == CallsE(calls[1..]);
      CallsArgsRegs(calls[1..]);
    }
  }

  lemma TokUses(c: Clause)
    requires ClauseComplete(c)
    ensures TokRegs(ClauseTok(c)) <= ClauseUses(c)
  {
    hide OperandE;
    if c.left.LOp? { OperandRegs(c.left.op); } else { ElemRegs(c.left.field); }
    match c.right
    case ROp(op) => OperandRegs(op);
    case RElem(f) => ElemRegs(f);
    case RNone =>
  }

  lemma ElemRegs(f: string)
    ensures ExprRegs(FldE(ElemVar, f)) == {}
  {
    assert ExprRegs(ElemVar) == {};
  }

  lemma {:induction false} ClauseIn(cs: seq<Clause>, i: nat)
    requires i < |cs|
    ensures ClauseUses(cs[i]) <= ClausesUses(cs)
    decreases cs
  {
    hide ClauseUses;
    if i > 0 { ClauseIn(cs[1..], i - 1); }
  }

  lemma {:induction false} CondWithin(toks: seq<JsTok>, ns: set<nat>)
    requires forall i | 0 <= i < |toks| :: TokRegs(toks[i]) <= ns
    ensures CondRegs(toks) <= ns
    decreases toks
  {
    hide TokRegs;
    if toks != [] { CondWithin(toks[1..], ns); }
  }

  lemma PredRegs(p: Pred)
    ensures CondRegs(PredToks(p)) <= ClausesUses(p.clauses)
  {
    hide ClausesUses;
    hide ClauseUses;
    hide CondRegs;
    var toks := PredToks(p);
    forall i | 0 <= i < |toks|
      ensures TokRegs(toks[i]) <= ClausesUses(p.clauses)
    {
      if i % 2 == 0 {
        assert ClauseComplete(p.clauses[i / 2]);
        TokUses(p.clauses[i / 2]);
        ClauseIn(p.clauses, i / 2);
      } else {
        assert toks[i] == OpTok(p.ops[i / 2]);
      }
    }
    CondWithin(toks, ClausesUses(p.clauses));
  }

  lemma SimpleRegs(s: Stmt)
    requires IsSimple(s.instr)
    ensures ExprRegs(SimpleE(s.instr)) + {s.instr.dst} <= StmtUses(s)
  {
    hide PredToks;
    hide OperandE;
    hide OperandsE;
    match s.instr
    case Let(op, _) => OperandRegs(op);
    case Format(_, ops, _, _) => OperandsRegs(ops);
    case Filter(_, p, _) => PredRegs(p);
    case Select(_, i, _) => OperandRegs(i);
    case _ =>
  }

  lemma {:induction false} AssignParsRegs(calls: seq<CallI>, p: nat, i: nat)
    requires i <= |calls|
    ensures CodeRegs(AssignPars(calls, p, i)) == CallDsts(calls[i..])
    decreases |calls| - i
  {
    if i < |calls| {
      AssignParsRegs(calls, p, i + 1);
      assert calls[i..][1..] == calls[i + 1..];
      if calls[i].dst.Some? {
        var s := AssignPar(calls[i].dst.value, p, i);
        CodeAppend([s], AssignPars(calls, p, i + 1));
        CodeOne(s);
      } else {
        assert AssignPars(calls, p, i) == AssignPars(calls, p, i + 1);
      }
    }
  }

  /** Emitted code names registers of its text, and at a PAUSE those assigned before it. */
  lemma {:induction false} BlockRegsUsed(body: seq<Stmt>, es: EmitState)
    ensures CodeRegs(EmitBlock(body, es)) <= Uses(body) + es.seen
    decreases body, 1
  {
    hide EmitStmt;
    hide StmtUses;
    if body != [] {
      StmtRegsUsed(body[0], es);
      AfterSeen(body[0], es);
      StmtDstsUsed(body[0]);
      BlockRegsUsed(body[1..], After(body[0], es));
      CodeAppend(EmitStmt(body[0], es), EmitBlock(body[1..], After(body[0], es)));
    }
  }

  lemma {:induction false} StmtRegsUsed(s: Stmt, es: EmitState)
    ensures CodeRegs(EmitStmt(s, es)) <= StmtUses(s) + es.seen
    decreases s, 2
  {
    hide EmitInstr;
    hide StmtUses;
    CodeAppend(LineMark(s.line), EmitInstr(s, es));
    CodeOne(AtLine(s.line));
    InstrRegsUsed(s, es);
  }

  lemma {:induction false} IfRegsUsed(s: Stmt, es: EmitState)
    requires s.instr.If?
    ensures CodeRegs(EmitInstr(s, es)) <= StmtUses(s) + es.seen
    decreases s, 0
  {
    hide CodeRegs;
    hide EmitBlock;
    hide PredToks;
    var If(c, t, e) := s.instr;
    PredRegs(c);
    BlockRegsUsed(t, es);
    CodeOne(EmitInstr(s, es)[0]);
    if e.Else? {
      AfterBlockSeen(t, es);
      DstsUsed(t);
      BlockRegsUsed(e.body, AfterBlock(t, es));
    }
  }

  lemma {:induction false} InstrRegsUsed(s: Stmt, es: EmitState)
    ensures CodeRegs(EmitInstr(s, es)) <= StmtUses(s) + es.seen
    decreases s, 1
  {
    hide CodeRegs;
    hide EmitBlock;
    hide SimpleE;
    hide PredToks;
    hide OperandsE;
    hide OperandE;
    if IsSimple(s.instr) {
      SimpleRegs(s);
      CodeOne(EmitInstr(s, es)[0]);
    } else {
      match s.instr
      case DoCall(c) =>
        OperandsRegs(c.args);
        CodeOne(EmitInstr(s, es)[0]);
        assert [c][1..] == [];
      case Foreach(src, v, b) =>
        BlockRegsUsed(b, es.(seen := es.seen + {v}));
        CodeOne(EmitInstr(s, es)[0]);
      case If(_, _, _) => IfRegsUsed(s, es);
      case Parallel(calls) =>
        CallsArgsRegs(calls);
        AssignParsRegs(calls, es.pars, 0);
        assert calls[0..] == calls;
        CodeAppend([ConstAll(es.pars, CallsE(calls))], AssignPars(calls, es.pars, 0));
        CodeOne(ConstAll(es.pars, CallsE(calls)));
      case Try(retry, dst, b) =>
        BlockRegsUsed(b, InTry(dst, es));
        TryRegsOf(dst, es.tries, retry, EmitBlock(b, InTry(dst, es)));
      case Return(op) =>
        OperandRegs(op);
        CodeOne(EmitInstr(s, es)[0]);
      case Stop => CodeOne(RetStop);
      case Pause => CodeOne(RetPause(es.seen));
      case Abort(reason, refs) => CodeOne(RetAbort(reason, refs));
    }
  }

  lemma TryRegsOf(dst: nat, a: nat, retry: nat, js: seq<JsStmt>)
    ensures CodeRegs([AssignOk(dst), ForCount(a, retry, [TryBlock(dst, js)])]) == {dst} + CodeRegs(js)
  {
    hide CodeRegs;
    var t := TryBlock(dst, js);
    var f := ForCount(a, retry, [t]);
    PairRegs(AssignOk(dst), f);
    CodeOne(t);
    CodeAppend(js, [AssignOk(dst), Break]);
    PairRegs(AssignOk(dst), Break);
    PairRegs(RethrowOthers, AssignCode(dst));
  }

  lemma PairRegs(a: JsStmt, b: JsStmt)
    ensures CodeRegs([a, b]) == StmtRegs(a) + StmtRegs(b)
  {
    hide CodeRegs;
    hide StmtRegs;
    assert [a, b] == [a] + [b];
    CodeAppend([a], [b]);
    CodeOne(a);
    CodeOne(b);
  }

  /** For every clean program, each register named anywhere in the emitted code is on the `let` line, FORMAT operands
      included although `_collect_regs` does not look at them. */
  lemma EmittedRegistersDeclared(ctx: TaskContext, body: seq<Stmt>)
    requires Clean(ctx, body, ctx.initial)
    ensures var p := CompileProgram(body, ctx.initial.Keys); CodeRegs(p.body) + p.initial <= p.declared
  {
    hide EmitBlock;
    hide CodeRegs;
    var init := ctx.initial.Keys;
    var es := EmitState(init, 0, 0);
    RegistersDeclared(ctx, body);
    BlockRegsUsed(body, es);
    var tail := if EndsProgram(body) then [] else [RetStop];
    CodeAppend(EmitBlock(body, es), tail);
    CodeOne(RetStop);
    assert CodeRegs([]) == {} by { NoRegs(); }
  }

  lemma NoRegs()
    ensures CodeRegs([]) == {}
  {
  }

  /** The checker is needed for that: FORMAT of a register nothing else mentions is emitted with the register
      undeclared. */
  lemma FormatUndeclared(template: string)
    ensures var body := [At(0, Format(template, [OReg(7)], 1, []))];
            7 in CodeRegs(CompileProgram(body, {}).body) && 7 !in CompileProgram(body, {}).declared
  {
    var s := At(0, Format(template, [OReg(7)], 1, []));
    var body := [s];
    assert body[1..] == [];
    var es := EmitState({}, 0, 0);
    var a := Assign(1, FormatE(template, OperandsE([OReg(7)]), []));
    assert EmitStmt(s, es) == [a];
    assert EmitBlock(body, es) == [a];
    assert OperandsE([OReg(7)]) == [Var(7)] && [Var(7)][1..] == [];
    CodeAppend([a], [RetStop]);
    CodeOne(a);
    assert ExprRegs(Var(7)) == {7};
    assert ExprsRegs([Var(7)]) == {7} + ExprsRegs([]);
    assert ExprRegs(FormatE(template, [Var(7)], [])) == {7};
    assert StmtCollected(s) == {1} && Collected(body) == {1} + Collected([]);
  }

  // ---------------------------------------------------------------- const names

  /** The `_pK` declared by a statement list, in text order, nested blocks included. */
  function ConstNames(ss: seq<JsStmt>): seq<nat>
    decreases ss
  {
    if ss == [] then [] else StmtConsts(ss[0]) + ConstNames(ss[1..])
  }

  function StmtConsts(s: JsStmt): seq<nat>
    decreases s
  {
    match s
    case ConstAll(p, _) => [p]
    case ForOf(_, _, b) => ConstNames(b)
    case IfElse(_, t, e) => ConstNames(t) + (match e case NoElse => [] case Else(b) => ConstNames(b))
    case ForCount(_, _, b) => ConstNames(b)
    case TryCatch(b, h) => ConstNames(b) + ConstNames(h)
    case _ => []
  }

  function CountFrom(lo: nat, hi: nat): seq<nat>
    requires lo <= hi
  {
    seq(hi - lo, i requires 0 <= i < hi - lo => lo + i)
  }

  lemma CountJoin(lo: nat, mid: nat, hi: nat)
    requires lo <= mid <= hi
    ensures CountFrom(lo, mid) + CountFrom(mid, hi) == CountFrom(lo, hi)
  {
  }

  lemma {:induction false} ConstAppend(a: seq<JsStmt>, b: seq<JsStmt>)
    ensures ConstNames(a + b) == ConstNames(a) + ConstNames(b)
    decreases a
  {
    hide StmtConsts;
    if a == [] {
      assert a + b == b;
    } else {
      assert (a + b)[1..] == a[1..] + b;
      ConstAppend(a[1..], b);
    }
  }

  lemma ConstOne(s: JsStmt)
    ensures ConstNames([s]) == StmtConsts(s)
  {
    hide StmtConsts;
    assert [s][1..] == [];
  }

  ghost predicate Numbered(names: seq<nat>, lo: nat, hi: nat) {
    lo <= hi && names == CountFrom(lo, hi)
  }

  /** The consts of a block are numbered consecutively from the emitter's counter, so no name is declared twice. */
  lemma {:induction false} BlockConsts(body: seq<Stmt>, es: EmitState)
    ensures Numbered(ConstNames(EmitBlock(body, es)), es.pars, AfterBlock(body, es).pars)
    decreases body, 1
  {
    hide EmitStmt;
    hide After;
    if body != [] {
      StmtConstsNumbered(body[0], es);
      var e1 := After(body[0], es);
      BlockConsts(body[1..], e1);
      ConstAppend(EmitStmt(body[0], es), EmitBlock(body[1..], e1));
      CountJoin(es.pars, e1.pars, AfterBlock(body, es).pars);
    } else {
      assert CountFrom(es.pars, es.pars) == [];
    }
  }

  lemma {:induction false} IfConsts(s: Stmt, es: EmitState)
    requires s.instr.If?
    ensures Numbered(ConstNames(EmitInstr(s, es)), es.pars, After(s, es).pars)
    decreases s, 0
  {
    hide ConstNames;
    hide EmitBlock;
    hide PredToks;
    hide StmtDsts;
    var If(c, t, e) := s.instr;
    BlockConsts(t, es);
    ConstOne(EmitInstr(s, es)[0]);
    if e.Else? {
      BlockConsts(e.body, AfterBlock(t, es));
      CountJoin(es.pars, AfterBlock(t, es).pars, After(s, es).pars);
    }
  }

  lemma {:induction false} StmtConstsNumbered(s: Stmt, es: EmitState)
    ensures Numbered(ConstNames(EmitStmt(s, es)), es.pars, After(s, es).pars)
    decreases s, 1
  {
    hide ConstNames;
    hide EmitBlock;
    hide SimpleE;
    hide StmtDsts;
    ConstAppend(LineMark(s.line), EmitInstr(s, es));
    assert ConstNames(LineMark(s.line)) == [] by { ConstOne(AtLine(s.line)); NoConsts(); }
    assert CountFrom(es.pars, es.pars) == [];
    match s.instr
    case Foreach(src, v, b) =>
      BlockConsts(b, es.(seen := es.seen + {v}));
      ConstOne(EmitInstr(s, es)[0]);
    case If(_, _, _) => IfConsts(s, es);
    case Parallel(calls) =>
      ConstAppend([ConstAll(es.pars, CallsE(calls))], AssignPars(calls, es.pars, 0));
      ConstOne(ConstAll(es.pars, CallsE(calls)));
      NoConstsInAssigns(calls, es.pars, 0);
    case Try(retry, dst, b) =>
      BlockConsts(b, InTry(dst, es));
      TryConsts(dst, es.tries, retry, EmitBlock(b, InTry(dst, es)));
    case _ => ConstOne(EmitInstr(s, es)[0]);
  }

  lemma NoConsts()
    ensures ConstNames([]) == []
  {
  }

  lemma {:induction false} NoConstsInAssigns(calls: seq<CallI>, p: nat, i: nat)
    requires i <= |calls|
    ensures ConstNames(AssignPars(calls, p, i)) == []
    decreases |calls| - i
  {
    if i < |calls| {
      NoConstsInAssigns(calls, p, i + 1);
      if calls[i].dst.Some? {
        var s := AssignPar(calls[i].dst.value, p, i);
        ConstAppend([s], AssignPars(calls, p, i + 1));
        ConstOne(s);
      } else {
        assert AssignPars(calls, p, i) == AssignPars(calls, p, i + 1);
      }
    }
  }

  lemma TryConsts(dst: nat, a: nat, retry: nat, js: seq<JsStmt>)
    ensures ConstNames([AssignOk(dst), ForCount(a, retry, [TryBlock(dst, js)])]) == ConstNames(js)
  {
    hide ConstNames;
    var t := TryBlock(dst, js);
    var f := ForCount(a, retry, [t]);
    PairConsts(AssignOk(dst), f);
    ConstOne(t);
    ConstAppend(js, [AssignOk(dst), Break]);
    PairConsts(AssignOk(dst), Break);
    PairConsts(RethrowOthers, AssignCode(dst));
  }

  lemma PairConsts(a: JsStmt, b: JsStmt)
    ensures ConstNames([a, b]) == StmtConsts(a) + StmtConsts(b)
  {
    hide ConstNames;
    hide StmtConsts;
    assert [a, b] == [a] + [b];
    ConstAppend([a], [b]);
    ConstOne(a);
    ConstOne(b);
  }

  /** No `const` name is declared twice anywhere in a program. */
  lemma ConstsDistinct(body: seq<Stmt>, init: set<nat>)
    ensures var names := ConstNames(CompileProgram(body, init).body);
            forall i, j | 0 <= i < j < |names| :: names[i] != names[j]
  {
    hide ConstNames;
    hide EmitBlock;
    var es := EmitState(init, 0, 0);
    BlockConsts(body, es);
    var tail := if EndsProgram(body) then [] else [RetStop];
    ConstAppend(EmitBlock(body, es), tail);
    ConstOne(RetStop);
    NoConsts();
  }
}
