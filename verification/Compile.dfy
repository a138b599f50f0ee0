/** The translation of core/compile.py as a function, and its correctness against the direct semantics. */
module Compile {
  import opened Common
  import opened Ir
  import opened Runtime
  import opened Semantics
  import Js = JsTarget
  import opened JsTarget

  /** What the emitter carries along the text: `assigned`, `try_counter`, `par_counter`. */
  datatype EmitState = EmitState(seen: set<nat>, tries: nat, pars: nat)

  // ---------------------------------------------------------------- expressions

  function OperandE(op: Operand): JsExpr {
    match op
    case OReg(n) => Var(n)
    case ORegField(n, f) => FldE(Var(n), f)
    case OConst(sym) => ConstantE(sym)
    case ONow => NowE
    case ONull => NullE
    case OInt(v) => IntE(v)
  }

  function OperandsE(ops: seq<Operand>): seq<JsExpr> {
    seq(|ops|, i requires 0 <= i < |ops| => OperandE(ops[i]))
  }

  function LeftE(l: Left): JsExpr {
    match l case LField(f) => FldE(ElemVar, f) case LOp(op) => OperandE(op)
  }

  function RightE(r: Right): JsExpr {
    match r case RElem(f) => FldE(ElemVar, f) case ROp(op) => OperandE(op) case RNone => ElemVar
  }

  function ClauseTok(c: Clause): JsTok {
    Atom(c.neg, if c.cmp.EMPTY? then EmptyE(LeftE(c.left)) else CmpE(c.cmp, LeftE(c.left), RightE(c.right)))
  }

  function OpTok(op: Connective): JsTok {
    match op case AND => AmpAmp case OR => BarBar
  }

  /** Clauses at even positions, connectives between them. */
  function PredToks(p: Pred): seq<JsTok> {
    seq(2 * |p.clauses| - 1, j requires 0 <= j < 2 * |p.clauses| - 1 =>
      if j % 2 == 0 then ClauseTok(p.clauses[j / 2]) else OpTok(p.ops[j / 2]))
  }

  function CallE(c: CallI): JsCall {
    JsCall(c.tool, OperandsE(c.args))
  }

  function CallsE(calls: seq<CallI>): seq<JsCall> {
    seq(|calls|, i requires 0 <= i < |calls| => CallE(calls[i]))
  }

  function SimpleE(i: Instr): JsExpr
    requires IsSimple(i)
  {
    match i
    case Let(op, _) => OperandE(op)
    case Get(src, f, _) => FldE(Var(src), f)
    case Format(template, ops, _, kinds) => FormatE(template, OperandsE(ops), kinds)
    case Filter(src, p, _) => FilterE(Var(src), PredToks(p))
    case MapF(src, f, _) => MapE(Var(src), f)
    case Count(src, _) => CountE(Var(src))
    case Most(src, f, cands, _, least) => ExtremeE(Var(src), f, if cands.Some? then Var(cands.value) else NullE, least)
    case Sort(src, f, desc, _) => SortE(Var(src), f, desc)
    case Select(src, idx, _) => SelectE(Var(src), OperandE(idx))
    case First(src, _) => FirstE(Var(src))
  }

  // ---------------------------------------------------------------- statements

  function AssignPars(calls: seq<CallI>, p: nat, i: nat): seq<JsStmt>
    requires i <= |calls|
    decreases |calls| - i
  {
    if i == |calls| then []
    else (if calls[i].dst.Some? then [AssignPar(calls[i].dst.value, p, i)] else []) + AssignPars(calls, p, i + 1)
  }

  function TryBlock(dst: nat, body: seq<JsStmt>): JsStmt {
    TryCatch(body + [AssignOk(dst), Break], [RethrowOthers, AssignCode(dst)])
  }

  function EmitBlock(body: seq<Stmt>, es: EmitState): seq<JsStmt>
    decreases body
  {
    if body == [] then [] else EmitStmt(body[0], es) + EmitBlock(body[1..], After(body[0], es))
  }

  function LineMark(line: nat): seq<JsStmt> {
    if line == 0 then [] else [AtLine(line)]
  }

  function EmitStmt(s: Stmt, es: EmitState): seq<JsStmt>
    decreases s, 1
  {
    LineMark(s.line) + EmitInstr(s, es)
  }

  function EmitInstr(s: Stmt, es: EmitState): seq<JsStmt>
    decreases s, 0
  {
    match s.instr
    case DoCall(c) => [AwaitCall(c.dst, CallE(c))]
    case Foreach(src, v, body) => [ForOf(v, src, EmitBlock(body, es.(seen := es.seen + {v})))]
    case If(cond, thn, els) =>
      [IfElse(PredToks(cond), EmitBlock(thn, es),
              match els case NoElse => Js.NoElse case Else(b) => Js.Else(EmitBlock(b, AfterBlock(thn, es))))]
    case Parallel(calls) => [ConstAll(es.pars, CallsE(calls))] + AssignPars(calls, es.pars, 0)
    case Try(retry, dst, body) =>
      [AssignOk(dst), ForCount(es.tries, retry, [TryBlock(dst, EmitBlock(body, InTry(dst, es)))])]
    case Return(op) => [RetValue(OperandE(op))]
    case Stop => [RetStop]
    case Abort(reason, refs) => [RetAbort(reason, refs)]
    case Pause => [RetPause(es.seen)]
    case i => [Assign(i.dst, SimpleE(i))]
  }

  function InTry(dst: nat, es: EmitState): EmitState {
    es.(seen := es.seen + {dst}, tries := es.tries + 1)
  }

  function After(s: Stmt, es: EmitState): EmitState
    decreases s
  {
    match s.instr
    case Foreach(_, v, body) => AfterBlock(body, es.(seen := es.seen + {v}))
    case If(_, thn, els) =>
      var e1 := AfterBlock(thn, es);
      (match els case NoElse => e1 case Else(b) => AfterBlock(b, e1))
    case Parallel(calls) => es.(seen := es.seen + CallDsts(calls), pars := es.pars + 1)
    case Try(_, dst, body) => AfterBlock(body, InTry(dst, es))
    case _ => es.(seen := es.seen + StmtDsts(s))
  }

  function AfterBlock(body: seq<Stmt>, es: EmitState): EmitState
    decreases body
  {
    if body == [] then es else AfterBlock(body[1..], After(body[0], es))
  }

  // ---------------------------------------------------------------- registers

  function OpUses(op: Operand): set<nat> {
    match op case OReg(n) => {n} case ORegField(n, _) => {n} case _ => {}
  }

  function OpsUses(ops: seq<Operand>): set<nat> {
    if ops == [] then {} else OpUses(ops[0]) + OpsUses(ops[1..])
  }

  function ClauseUses(c: Clause): set<nat> {
    (if c.left.LOp? then OpUses(c.left.op) else {}) + (if c.right.ROp? then OpUses(c.right.op) else {})
  }

  function ClausesUses(cs: seq<Clause>): set<nat> {
    if cs == [] then {} else ClauseUses(cs[0]) + ClausesUses(cs[1..])
  }

  function CallsUses(calls: seq<CallI>): set<nat> {
    if calls == [] then {} else OpsUses(calls[0].args) + CallsUses(calls[1..])
  }

  /** Every register the text of a block names, reading or writing. */
  function Uses(body: seq<Stmt>): set<nat>
    decreases body
  {
    if body == [] then {} else StmtUses(body[0]) + Uses(body[1..])
  }

  function StmtUses(s: Stmt): set<nat>
    decreases s
  {
    match s.instr
    case DoCall(c) => CallDsts([c]) + OpsUses(c.args)
    case Foreach(src, v, b) => {src, v} + Uses(b)
    case If(c, t, e) => ClausesUses(c.clauses) + Uses(t) + (match e case NoElse => {} case Else(b) => Uses(b))
    case Parallel(calls) => CallDsts(calls) + CallsUses(calls)
    case Try(_, d, b) => {d} + Uses(b)
    case Return(op) => OpUses(op)
    case Stop => {}
    case Pause => {}
    case Abort(_, _) => {}
    case Let(op, d) => {d} + OpUses(op)
    case Format(_, ops, d, _) => {d} + OpsUses(ops)
    case Filter(src, p, d) => {src, d} + ClausesUses(p.clauses)
    case Most(src, _, c, d, _) => {src, d} + (if c.Some? then {c.value} else {})
    case Select(src, i, d) => {src, d} + OpUses(i)
    case Get(src, _, d) => {src, d}
    case MapF(src, _, d) => {src, d}
    case Count(src, d) => {src, d}
    case Sort(src, _, _, d) => {src, d}
    case First(src, d) => {src, d}
  }

  lemma {:induction false} DstsUsed(body: seq<Stmt>)
    ensures Dsts(body) <= Uses(body)
    decreases body
  {
    if body != [] {
      StmtDstsUsed(body[0]);
      DstsUsed(body[1..]);
    }
  }

  lemma {:induction false} StmtDstsUsed(s: Stmt)
    ensures StmtDsts(s) <= StmtUses(s)
    decreases s
  {
    match s.instr
    case Foreach(_, _, b) => DstsUsed(b);
    case If(_, t, e) =>
      DstsUsed(t);
      if e.Else? { DstsUsed(e.body); }
    case Try(_, _, b) => DstsUsed(b);
    case _ =>
  }

  lemma {:induction false} AfterBlockSeen(body: seq<Stmt>, es: EmitState)
    ensures AfterBlock(body, es).seen == es.seen + Dsts(body)
    decreases body
  {
    if body != [] {
      AfterSeen(body[0], es);
      AfterBlockSeen(body[1..], After(body[0], es));
    }
  }

  /** The emitter's `assigned` after a statement is what it was plus the statement's destinations. */
  lemma {:induction false} AfterSeen(s: Stmt, es: EmitState)
    ensures After(s, es).seen == es.seen + StmtDsts(s)
    decreases s
  {
    match s.instr
    case Foreach(_, v, b) => AfterBlockSeen(b, es.(seen := es.seen + {v}));
    case If(_, t, e) =>
      AfterBlockSeen(t, es);
      if e.Else? { AfterBlockSeen(e.body, AfterBlock(t, es)); }
    case Try(_, d, b) => AfterBlockSeen(b, InTry(d, es));
    case _ =>
  }
}
