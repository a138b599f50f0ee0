/** The JavaScript subset the emitter uses, with JavaScript's own control flow: `for-of`, counted loops,
    `try/catch`, `break`, `throw`, `return`, block-scoped `const`, and `&&`/`||` read by JavaScript's grammar. */
module JsTarget {
  import opened Common
  import opened Ir
  import opened Runtime
  import opened Semantics

  datatype JsExpr =
    | Var(n: nat)
    | ElemVar
    | FldE(x: JsExpr, sym: string)
    | ConstantE(sym: string)
    | NowE
    | NullE
    | IntE(v: nat)
    | FilterE(x: JsExpr, cond: seq<JsTok>)
    | MapE(x: JsExpr, sym: string)
    | CountE(x: JsExpr)
    | SortE(x: JsExpr, sym: string, desc: bool)
    | ExtremeE(x: JsExpr, sym: string, cands: JsExpr, least: bool)
    | SelectE(x: JsExpr, idx: JsExpr)
    | FirstE(x: JsExpr)
    | FormatE(template: string, vals: seq<JsExpr>, kinds: seq<string>)
    | EmptyE(x: JsExpr)
    | CmpE(op: Cmp, l: JsExpr, r: JsExpr)

  /** A condition is emitted flat: atoms (with an optional `!`) separated by operators. */
  datatype JsTok = Atom(neg: bool, test: JsExpr) | AmpAmp | BarBar

  datatype JsCall = JsCall(tool: string, args: seq<JsExpr>)

  datatype JsStmt =
    | AtLine(line: nat)
    | Assign(dst: nat, e: JsExpr)
    | AwaitCall(to: Option<nat>, call: JsCall)
    | ConstAll(p: nat, calls: seq<JsCall>)
    | AssignPar(dst: nat, p: nat, i: nat)
    | AssignOk(dst: nat)
    | AssignCode(dst: nat)
    | ForOf(loopVar: nat, src: nat, body: seq<JsStmt>)
    | IfElse(cond: seq<JsTok>, thn: seq<JsStmt>, els: JsElse)
    | ForCount(a: nat, bound: nat, body: seq<JsStmt>)
    | TryCatch(body: seq<JsStmt>, handler: seq<JsStmt>)
    | RethrowOthers
    | Break
    | RetValue(e: JsExpr)
    | RetStop
    | RetAbort(reason: string, refs: seq<string>)
    | RetPause(regs: set<nat>)

  datatype JsElse = NoElse | Else(body: seq<JsStmt>)

  datatype JsFlow = JsNext | JsBreak | JsReturn(m: Marker) | JsThrow(e: Exn)

  datatype JsOut = JsOut(st: St, flow: JsFlow)

  /** Block-scoped names: the `const _pK` arrays and the caught `_e`. */
  datatype Scope = Scope(par: map<nat, seq<Value>>, caught: Option<Exn>)

  function ReferenceError(): Result {
    Err(JsErr("ReferenceError"))
  }

  // ---------------------------------------------------------------- expressions

  /** Evaluates an expression; `elem` is the arrow function's `_x`, when inside one. A register that no `let`
      declared is a ReferenceError. */
  function JsEval(cfg: Config, regs: Regs, w: World, elem: Option<Value>, e: JsExpr): Step
    decreases e, 0, 0
  {
    match e
    case Var(n) => Step(w, if n in regs then Ok(regs[n]) else ReferenceError())
    case ElemVar => Step(w, if elem.Some? then Ok(elem.value) else ReferenceError())
    case ConstantE(sym) => Step(w, RtConstant(cfg, sym))
    case NowE => Step(w, Ok(Num(cfg.now)))
    case NullE => Step(w, Ok(Nil))
    case IntE(v) => Step(w, Ok(Num(v)))
    case FormatE(template, vals, kinds) =>
      (match RtConstant(cfg, template)
       case Err(x) => Step(w, Err(x))
       case Ok(t) =>
         var vs := JsEvalAll(cfg, regs, w, elem, vals);
         match vs.r
         case Err(x) => Step(vs.w, Err(x))
         case Ok(args) => RtFormat(cfg, vs.w, t, args, kinds))
    case CmpE(op, l, r) =>
      var a := JsEval(cfg, regs, w, elem, l);
      if a.r.Err? then a
      else
        var b := JsEval(cfg, regs, a.w, elem, r);
        if b.r.Err? then b else RtCmp(cfg, b.w, op, a.r.value, b.r.value)
    case ExtremeE(x, sym, cands, least) =>
      var a := JsEval(cfg, regs, w, elem, x);
      if a.r.Err? then a
      else
        var b := JsEval(cfg, regs, a.w, elem, cands);
        if b.r.Err? then b else RtExtreme(cfg, b.w, a.r.value, sym, b.r.value, least)
    case SelectE(x, idx) =>
      var a := JsEval(cfg, regs, w, elem, x);
      if a.r.Err? then a
      else
        var b := JsEval(cfg, regs, a.w, elem, idx);
        if b.r.Err? then b else RtSelect(cfg, b.w, a.r.value, b.r.value)
    case FilterE(x, cond) =>
      var a := JsEval(cfg, regs, w, elem, x);
      if a.r.Err? then a
      else if !a.r.value.List? then Step(a.w, TypeError())
      else AsList(JsFilter(cfg, regs, a.w, cond, a.r.value.elems))
    case _ =>
      var a := JsEval(cfg, regs, w, elem, e.x);
      if a.r.Err? then a
      else
        match e
        case FldE(_, sym) => RtFld(cfg, a.w, a.r.value, sym)
        case MapE(_, sym) => RtMap(cfg, a.w, a.r.value, sym)
        case SortE(_, sym, desc) => RtSort(cfg, a.w, a.r.value, sym, desc)
        case EmptyE(_) => RtEmpty(cfg, a.w, a.r.value)
        case CountE(_) => Step(a.w, RtCount(a.r.value))
        case FirstE(_) => Step(a.w, RtFirst(a.r.value))
  }

  function JsEvalAll(cfg: Config, regs: Regs, w: World, elem: Option<Value>, es: seq<JsExpr>): StepAll
    decreases es, 0, 0
  {
    if es == [] then StepAll(w, Ok([]))
    else
      var h := JsEval(cfg, regs, w, elem, es[0]);
      if h.r.Err? then StepAll(h.w, Err(h.r.error))
      else
        var t := JsEvalAll(cfg, regs, h.w, elem, es[1..]);
        if t.r.Err? then t else StepAll(t.w, Ok([h.r.value] + t.r.value))
  }

  /** The elements for which the condition holds, evaluated in order. */
  function JsFilter(cfg: Config, regs: Regs, w: World, cond: seq<JsTok>, xs: seq<Value>): StepAll
    decreases cond, 3, |xs|
  {
    if xs == [] then StepAll(w, Ok([]))
    else
      var b := JsOr(cfg, regs, w, Some(xs[0]), cond);
      if b.r.Err? then StepAll(b.w, Err(b.r.error))
      else
        var t := JsFilter(cfg, regs, b.w, cond, xs[1..]);
        if t.r.Err? then t else StepAll(t.w, Ok((if b.r.value then [xs[0]] else []) + t.r.value))
  }

  /** The index of the last `tok`, or |toks|. */
  function LastIndex(toks: seq<JsTok>, tok: JsTok): (k: nat)
    ensures k <= |toks|
    ensures k < |toks| ==> toks[k] == tok
    ensures forall j | 0 <= j < |toks| && (k == |toks| || j > k) :: toks[j] != tok
  {
    if toks == [] then 0
    else if toks[|toks| - 1] == tok then |toks| - 1
    else
      var k := LastIndex(toks[..|toks| - 1], tok);
      if k == |toks| - 1 then |toks| else k
  }

  /** LogicalOR : LogicalAND | LogicalOR `||` LogicalAND, evaluated left to right with short-circuit. */
  function JsOr(cfg: Config, regs: Regs, w: World, elem: Option<Value>, toks: seq<JsTok>): StepBool
    decreases toks, 2, 0
  {
    var k := LastIndex(toks, BarBar);
    if k == |toks| then JsAnd(cfg, regs, w, elem, toks)
    else
      var l := JsOr(cfg, regs, w, elem, toks[..k]);
      if l.r.Err? || l.r.value then l else JsAnd(cfg, regs, l.w, elem, toks[k + 1..])
  }

  /** LogicalAND : Unary | LogicalAND `&&` Unary. */
  function JsAnd(cfg: Config, regs: Regs, w: World, elem: Option<Value>, toks: seq<JsTok>): StepBool
    decreases toks, 1, 0
  {
    var k := LastIndex(toks, AmpAmp);
    if k == |toks| then JsUnary(cfg, regs, w, elem, toks)
    else
      var l := JsAnd(cfg, regs, w, elem, toks[..k]);
      if l.r.Err? || !l.r.value then l else JsUnary(cfg, regs, l.w, elem, toks[k + 1..])
  }

  function JsUnary(cfg: Config, regs: Regs, w: World, elem: Option<Value>, toks: seq<JsTok>): StepBool
    decreases toks, 0, 0
  {
    if |toks| != 1 then StepBool(w, Err(JsErr("SyntaxError")))
    else JsAtom(cfg, regs, w, elem, toks[0])
  }

  function JsAtom(cfg: Config, regs: Regs, w: World, elem: Option<Value>, tok: JsTok): StepBool
    decreases tok, 0, 0
  {
    match tok
    case Atom(neg, test) => AsBool(JsEval(cfg, regs, w, elem, test), neg)
    case _ => StepBool(w, Err(JsErr("SyntaxError")))
  }

  // ---------------------------------------------------------------- statements

  function JsCallStep(cfg: Config, st: St, c: JsCall): Step {
    var a := JsEvalAll(cfg, st.regs, st.w, None, c.args);
    if a.r.Err? then Step(a.w, Err(a.r.error)) else RtCall(cfg, a.w, c.tool, a.r.value)
  }

  /** The array literal of promises: each `rt.call` runs to completion while the array is built. */
  datatype Promises = Thrown(w: World, e: Exn) | Built(w: World, ps: seq<Result>)

  function BuildPromises(cfg: Config, regs: Regs, w: World, calls: seq<JsCall>): Promises
    decreases calls
  {
    if calls == [] then Built(w, [])
    else
      var a := JsEvalAll(cfg, regs, w, None, calls[0].args);
      if a.r.Err? then Thrown(a.w, a.r.error)
      else
        var s := RtCall(cfg, a.w, calls[0].tool, a.r.value);
        match BuildPromises(cfg, regs, s.w, calls[1..])
        case Thrown(w', e) => Thrown(w', e)
        case Built(w', ps) => Built(w', [s.r] + ps)
  }

  /** What awaiting `Promise.all` gives: all values, or the first rejection by index. */
  function AllSettled(ps: seq<Result>): Res<seq<Value>, Exn> {
    if ps == [] then Ok([])
    else if ps[0].Err? then Err(ps[0].error)
    else
      match AllSettled(ps[1..])
      case Err(e) => Err(e)
      case Ok(vs) => Ok([ps[0].value] + vs)
  }

  function JsAssign(regs: Regs, dst: nat, s: Step): JsOut {
    if s.r.Err? then JsOut(St(regs, s.w), JsThrow(s.r.error)) else JsOut(St(regs[dst := s.r.value], s.w), JsNext)
  }

  /** A statement list. A `const` is visible to the statements after it in its own block. */
  function JsExec(cfg: Config, ss: seq<JsStmt>, sc: Scope, st: St): JsOut
    decreases ss, 0, 0
  {
    if ss == [] then JsOut(st, JsNext)
    else if ss[0].ConstAll? then
      match BuildPromises(cfg, st.regs, st.w, ss[0].calls)
      case Thrown(w, e) => JsOut(St(st.regs, w), JsThrow(e))
      case Built(w, ps) =>
        match AllSettled(ps)
        case Err(e) => JsOut(St(st.regs, w), JsThrow(e))
        case Ok(vals) => JsExec(cfg, ss[1..], sc.(par := sc.par[ss[0].p := vals]), St(st.regs, w))
    else
      var o := JsExecStmt(cfg, ss[0], sc, st);
      if o.flow.JsNext? then JsExec(cfg, ss[1..], sc, o.st) else o
  }

  function JsExecStmt(cfg: Config, s: JsStmt, sc: Scope, st: St): JsOut
    requires !s.ConstAll?
    decreases s, 0, 0
  {
    match s
    case AtLine(line) => JsOut(St(st.regs, MarkLine(st.w, line)), JsNext)
    case Assign(dst, e) => JsAssign(st.regs, dst, JsEval(cfg, st.regs, st.w, None, e))
    case AwaitCall(dst, c) =>
      var r := JsCallStep(cfg, st, c);
      if dst.Some? || r.r.Err? then JsAssign(st.regs, if dst.Some? then dst.value else 0, r)
      else JsOut(St(st.regs, r.w), JsNext)
    case AssignPar(dst, p, i) =>
      if p !in sc.par then JsOut(st, JsThrow(JsErr("ReferenceError")))
      else JsOut(St(st.regs[dst := ParamAt(sc.par[p], i)], st.w), JsNext)
    case AssignOk(dst) => JsOut(St(st.regs[dst := Str("OK")], st.w), JsNext)
    case AssignCode(dst) =>
      if sc.caught.None? then JsOut(st, JsThrow(JsErr("ReferenceError")))
      else
        var e := sc.caught.value;
        JsOut(St(st.regs[dst := if e.ToolErr? then Str(e.code) else Undef], st.w), JsNext)
    case ForOf(v, src, body) =>
      if src !in st.regs then JsOut(st, JsThrow(JsErr("ReferenceError")))
      else
        (match Iterable(st.regs[src])
         case Err(e) => JsOut(st, JsThrow(e))
         case Ok(xs) => JsForOf(cfg, xs, v, body, sc, st))
    case IfElse(cond, thn, els) =>
      var c := JsOr(cfg, st.regs, st.w, None, cond);
      var st1 := St(st.regs, c.w);
      if c.r.Err? then JsOut(st1, JsThrow(c.r.error))
      else if c.r.value then JsExec(cfg, thn, sc, st1)
      else if els.Else? then JsExec(cfg, els.body, sc, st1)
      else JsOut(st1, JsNext)
    case ForCount(_, bound, body) => JsForCount(cfg, 0, bound, body, sc, st)
    case TryCatch(body, handler) =>
      var o := JsExec(cfg, body, sc, st);
      if o.flow.JsThrow? then JsExec(cfg, handler, sc.(caught := Some(o.flow.e)), o.st) else o
    case RethrowOthers =>
      if sc.caught.None? then JsOut(st, JsThrow(JsErr("ReferenceError")))
      else if !sc.caught.value.ToolErr? then JsOut(st, JsThrow(sc.caught.value))
      else JsOut(st, JsNext)
    case Break => JsOut(st, JsBreak)
    case RetValue(e) =>
      var r := JsEval(cfg, st.regs, st.w, None, e);
      JsOut(St(st.regs, r.w), if r.r.Err? then JsThrow(r.r.error) else JsReturn(Returned(r.r.value)))
    case RetStop => JsOut(st, JsReturn(Stopped))
    case RetAbort(reason, refs) => JsOut(st, JsReturn(Aborted(reason, refs)))
    case RetPause(ns) =>
      if ns <= st.regs.Keys then
        JsOut(st, JsReturn(Paused(map n | n in ns && !st.regs[n].Undef? :: st.regs[n])))
      else JsOut(st, JsThrow(JsErr("ReferenceError")))
  }

  function JsForOf(cfg: Config, xs: seq<Value>, v: nat, body: seq<JsStmt>, sc: Scope, st: St): JsOut
    decreases body, 1, |xs|
  {
    if xs == [] then JsOut(st, JsNext)
    else
      var o := JsExec(cfg, body, sc, St(st.regs[v := xs[0]], st.w));
      match o.flow
      case JsNext => JsForOf(cfg, xs[1..], v, body, sc, o.st)
      case JsBreak => JsOut(o.st, JsNext)
      case _ => o
  }

  /** The counted loop from `i` to `bound`; no statement assigns the counter. */
  function JsForCount(cfg: Config, i: nat, bound: nat, body: seq<JsStmt>, sc: Scope, st: St): JsOut
    decreases body, 1, if i <= bound then bound - i + 1 else 0
  {
    if i > bound then JsOut(st, JsNext)
    else
      var o := JsExec(cfg, body, sc, st);
      match o.flow
      case JsNext => JsForCount(cfg, i + 1, bound, body, sc, o.st)
      case JsBreak => JsOut(o.st, JsNext)
      case _ => o
  }

  // ---------------------------------------------------------------- whole programs

  /** `let` line, the `rt.initial` lines, and the body of `main`. */
  datatype JsProgram = JsProgram(declared: set<nat>, initial: set<nat>, body: seq<JsStmt>)

  function Declared(ns: set<nat>): Regs {
    map n | n in ns :: Undef
  }

  function JsRun(cfg: Config, p: JsProgram, w: World): JsOut {
    JsExec(cfg, p.body, Scope(map[], None), St(Declared(p.declared) + InitialRegs(cfg, p.initial), w))
  }
}
