/** A direct semantics of Agent Core programs: what section 4 of the language's own
    specification (spec/agent_core.md) says each instruction does, over the sandbox's `rt` surface.
    It knows nothing of loops with counters, exceptions caught by handlers, or emitted code. */
module Semantics {
  import opened Common
  import opened Ir
  import opened Runtime

  /** The registers assigned so far. Reading any other yields `undefined`. */
  type Regs = map<nat, Value>

  datatype Marker =
    | Returned(v: Value)
    | Stopped
    | Aborted(reason: string, refs: seq<string>)
    | Paused(regs: Regs)

  datatype Flow = Next | Done(m: Marker) | Fail(e: Exn)

  datatype St = St(regs: Regs, w: World)

  datatype Out = Out(st: St, flow: Flow)

  datatype StepAll = StepAll(w: World, r: Res<seq<Value>, Exn>)

  datatype StepBool = StepBool(w: World, r: Res<bool, Exn>)

  function Lookup(regs: Regs, n: nat): Value {
    if n in regs then regs[n] else Undef
  }

  // ---------------------------------------------------------------- operands and predicates

  function EvalOp(cfg: Config, regs: Regs, w: World, op: Operand): Step {
    match op
    case OReg(n) => Step(w, Ok(Lookup(regs, n)))
    case ORegField(n, f) => RtFld(cfg, w, Lookup(regs, n), f)
    case OConst(sym) => Step(w, RtConstant(cfg, sym))
    case ONow => Step(w, Ok(Num(cfg.now)))
    case ONull => Step(w, Ok(Nil))
    case OInt(v) => Step(w, Ok(Num(v)))
  }

  function EvalOps(cfg: Config, regs: Regs, w: World, ops: seq<Operand>): StepAll
    decreases ops
  {
    if ops == [] then StepAll(w, Ok([]))
    else
      var h := EvalOp(cfg, regs, w, ops[0]);
      match h.r
      case Err(e) => StepAll(h.w, Err(e))
      case Ok(v) =>
        var t := EvalOps(cfg, regs, h.w, ops[1..]);
        match t.r
        case Err(e) => StepAll(t.w, Err(e))
        case Ok(vs) => StepAll(t.w, Ok([v] + vs))
  }

  function ElemFld(cfg: Config, w: World, elem: Option<Value>, f: string): Step {
    match elem
    case None => Step(w, Err(JsErr("ReferenceError")))
    case Some(x) => RtFld(cfg, w, x, f)
  }

  function EvalLeft(cfg: Config, regs: Regs, w: World, elem: Option<Value>, l: Left): Step {
    match l
    case LField(f) => ElemFld(cfg, w, elem, f)
    case LOp(op) => EvalOp(cfg, regs, w, op)
  }

  function EvalRight(cfg: Config, regs: Regs, w: World, elem: Option<Value>, r: Right): Step {
    match r
    case RElem(f) => ElemFld(cfg, w, elem, f)
    case ROp(op) => EvalOp(cfg, regs, w, op)
    case RNone => Step(w, Err(JsErr("ReferenceError")))
  }

  /** The comparison of one clause, before its NOT. */
  function EvalTest(cfg: Config, regs: Regs, w: World, elem: Option<Value>, c: Clause): Step {
    var l := EvalLeft(cfg, regs, w, elem, c.left);
    match l.r
    case Err(e) => l
    case Ok(a) =>
      if c.cmp.EMPTY? then RtEmpty(cfg, l.w, a)
      else
        var r := EvalRight(cfg, regs, l.w, elem, c.right);
        match r.r
        case Err(e) => r
        case Ok(b) => RtCmp(cfg, r.w, c.cmp, a, b)
  }

  function AsBool(s: Step, neg: bool): StepBool {
    match s.r
    case Err(e) => StepBool(s.w, Err(e))
    case Ok(v) => StepBool(s.w, Ok((v == Bool(true)) != neg))
  }

  function EvalClause(cfg: Config, regs: Regs, w: World, elem: Option<Value>, c: Clause): StepBool {
    AsBool(EvalTest(cfg, regs, w, elem, c), c.neg)
  }

  /** The index after the first OR at or after `i`; |clauses| when there is none. */
  function NextGroup(p: Pred, i: nat): (j: nat)
    requires i < |p.clauses|
    ensures i < j <= |p.clauses|
    ensures j < |p.clauses| ==> p.ops[j - 1] == OR
    decreases |p.clauses| - i
  {
    if i == |p.ops| || p.ops[i] == OR then i + 1 else NextGroup(p, i + 1)
  }

  /** A predicate is a disjunction of AND-groups, read left to right: a true clause that ends its group
      decides the predicate, a false one skips to the next group, and nothing else is evaluated. */
  function EvalFrom(cfg: Config, regs: Regs, w: World, elem: Option<Value>, p: Pred, i: nat): StepBool
    requires i < |p.clauses|
    decreases |p.clauses| - i
  {
    var c := EvalClause(cfg, regs, w, elem, p.clauses[i]);
    match c.r
    case Err(e) => c
    case Ok(b) =>
      if b then
        if i == |p.ops| || p.ops[i] == OR then c else EvalFrom(cfg, regs, c.w, elem, p, i + 1)
      else
        var j := NextGroup(p, i);
        if j == |p.clauses| then c else EvalFrom(cfg, regs, c.w, elem, p, j)
  }

  function EvalPred(cfg: Config, regs: Regs, w: World, elem: Option<Value>, p: Pred): StepBool {
    EvalFrom(cfg, regs, w, elem, p, 0)
  }

  function Keep(cfg: Config, regs: Regs, w: World, p: Pred, xs: seq<Value>): StepAll
    decreases xs
  {
    if xs == [] then StepAll(w, Ok([]))
    else
      var b := EvalPred(cfg, regs, w, Some(xs[0]), p);
      match b.r
      case Err(e) => StepAll(b.w, Err(e))
      case Ok(keep) =>
        var t := Keep(cfg, regs, b.w, p, xs[1..]);
        match t.r
        case Err(e) => t
        case Ok(vs) => StepAll(t.w, Ok((if keep then [xs[0]] else []) + vs))
  }

  function AsList(s: StepAll): Step {
    match s.r
    case Err(e) => Step(s.w, Err(e))
    case Ok(vs) => Step(s.w, Ok(List(vs)))
  }

  // ---------------------------------------------------------------- instructions that bind one register

  predicate IsSimple(i: Instr) {
    i.Let? || i.Get? || i.Format? || i.Filter? || i.MapF? || i.Count? || i.Most? || i.Sort? || i.Select? || i.First?
  }

  function SimpleValue(cfg: Config, regs: Regs, w: World, i: Instr): Step
    requires IsSimple(i)
  {
    match i
    case Let(op, _) => EvalOp(cfg, regs, w, op)
    case Get(src, f, _) => RtFld(cfg, w, Lookup(regs, src), f)
    case Format(template, ops, _, kinds) =>
      (match RtConstant(cfg, template)
       case Err(e) => Step(w, Err(e))
       case Ok(t) =>
         var vs := EvalOps(cfg, regs, w, ops);
         match vs.r
         case Err(e) => Step(vs.w, Err(e))
         case Ok(vals) => RtFormat(cfg, vs.w, t, vals, kinds))
    case Filter(src, p, _) =>
      var v := Lookup(regs, src);
      if v.List? then AsList(Keep(cfg, regs, w, p, v.elems)) else Step(w, TypeError())
    case MapF(src, f, _) => RtMap(cfg, w, Lookup(regs, src), f)
    case Count(src, _) => Step(w, RtCount(Lookup(regs, src)))
    case Most(src, f, cands, _, least) =>
      RtExtreme(cfg, w, Lookup(regs, src), f, if cands.Some? then Lookup(regs, cands.value) else Nil, least)
    case Sort(src, f, desc, _) => RtSort(cfg, w, Lookup(regs, src), f, desc)
    case Select(src, idx, _) =>
      var i := EvalOp(cfg, regs, w, idx);
      (match i.r
       case Err(e) => i
       case Ok(n) => RtSelect(cfg, i.w, Lookup(regs, src), n))
    case First(src, _) => Step(w, RtFirst(Lookup(regs, src)))
  }

  function Bind(regs: Regs, dst: nat, s: Step): Out {
    match s.r
    case Err(e) => Out(St(regs, s.w), Fail(e))
    case Ok(v) => Out(St(regs[dst := v], s.w), Next)
  }

  function BindOption(regs: Regs, dst: Option<nat>, s: Step): Out {
    match s.r
    case Err(e) => Out(St(regs, s.w), Fail(e))
    case Ok(v) => Out(St(if dst.Some? then regs[dst.value := v] else regs, s.w), Next)
  }

  // ---------------------------------------------------------------- calls

  function CallStep(cfg: Config, regs: Regs, w: World, c: CallI): Step {
    var a := EvalOps(cfg, regs, w, c.args);
    match a.r
    case Err(e) => Step(a.w, Err(e))
    case Ok(args) => RtCall(cfg, a.w, c.tool, args)
  }

  /** The calls of a PARALLEL block, in order. A failed call does not stop the later ones; the first failure
      is the one reported. An operand that faults stops the block where it stands. */
  datatype ParOut =
    | Faulted(w: World, fault: Exn)
    | Settled(w: World, vals: seq<Value>, failure: Option<Exn>)

  function RunCalls(cfg: Config, regs: Regs, w: World, calls: seq<CallI>): ParOut
    decreases calls
  {
    if calls == [] then Settled(w, [], None)
    else
      var a := EvalOps(cfg, regs, w, calls[0].args);
      match a.r
      case Err(e) => Faulted(a.w, e)
      case Ok(args) =>
        var s := RtCall(cfg, a.w, calls[0].tool, args);
        match RunCalls(cfg, regs, s.w, calls[1..])
        case Faulted(w', e) => Faulted(w', e)
        case Settled(w', vals, failure) =>
          Settled(w', [if s.r.Ok? then s.r.value else Undef] + vals, if s.r.Err? then Some(s.r.error) else failure)
  }

  function BindAll(regs: Regs, calls: seq<CallI>, vals: seq<Value>): Regs
    requires |vals| == |calls|
    decreases calls
  {
    if calls == [] then regs
    else BindAll(if calls[0].dst.Some? then regs[calls[0].dst.value := vals[0]] else regs, calls[1..], vals[1..])
  }

  lemma {:induction false} SettledLength(cfg: Config, regs: Regs, w: World, calls: seq<CallI>)
    ensures var o := RunCalls(cfg, regs, w, calls); o.Settled? ==> |o.vals| == |calls|
    decreases calls
  {
    hide RtCall;
    hide EvalOps;
    if calls != [] {
      var a := EvalOps(cfg, regs, w, calls[0].args);
      if a.r.Ok? {
        SettledLength(cfg, regs, RtCall(cfg, a.w, calls[0].tool, a.r.value).w, calls[1..]);
      }
    }
  }

  function ParallelOut(cfg: Config, st: St, calls: seq<CallI>): Out {
    SettledLength(cfg, st.regs, st.w, calls);
    match RunCalls(cfg, st.regs, st.w, calls)
    case Faulted(w, e) => Out(St(st.regs, w), Fail(e))
    case Settled(w, vals, failure) =>
      if failure.Some? then Out(St(st.regs, w), Fail(failure.value))
      else Out(St(BindAll(st.regs, calls, vals), w), Next)
  }

  // ---------------------------------------------------------------- registers a text can assign

  function CallDsts(calls: seq<CallI>): set<nat> {
    if calls == [] then {} else (if calls[0].dst.Some? then {calls[0].dst.value} else {}) + CallDsts(calls[1..])
  }

  /** Every register some instruction of the block names as a destination. */
  function Dsts(body: seq<Stmt>): set<nat>
    decreases body
  {
    if body == [] then {} else StmtDsts(body[0]) + Dsts(body[1..])
  }

  function StmtDsts(s: Stmt): set<nat>
    decreases s
  {
    match s.instr
    case DoCall(c) => CallDsts([c])
    case Foreach(_, v, b) => {v} + Dsts(b)
    case If(_, t, e) => Dsts(t) + (if e.Else? then Dsts(e.body) else {})
    case Parallel(calls) => CallDsts(calls)
    case Try(_, d, b) => {d} + Dsts(b)
    case Return(_) => {}
    case Stop => {}
    case Pause => {}
    case Abort(_, _) => {}
    case i => {i.dst}
  }

  // ---------------------------------------------------------------- statements

  function Enter(st: St, line: nat): St {
    if line == 0 then st else st.(w := MarkLine(st.w, line))
  }

  /** PAUSE hands back the bound registers, restricted to those assigned textually before it (`seen`). */
  function PauseRegs(regs: Regs, seen: set<nat>): Regs {
    map n | n in regs && n in seen && !regs[n].Undef? :: regs[n]
  }

  function ExecBlock(cfg: Config, body: seq<Stmt>, seen: set<nat>, st: St): Out
    decreases body, 0, 0
  {
    if body == [] then Out(st, Next)
    else
      var o := ExecStmt(cfg, body[0], seen, st);
      if o.flow.Next? then ExecBlock(cfg, body[1..], seen + StmtDsts(body[0]), o.st) else o
  }

  function ExecStmt(cfg: Config, s: Stmt, seen: set<nat>, st0: St): Out
    decreases s, 0, 0
  {
    var st := Enter(st0, s.line);
    match s.instr
    case DoCall(c) => BindOption(st.regs, c.dst, CallStep(cfg, st.regs, st.w, c))
    case Foreach(src, v, body) =>
      (match Iterable(Lookup(st.regs, src))
       case Err(e) => Out(st, Fail(e))
       case Ok(xs) => ExecEach(cfg, xs, v, body, seen + {v}, st))
    case If(cond, thn, els) =>
      var c := EvalPred(cfg, st.regs, st.w, None, cond);
      var st1 := St(st.regs, c.w);
      (match c.r
       case Err(e) => Out(st1, Fail(e))
       case Ok(b) =>
         if b then ExecBlock(cfg, thn, seen, st1)
         else if els.Else? then ExecBlock(cfg, els.body, seen + Dsts(thn), st1)
         else Out(st1, Next))
    case Parallel(calls) => ParallelOut(cfg, st, calls)
    case Try(retry, dst, body) => ExecTry(cfg, retry, dst, body, seen + {dst}, St(st.regs[dst := Str("OK")], st.w))
    case Return(op) =>
      var v := EvalOp(cfg, st.regs, st.w, op);
      Out(St(st.regs, v.w), match v.r case Err(e) => Fail(e) case Ok(x) => Done(Returned(x)))
    case Stop => Out(st, Done(Stopped))
    case Pause => Out(st, Done(Paused(PauseRegs(st.regs, seen))))
    case Abort(reason, refs) => Out(st, Done(Aborted(reason, refs)))
    case i => Bind(st.regs, i.dst, SimpleValue(cfg, st.regs, st.w, i))
  }

  function ExecEach(cfg: Config, xs: seq<Value>, v: nat, body: seq<Stmt>, seen: set<nat>, st: St): Out
    decreases body, 1, |xs|
  {
    if xs == [] then Out(st, Next)
    else
      var o := ExecBlock(cfg, body, seen, St(st.regs[v := xs[0]], st.w));
      if o.flow.Next? then ExecEach(cfg, xs[1..], v, body, seen, o.st) else o
  }

  /** Run the body; on a tool error record its code and re-run while `left` further attempts remain. */
  function ExecTry(cfg: Config, left: nat, dst: nat, body: seq<Stmt>, seen: set<nat>, st: St): Out
    decreases body, 1, left
  {
    var o := ExecBlock(cfg, body, seen, st);
    if o.flow.Next? then Out(St(o.st.regs[dst := Str("OK")], o.st.w), Next)
    else if o.flow.Fail? && o.flow.e.ToolErr? then
      var st1 := St(o.st.regs[dst := Str(o.flow.e.code)], o.st.w);
      if left > 0 then ExecTry(cfg, left - 1, dst, body, seen, st1) else Out(st1, Next)
    else o
  }

  /** Entering a statement's line twice is entering it once. */
  lemma EnterOnce(cfg: Config, s: Stmt, seen: set<nat>, st: St)
    ensures ExecStmt(cfg, s, seen, st) == ExecStmt(cfg, At(0, s.instr), seen, Enter(st, s.line))
  {
    hide ExecBlock;
    hide ExecEach;
    hide ExecTry;
  }

  // ---------------------------------------------------------------- whole runs

  /** A run of a whole program: falling off the end is STOP. */
  function RunBody(cfg: Config, body: seq<Stmt>, init: set<nat>, w: World): Out {
    var o := ExecBlock(cfg, body, init, St(InitialRegs(cfg, init), w));
    if o.flow.Next? then Out(o.st, Done(Stopped)) else o
  }

  /** Every register of the context's `initial_registers` starts with its seeded value. */
  function InitialRegs(cfg: Config, init: set<nat>): Regs {
    map n | n in init :: Lookup(cfg.initial, n)
  }
}
