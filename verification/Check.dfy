/** The flow-sensitive checker of core/typecheck.py as functions of the environment it mutates. */
module Check {
  import opened Common
  import opened Decimal
  import opened Ir

  type Env = map<nat, Type>

  datatype Code = Unbound | TypeMismatch | UnknownTool | UnknownField | MissingArg | Unreachable

  /** A diagnostic, without the words it is rendered in. */
  datatype Diag = Diag(code: Code, line: nat)

  datatype Typed = Typed(ty: Option<Type>, diags: seq<Diag>)

  /** Environment after, diagnostics and PAUSE environments in source order, and whether control never falls through. */
  datatype CheckOut = CheckOut(env: Env, diags: seq<Diag>, done: bool, pauses: seq<Env>)

  predicate IsNumeric(t: Type) {
    t.TInt? || t.TFloat? || t.TTime?
  }

  predicate Compatible(expected: Type, got: Type) {
    if got.TNull? || expected.TNull? then true
    else if expected.TId? && (got.TId? || got.TObj?) then expected.entity == got.entity
    else if IsNumeric(expected) && IsNumeric(got) then true
    else if expected.TList? && got.TList? then Compatible(expected.elem, got.elem)
    else expected == got
  }

  function FieldType(ctx: TaskContext, sym: string, entity: Entity, line: nat): Typed {
    if sym in ctx.fields && ctx.fields[sym].entity == Some(entity) then Typed(Some(ctx.fields[sym].ty), [])
    else Typed(None, [Diag(UnknownField, line)])
  }

  function RegType(env: Env, n: nat, line: nat): Typed {
    if n in env then Typed(Some(env[n]), []) else Typed(None, [Diag(Unbound, line)])
  }

  function OperandType(ctx: TaskContext, env: Env, op: Operand, line: nat): Typed {
    match op
    case OReg(n) => RegType(env, n, line)
    case ORegField(n, f) =>
      var base := RegType(env, n, line);
      if base.ty.None? then base
      else if !base.ty.value.TObj? then Typed(None, [Diag(TypeMismatch, line)])
      else FieldType(ctx, f, base.ty.value.entity, line)
    case OConst(sym) =>
      if sym in ctx.constants then Typed(Some(ctx.constants[sym].ty), []) else Typed(None, [Diag(Unbound, line)])
    case ONow => Typed(Some(TTime), [])
    case ONull => Typed(Some(TNull), [])
    case OInt(_) => Typed(Some(TInt), [])
  }

  function Mismatch(ok: bool, line: nat): seq<Diag> {
    if ok then [] else [Diag(TypeMismatch, line)]
  }

  function CheckCmp(cmp: Cmp, lt: Option<Type>, rt: Option<Type>, line: nat): seq<Diag> {
    if lt.None? || rt.None? then []
    else
      var l, r := lt.value, rt.value;
      match cmp
      case LT => Mismatch(IsNumeric(l) || l.TNull?, line) + Mismatch(IsNumeric(r) || r.TNull?, line)
      case GT => Mismatch(IsNumeric(l) || l.TNull?, line) + Mismatch(IsNumeric(r) || r.TNull?, line)
      case CONTAINS => Mismatch(if l.TStr? then r.TStr? || r.TNull? else l.TNull?, line)
      case IN =>
        if r.TNull? || l.TNull? then []
        else Mismatch(r.TList? && (Compatible(r.elem, l) || Compatible(l, r.elem)), line)
      case _ => Mismatch(Compatible(l, r) || Compatible(r, l), line)
  }

  /** The entity of a LIST OBJ:entity register. */
  function ListEntity(env: Env, n: nat, line: nat): (Option<Entity>, seq<Diag>) {
    if n !in env then (None, [Diag(Unbound, line)])
    else if env[n].TList? && env[n].elem.TObj? then (Some(env[n].elem.entity), [])
    else (None, [Diag(TypeMismatch, line)])
  }

  /** Clauses the parser does not build (a FILTER clause without a field on its left, an IF clause with a bare
      field) count as unresolvable. */
  function CheckFilterClause(ctx: TaskContext, env: Env, c: Clause, entity: Entity, line: nat): seq<Diag> {
    var l := if c.left.LField? then FieldType(ctx, c.left.field, entity, line)
        else Typed(None, [Diag(UnknownField, line)]);
    var r := match c.right
      case RElem(f) => FieldType(ctx, f, entity, line)
      case ROp(op) => OperandType(ctx, env, op, line)
      case RNone => Typed(None, [Diag(Unbound, line)]);
    l.diags + r.diags + CheckCmp(c.cmp, l.ty, r.ty, line)
  }

  function CheckCondClause(ctx: TaskContext, env: Env, c: Clause, line: nat): seq<Diag> {
    var l := if c.left.LOp? then OperandType(ctx, env, c.left.op, line) else Typed(None, [Diag(Unbound, line)]);
    if c.cmp.EMPTY? then
      l.diags + (if l.ty.Some? then Mismatch(l.ty.value.TList? || l.ty.value.TNull?, line) else [])
    else
      var r := if c.right.ROp? then OperandType(ctx, env, c.right.op, line) else Typed(None, [Diag(Unbound, line)]);
      l.diags + r.diags + CheckCmp(c.cmp, l.ty, r.ty, line)
  }

  function CheckFilter(ctx: TaskContext, env: Env, cs: seq<Clause>, entity: Entity, line: nat): seq<Diag> {
    if cs == [] then []
    else CheckFilterClause(ctx, env, cs[0], entity, line) + CheckFilter(ctx, env, cs[1..], entity, line)
  }

  function CheckCond(ctx: TaskContext, env: Env, cs: seq<Clause>, line: nat): seq<Diag> {
    if cs == [] then [] else CheckCondClause(ctx, env, cs[0], line) + CheckCond(ctx, env, cs[1..], line)
  }

  // ---------------------------------------------------------------- calls

  /** Parameter `i` on, against the positional arguments. */
  function CheckArgs(ctx: TaskContext, env: Env, params: seq<Param>, args: seq<Operand>, i: nat, line: nat): seq<Diag>
    requires i <= |params|
    decreases |params| - i
  {
    if i == |params| then []
    else
      var here :=
        if i >= |args| then (if params[i].required then [Diag(MissingArg, line)] else [])
        else if args[i].ONull? && params[i].required then [Diag(MissingArg, line)]
        else
          var at := OperandType(ctx, env, args[i], line);
          at.diags + (if at.ty.Some? then Mismatch(Compatible(params[i].ty, at.ty.value), line) else []);
      here + CheckArgs(ctx, env, params, args, i + 1, line)
  }

  function CheckCall(ctx: TaskContext, env: Env, c: CallI): seq<Diag> {
    if c.tool !in ctx.tools then [Diag(UnknownTool, c.line)]
    else
      var params := ctx.tools[c.tool].params;
      CheckArgs(ctx, env, params, c.args, 0, c.line) + Mismatch(|c.args| <= |params|, c.line)
  }

  function ResultType(ctx: TaskContext, tool: string): Type {
    if tool in ctx.tools && ctx.tools[tool].result.Some? then ctx.tools[tool].result.value else TNull
  }

  function AfterCall(ctx: TaskContext, env: Env, c: CallI): Env {
    if c.tool in ctx.tools && c.dst.Some? then env[c.dst.value := ResultType(ctx, c.tool)] else env
  }

  function CallDstSet(calls: seq<CallI>): set<nat> {
    set i | 0 <= i < |calls| && calls[i].dst.Some? :: calls[i].dst.value
  }

  /** Operands of a PARALLEL call that name a register the block binds. */
  function CheckFresh(args: seq<Operand>, dsts: set<nat>, line: nat): seq<Diag> {
    if args == [] then []
    else
      var a := args[0];
      (if (a.OReg? || a.ORegField?) && a.n in dsts then [Diag(Unbound, line)] else []) +
          CheckFresh(args[1..], dsts, line)
  }

  function CheckParallel(ctx: TaskContext, env: Env, calls: seq<CallI>, dsts: set<nat>): seq<Diag> {
    if calls == [] then []
    else
      CheckFresh(calls[0].args, dsts, calls[0].line) + CheckCall(ctx, env, calls[0]) +
      CheckParallel(ctx, env, calls[1..], dsts)
  }

  function BindParallel(ctx: TaskContext, env: Env, calls: seq<CallI>): Env
    decreases calls
  {
    if calls == [] then env
    else
      BindParallel(ctx, if calls[0].dst.Some? then env[calls[0].dst.value := ResultType(ctx, calls[0].tool)] else env,
                   calls[1..])
  }

  // ---------------------------------------------------------------- FORMAT

  /** The numbers in braces in a template. */
  function Slots(s: string): set<string> {
    if s == "" then {}
    else
      var k := FrontDigits(s[1..]);
      if s[0] == '{' && k > 0 && k + 1 < |s| && s[k + 1] == '}' then {s[1..k + 1]} + Slots(s[k + 2..])
      else Slots(s[1..])
  }

  function Numerals(n: nat): set<string> {
    set i | 0 <= i < n :: Show(i)
  }

  function CheckTemplate(ctx: TaskContext, sym: string, n: nat, line: nat): seq<Diag> {
    if sym !in ctx.constants then [Diag(Unbound, line)]
    else if ctx.constants[sym].ty != TStr then [Diag(TypeMismatch, line)]
    else Mismatch(Slots(ctx.constants[sym].text) == Numerals(n), line)
  }

  predicate Renderable(t: Type) {
    t.TStr? || t.TInt? || t.TTime? || t.TId?
  }

  function CheckSlots(ctx: TaskContext, env: Env, ops: seq<Operand>, line: nat): seq<Diag> {
    if ops == [] then []
    else
      var t := OperandType(ctx, env, ops[0], line);
      t.diags + (if t.ty.Some? then Mismatch(Renderable(t.ty.value), line) else []) +
          CheckSlots(ctx, env, ops[1..], line)
  }

  // ---------------------------------------------------------------- instructions

  function Fall(env: Env, diags: seq<Diag>): CheckOut {
    CheckOut(env, diags, false, [])
  }

  function BindIf(env: Env, dst: nat, t: Option<Type>): Env {
    if t.Some? then env[dst := t.value] else env
  }

  function CheckMost(ctx: TaskContext, env: Env, src: nat, f: string, cands: Option<nat>, dst: nat,
                     line: nat): CheckOut {
    var (e, d0) := ListEntity(env, src, line);
    var ft := if e.Some? then FieldType(ctx, f, e.value, line) else Typed(None, []);
    var env1 := BindIf(env, dst, ft.ty);
    var d1 :=
      if cands.None? then []
      else if cands.value !in env1 then [Diag(Unbound, line)]
      else if ft.ty.None? then []
      else Mismatch(ft.ty.value.TId? && env1[cands.value] == TList(TObj(ft.ty.value.entity)), line);
    Fall(env1, d0 + ft.diags + d1)
  }

  function CheckSort(ctx: TaskContext, env: Env, src: nat, f: string, dst: nat, line: nat): CheckOut {
    var (e, d0) := ListEntity(env, src, line);
    if e.Some? then
      var ft := FieldType(ctx, f, e.value, line);
      var ok := ft.ty.None? || ft.ty.value.TInt? || ft.ty.value.TTime? || ft.ty.value.TStr? || ft.ty.value.TBool?;
      Fall(env[dst := env[src]], d0 + ft.diags + Mismatch(ok, line))
    else Fall(env, d0)
  }

  /** The element type of a LIST register. */
  function ElemType(env: Env, n: nat, line: nat): Typed {
    var t := RegType(env, n, line);
    if t.ty.None? then t
    else if t.ty.value.TList? then Typed(Some(t.ty.value.elem), [])
    else Typed(None, [Diag(TypeMismatch, line)])
  }

  /** Bindings both arms agree on. */
  function Merged(a: Env, b: Env): Env {
    map n | n in a && n in b && a[n] == b[n] :: a[n]
  }

  function RefKinds(reason: string): string {
    if reason == "NOT_FOUND" || reason == "UNSUPPORTED" then "CSNBDI"
    else if reason == "NEEDS_INFO" then "F"
    else if reason == "AMBIGUOUS" then "TFCSNBDI"
    else ""
  }

  function CheckRefs(ctx: TaskContext, reason: string, refs: seq<string>, line: nat): seq<Diag> {
    if refs == [] then []
    else
      var r := refs[0];
      (if r == "" || r[0] !in RefKinds(reason) then [Diag(TypeMismatch, line)]
       else if r[0] == 'T' then (if r in ctx.tools then [] else [Diag(UnknownTool, line)])
       else if r[0] == 'F' then (if r in ctx.fields then [] else [Diag(UnknownField, line)])
       else if r in ctx.constants then [] else [Diag(Unbound, line)])
      + CheckRefs(ctx, reason, refs[1..], line)
  }

  function CheckStmt(ctx: TaskContext, s: Stmt, env: Env): CheckOut
    decreases s
  {
    var ln := s.line;
    match s.instr
    case Let(op, dst) =>
      var t := OperandType(ctx, env, op, ln);
      Fall(BindIf(env, dst, t.ty), t.diags)
    case Get(src, f, dst) =>
      var t := OperandType(ctx, env, ORegField(src, f), ln);
      Fall(BindIf(env, dst, t.ty), t.diags)
    case DoCall(c) => Fall(AfterCall(ctx, env, c), CheckCall(ctx, env, c))
    case Filter(src, p, dst) =>
      var (e, d0) := ListEntity(env, src, ln);
      if e.Some? then Fall(env[dst := env[src]], d0 + CheckFilter(ctx, env, p.clauses, e.value, ln))
      else Fall(env, d0)
    case MapF(src, f, dst) =>
      var (e, d0) := ListEntity(env, src, ln);
      if e.Some? then
        var ft := FieldType(ctx, f, e.value, ln);
        Fall(if ft.ty.Some? then env[dst := TList(ft.ty.value)] else env, d0 + ft.diags)
      else Fall(env, d0)
    case Format(template, ops, dst, _) =>
      Fall(env[dst := TStr], CheckTemplate(ctx, template, |ops|, ln) + CheckSlots(ctx, env, ops, ln))
    case Count(src, dst) => Fall(env[dst := TInt], ElemType(env, src, ln).diags)
    case Most(src, f, cands, dst, _) => CheckMost(ctx, env, src, f, cands, dst, ln)
    case Sort(src, f, _, dst) => CheckSort(ctx, env, src, f, dst, ln)
    case Select(src, idx, dst) =>
      var i := OperandType(ctx, env, idx, ln);
      var t := ElemType(env, src, ln);
      Fall(BindIf(env, dst, t.ty), i.diags + t.diags + (if i.ty.Some? then Mismatch(i.ty.value.TInt?, ln) else []))
    case First(src, dst) =>
      var t := ElemType(env, src, ln);
      Fall(BindIf(env, dst, t.ty), t.diags)
    case Foreach(src, v, body) =>
      var t := ElemType(env, src, ln);
      if t.ty.None? then Fall(env, t.diags)
      else
        var o := CheckBlock(ctx, body, env[v := t.ty.value]);
        CheckOut(o.env, t.diags + o.diags, false, o.pauses)
    case If(cond, thn, els) =>
      var d0 := CheckCond(ctx, env, cond.clauses, ln);
      var t := CheckBlock(ctx, thn, env);
      (match els
       case NoElse => CheckOut(env, d0 + t.diags, false, t.pauses)
       case Else(b) =>
         var e := CheckBlock(ctx, b, env);
         var env1 := if t.done && e.done then env else if t.done then e.env
           else if e.done then t.env else Merged(t.env, e.env);
         CheckOut(env1, d0 + t.diags + e.diags, t.done && e.done, t.pauses + e.pauses))
    case Parallel(calls) =>
      Fall(BindParallel(ctx, env, calls), CheckParallel(ctx, env, calls, CallDstSet(calls)))
    case Try(_, dst, body) =>
      var o := CheckBlock(ctx, body, env);
      CheckOut(o.env[dst := TStatus], o.diags, false, o.pauses)
    case Return(op) => CheckOut(env, OperandType(ctx, env, op, ln).diags, true, [])
    case Stop => CheckOut(env, [], true, [])
    case Abort(reason, refs) => CheckOut(env, CheckRefs(ctx, reason, refs, ln), true, [])
    case Pause => CheckOut(env, [], true, [env])
  }

  function AllUnreachable(body: seq<Stmt>): seq<Diag> {
    seq(|body|, i requires 0 <= i < |body| => Diag(Unreachable, body[i].line))
  }

  function CheckBlock(ctx: TaskContext, body: seq<Stmt>, env: Env): CheckOut
    decreases body
  {
    if body == [] then Fall(env, [])
    else
      var h := CheckStmt(ctx, body[0], env);
      if h.done then h.(diags := h.diags + AllUnreachable(body[1..]))
      else
        var t := CheckBlock(ctx, body[1..], h.env);
        CheckOut(t.env, h.diags + t.diags, t.done, h.pauses + t.pauses)
  }

  function CheckProgram(ctx: TaskContext, body: seq<Stmt>): CheckOut {
    CheckBlock(ctx, body, ctx.initial)
  }

  /** The program compiles: no diagnostics. */
  predicate Clean(ctx: TaskContext, body: seq<Stmt>, env: Env) {
    CheckBlock(ctx, body, env).diags == []
  }

  predicate StmtClean(ctx: TaskContext, s: Stmt, env: Env) {
    CheckStmt(ctx, s, env).diags == []
  }

  /** A clean block is a clean statement followed by a clean block, and nothing follows a terminator. */
  lemma {:induction false} CleanSplit(ctx: TaskContext, body: seq<Stmt>, env: Env)
    requires body != [] && Clean(ctx, body, env)
    ensures StmtClean(ctx, body[0], env)
    ensures CheckStmt(ctx, body[0], env).done ==> |body| == 1
    ensures !CheckStmt(ctx, body[0], env).done ==> Clean(ctx, body[1..], CheckStmt(ctx, body[0], env).env)
  {
    hide CheckStmt;
    var h := CheckStmt(ctx, body[0], env);
    if h.done {
      assert |CheckBlock(ctx, body, env).diags| == |h.diags| + |AllUnreachable(body[1..])|;
      assert |AllUnreachable(body[1..])| == |body| - 1;
    } else {
      var t := CheckBlock(ctx, body[1..], h.env);
      assert |h.diags + t.diags| == |h.diags| + |t.diags|;
    }
  }
}
