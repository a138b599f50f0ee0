/** Type preservation over whole runs. */
module Typing {
  import opened Common
  import opened Ir
  import opened Runtime
  import opened Semantics
  import opened Effects
  import opened Check

  // ---------------------------------------------------------------- values of a type

  predicate IsId(v: Value) {
    v.Str? || v.Num? || Absent(v)
  }

  /** `v` is null, unbound, or of type `t`. A record carries an id, and each declared field of its entity fits. */
  ghost predicate Fits(ctx: TaskContext, v: Value, t: Type)
    decreases v
  {
    Absent(v) ||
    match t
    case TInt => v.Num?
    case TFloat => v.Num?
    case TTime => v.Num?
    case TStr => v.Str?
    case TStatus => v.Str?
    case TBool => v.Bool?
    case TNull => false
    case TId(_) => v.Str? || v.Num?
    case TObj(e) =>
      v.Rec? && "id" in v.fields && IsId(v.fields["id"]) &&
      forall sym | sym in ctx.fields && ctx.fields[sym].entity == Some(e) && ctx.fields[sym].name in v.fields ::
        Fits(ctx, v.fields[ctx.fields[sym].name], ctx.fields[sym].ty)
    case TList(u) => v.List? && forall i | 0 <= i < |v.elems| :: Fits(ctx, v.elems[i], u)
  }

  ghost predicate AllFit(ctx: TaskContext, xs: seq<Value>, t: Type) {
    forall i | 0 <= i < |xs| :: Fits(ctx, xs[i], t)
  }

  /** Registers against a global typing. */
  ghost predicate RegsFit(ctx: TaskContext, gamma: Env, regs: Regs) {
    forall n | n in regs && n in gamma :: Fits(ctx, regs[n], gamma[n])
  }

  predicate EnvIn(env: Env, gamma: Env) {
    forall n | n in env :: n in gamma && gamma[n] == env[n]
  }

  // ---------------------------------------------------------------- no register at two types

  /** Every binding the checker makes while walking the block agrees with `gamma`. */
  predicate OneType(ctx: TaskContext, body: seq<Stmt>, env: Env, gamma: Env)
    decreases body
  {
    body == [] ||
    (StmtOneType(ctx, body[0], env, gamma) && OneType(ctx, body[1..], CheckStmt(ctx, body[0], env).env, gamma))
  }

  predicate StmtOneType(ctx: TaskContext, s: Stmt, env: Env, gamma: Env)
    decreases s
  {
    EnvIn(CheckStmt(ctx, s, env).env, gamma) &&
    match s.instr
    case Foreach(src, v, body) =>
      var t := ElemType(env, src, s.line).ty;
      t.Some? ==> v in gamma && gamma[v] == t.value && OneType(ctx, body, env[v := t.value], gamma)
    case If(_, thn, els) =>
      OneType(ctx, thn, env, gamma) && (match els case NoElse => true case Else(b) => OneType(ctx, b, env, gamma))
    case Try(_, _, body) => OneType(ctx, body, env, gamma)
    case Parallel(calls) => ResultsIn(ctx, calls, gamma)
    case _ => true
  }

  predicate ResultsIn(ctx: TaskContext, calls: seq<CallI>, gamma: Env) {
    forall i | 0 <= i < |calls| && calls[i].dst.Some? ::
      calls[i].dst.value in gamma && gamma[calls[i].dst.value] == ResultType(ctx, calls[i].tool)
  }

  // ---------------------------------------------------------------- no MOST or LEAST over a record-typed field

  /** MOST and LEAST answer a counted record by its id, but the checker types the answer as the field: no instruction of
      the block counts a field declared OBJ. */
  predicate CountsNoRecords(ctx: TaskContext, body: seq<Stmt>)
    decreases body
  {
    body == [] || (StmtCountsNoRecords(ctx, body[0]) && CountsNoRecords(ctx, body[1..]))
  }

  predicate StmtCountsNoRecords(ctx: TaskContext, s: Stmt)
    decreases s
  {
    match s.instr
    case Most(_, f, _, _, _) => f in ctx.fields ==> !ctx.fields[f].ty.TObj?
    case Foreach(_, _, b) => CountsNoRecords(ctx, b)
    case If(_, t, e) => CountsNoRecords(ctx, t) && (match e case NoElse => true case Else(b) => CountsNoRecords(ctx, b))
    case Try(_, _, b) => CountsNoRecords(ctx, b)
    case _ => true
  }

  // ---------------------------------------------------------------- a host that keeps its declarations

  /** Fields and constants mean in the sandbox what the context declares. */
  ghost predicate HostTyped(cfg: Config, ctx: TaskContext) {
    && (forall sym | sym in ctx.fields :: sym in cfg.fields && cfg.fields[sym] == ctx.fields[sym].name)
    && (forall sym | sym in ctx.constants && sym in cfg.constants ::
        Fits(ctx, cfg.constants[sym], ctx.constants[sym].ty))
  }

  /** An argument is acceptable for a parameter: it fits some type the checker would let through. */
  ghost predicate ArgFits(ctx: TaskContext, v: Value, t: Type) {
    exists got :: Compatible(t, got) && Fits(ctx, v, got)
  }

  ghost predicate ArgsFit(ctx: TaskContext, sym: string, args: seq<Value>) {
    sym in ctx.tools && |args| <= |ctx.tools[sym].params| &&
    forall i | 0 <= i < |args| :: ArgFits(ctx, args[i], ctx.tools[sym].params[i].ty)
  }

  type WorldInv = World -> bool

  /** In worlds satisfying `inv`, the tools of `syms` given acceptable arguments return values of their declared types,
      and `inv` holds again, as it does after budget and line updates. */
  ghost predicate ToolsTyped(cfg: Config, ctx: TaskContext, inv: WorldInv, syms: set<string>) {
    && (forall w {:trigger Tick(w)} | inv(w) :: inv(Tick(w)))
    && (forall w, l: nat {:trigger MarkLine(w, l)} | inv(w) :: inv(MarkLine(w, l)))
    && (forall w, sym, args {:trigger RtCall(cfg, w, sym, args)} | inv(w) && sym in syms && ArgsFit(ctx, sym, args) ::
          var s := RtCall(cfg, w, sym, args); inv(s.w) && (s.r.Ok? ==> Fits(ctx, s.r.value, ResultType(ctx, sym))))
  }

  // ---------------------------------------------------------------- operands

  ghost predicate StepFits(ctx: TaskContext, inv: WorldInv, s: Step, t: Option<Type>) {
    inv(s.w) && (s.r.Ok? && t.Some? ==> Fits(ctx, s.r.value, t.value))
  }

  lemma LookupFits(ctx: TaskContext, gamma: Env, regs: Regs, env: Env, n: nat)
    requires RegsFit(ctx, gamma, regs) && EnvIn(env, gamma) && n in env
    ensures Fits(ctx, Lookup(regs, n), env[n])
  {
    hide Fits;
    if n !in regs { AbsentFits(ctx, Undef, env[n]); }
  }

  lemma AbsentFits(ctx: TaskContext, v: Value, t: Type)
    requires Absent(v)
    ensures Fits(ctx, v, t)
  {
  }

  lemma ChargedFits(cfg: Config, ctx: TaskContext, inv: WorldInv, syms: set<string>, w: World, r: Result,
                    t: Option<Type>)
    requires ToolsTyped(cfg, ctx, inv, syms) && inv(w) && (r.Ok? && t.Some? ==> Fits(ctx, r.value, t.value))
    ensures StepFits(ctx, inv, Charged(cfg, w, r), t)
  {
    hide Fits;
  }

  /** A declared field of a fitting record fits, missing ones reading as null. */
  lemma PropFits(ctx: TaskContext, x: Value, e: Entity, sym: string)
    requires Fits(ctx, x, TObj(e)) && sym in ctx.fields && ctx.fields[sym].entity == Some(e)
    ensures Fits(ctx, Prop(x, ctx.fields[sym].name), ctx.fields[sym].ty)
  {
  }

  lemma FieldOf(cfg: Config, ctx: TaskContext, x: Value, e: Entity, sym: string)
    requires HostTyped(cfg, ctx) && Fits(ctx, x, TObj(e)) && sym in ctx.fields && ctx.fields[sym].entity == Some(e)
    ensures var r := FldValue(cfg, x, sym); r.Ok? ==> Fits(ctx, r.value, ctx.fields[sym].ty)
  {
    hide Fits;
    hide Prop;
    PropFits(ctx, x, e, sym);
  }

  lemma {:induction false} OperandFits(cfg: Config, ctx: TaskContext, inv: WorldInv, syms: set<string>, gamma: Env,
                                       env: Env, regs: Regs, w: World, op: Operand, line: nat)
    requires HostTyped(cfg, ctx) && ToolsTyped(cfg, ctx, inv, syms) && inv(w) && RegsFit(ctx, gamma, regs) &&
             EnvIn(env, gamma)
    ensures StepFits(ctx, inv, EvalOp(cfg, regs, w, op), OperandType(ctx, env, op, line).ty)
  {
    hide ToolsTyped;
    hide RegsFit;
    hide EnvIn;
    hide FldValue;
    hide Charged;
    var t := OperandType(ctx, env, op, line).ty;
    match op
    case OReg(n) =>
      if n in env { LookupFits(ctx, gamma, regs, env, n); }
    case ORegField(n, f) =>
      if t.Some? {
        LookupFits(ctx, gamma, regs, env, n);
        FieldOf(cfg, ctx, Lookup(regs, n), env[n].entity, f);
      }
      hide Fits;
      ChargedFits(cfg, ctx, inv, syms, w, FldValue(cfg, Lookup(regs, n), f), t);
    case _ =>
  }

  lemma {:induction false} OperandsFit(cfg: Config, ctx: TaskContext, inv: WorldInv, syms: set<string>, gamma: Env,
                                       env: Env, regs: Regs, w: World, ops: seq<Operand>, line: nat)
    requires HostTyped(cfg, ctx) && ToolsTyped(cfg, ctx, inv, syms) && inv(w) && RegsFit(ctx, gamma, regs) &&
             EnvIn(env, gamma)
    ensures var o := EvalOps(cfg, regs, w, ops);
            inv(o.w) && (o.r.Ok? ==> |o.r.value| == |ops| && forall i | 0 <= i < |ops| ::
              var t := OperandType(ctx, env, ops[i], line).ty; t.Some? ==> Fits(ctx, o.r.value[i], t.value))
    decreases ops
  {
    hide ToolsTyped;
    hide HostTyped;
    hide RegsFit;
    hide EnvIn;
    hide Fits;
    hide EvalOp;
    hide OperandType;
    if ops != [] {
      OperandFits(cfg, ctx, inv, syms, gamma, env, regs, w, ops[0], line);
      var h := EvalOp(cfg, regs, w, ops[0]);
      if h.r.Ok? {
        OperandsFit(cfg, ctx, inv, syms, gamma, env, regs, h.w, ops[1..], line);
        var o, t := EvalOps(cfg, regs, w, ops), EvalOps(cfg, regs, h.w, ops[1..]);
        if o.r.Ok? {
          assert o.r.value == [h.r.value] + t.r.value;
          forall i | 0 <= i < |ops|
            ensures var t := OperandType(ctx, env, ops[i], line).ty; t.Some? ==> Fits(ctx, o.r.value[i], t.value)
          {
            if i > 0 { assert ops[i] == ops[1..][i - 1]; }
          }
        }
      }
    }
  }

  /** Evaluating a predicate keeps the world invariant: it calls no tool. */
  lemma {:induction false} SideInv(cfg: Config, ctx: TaskContext, inv: WorldInv, syms: set<string>, regs: Regs,
                                   w: World, elem: Option<Value>, c: Clause)
    requires ToolsTyped(cfg, ctx, inv, syms) && inv(w)
    ensures inv(EvalLeft(cfg, regs, w, elem, c.left).w) && inv(EvalRight(cfg, regs, w, elem, c.right).w)
  {
    hide FldValue;
  }

  lemma {:induction false} PredInv(cfg: Config, ctx: TaskContext, inv: WorldInv, syms: set<string>, regs: Regs,
                                   w: World, elem: Option<Value>, p: Pred, i: nat)
    requires ToolsTyped(cfg, ctx, inv, syms) && inv(w) && i < |p.clauses|
    ensures inv(EvalFrom(cfg, regs, w, elem, p, i).w)
    decreases |p.clauses| - i
  {
    hide ToolsTyped;
    hide EvalClause;
    hide NextGroup;
    ClauseInv(cfg, ctx, inv, syms, regs, w, elem, p.clauses[i]);
    var c := EvalClause(cfg, regs, w, elem, p.clauses[i]);
    if c.r.Ok? {
      var j := if c.r.value then i + 1 else NextGroup(p, i);
      if j < |p.clauses| { PredInv(cfg, ctx, inv, syms, regs, c.w, elem, p, j); }
    }
  }

  lemma ClauseInv(cfg: Config, ctx: TaskContext, inv: WorldInv, syms: set<string>, regs: Regs, w: World,
                  elem: Option<Value>, c: Clause)
    requires ToolsTyped(cfg, ctx, inv, syms) && inv(w)
    ensures inv(EvalClause(cfg, regs, w, elem, c).w)
  {
    hide EvalLeft;
    hide EvalRight;
    hide CmpHolds;
    SideInv(cfg, ctx, inv, syms, regs, w, elem, c);
    SideInv(cfg, ctx, inv, syms, regs, EvalLeft(cfg, regs, w, elem, c.left).w, elem, c);
  }

  lemma {:induction false} KeepFits(cfg: Config, ctx: TaskContext, inv: WorldInv, syms: set<string>, regs: Regs,
                                    w: World, p: Pred, xs: seq<Value>, t: Type)
    requires ToolsTyped(cfg, ctx, inv, syms) && inv(w) && AllFit(ctx, xs, t)
    ensures var o := Keep(cfg, regs, w, p, xs); inv(o.w) && (o.r.Ok? ==> AllFit(ctx, o.r.value, t))
    decreases xs
  {
    hide ToolsTyped;
    hide EvalFrom;
    hide Fits;
    if xs != [] {
      PredInv(cfg, ctx, inv, syms, regs, w, Some(xs[0]), p, 0);
      KeepFits(cfg, ctx, inv, syms, regs, EvalPred(cfg, regs, w, Some(xs[0]), p).w, p, xs[1..], t);
    }
  }

  // ---------------------------------------------------------------- list functions

  lemma {:induction false} InsertFits(ctx: TaskContext, before: (Value, Value) -> bool, x: Value, ys: seq<Value>,
                                      t: Type)
    requires Fits(ctx, x, t) && AllFit(ctx, ys, t)
    ensures AllFit(ctx, Inserted(before, x, ys), t)
    decreases ys
  {
    hide Fits;
    if ys != [] { InsertFits(ctx, before, x, ys[1..], t); }
  }

  lemma {:induction false} SortFits(ctx: TaskContext, before: (Value, Value) -> bool, xs: seq<Value>, t: Type)
    requires AllFit(ctx, xs, t)
    ensures AllFit(ctx, StableSort(before, xs), t)
    decreases xs
  {
    hide Fits;
    if xs != [] {
      SortFits(ctx, before, xs[1..], t);
      InsertFits(ctx, before, xs[0], StableSort(before, xs[1..]), t);
    }
  }

  ghost predicate KeysFit(ctx: TaskContext, t: Tally, u: Type) {
    forall i | 0 <= i < |t| :: Fits(ctx, t[i].0, u)
  }

  lemma {:induction false} BestFits(ctx: TaskContext, t: Tally, i: nat, best: Option<(Value, nat)>, least: bool,
                                    u: Type)
    requires i <= |t| && KeysFit(ctx, t, u) && (best.Some? ==> Fits(ctx, best.value.0, u))
    ensures Fits(ctx, Best(t, i, best, least), u)
    decreases |t| - i
  {
    hide Fits;
    if i == |t| {
      if best.None? { AbsentFits(ctx, Nil, u); }
    } else if best.None? || Beats(t[i].1, best.value.1, least) {
      BestFits(ctx, t, i + 1, Some(t[i]), least, u);
    } else {
      BestFits(ctx, t, i + 1, best, least, u);
    }
  }

  lemma NarrowFits(ctx: TaskContext, v: Value, u: Type)
    requires Fits(ctx, v, u) && !u.TObj?
    ensures Fits(ctx, NarrowId(v), u)
  {
  }

  lemma {:induction false} TalliedFits(ctx: TaskContext, t: Tally, xs: seq<Value>, e: Entity, sym: string, open: bool)
    requires sym in ctx.fields && ctx.fields[sym].entity == Some(e) && !ctx.fields[sym].ty.TObj?
    requires AllFit(ctx, xs, TObj(e)) && KeysFit(ctx, t, ctx.fields[sym].ty)
    ensures KeysFit(ctx, Tallied(t, xs, ctx.fields[sym].name, open), ctx.fields[sym].ty)
    decreases xs
  {
    hide Fits;
    hide KeyAt;
    if xs != [] {
      PropFits(ctx, xs[0], e, sym);
      var v := Prop(xs[0], ctx.fields[sym].name);
      NarrowFits(ctx, v, ctx.fields[sym].ty);
      TalliedFits(ctx, Bumped(t, NarrowId(v), open), xs[1..], e, sym, open);
    }
  }

  lemma CandFits(ctx: TaskContext, v: Value, e: Entity)
    requires Fits(ctx, v, TObj(e))
    ensures Fits(ctx, NarrowId(v), TId(e))
  {
  }

  lemma {:induction false} SeededFits(ctx: TaskContext, t: Tally, cands: seq<Value>, e: Entity)
    requires AllFit(ctx, cands, TObj(e)) && KeysFit(ctx, t, TId(e))
    ensures KeysFit(ctx, Seeded(t, cands), TId(e))
    decreases cands
  {
    hide Fits;
    hide KeyAt;
    if cands != [] {
      CandFits(ctx, cands[0], e);
      var k := NarrowId(cands[0]);
      var i := KeyAt(t, k);
      SeededFits(ctx, if i < |t| then t[i := (k, 0)] else t + [(k, 0)], cands[1..], e);
    }
  }

  lemma ListFits(ctx: TaskContext, v: Value, t: Type)
    requires Fits(ctx, v, TList(t))
    ensures Absent(v) || (v.List? && AllFit(ctx, v.elems, t))
  {
  }

  lemma AsListFits(ctx: TaskContext, xs: seq<Value>, t: Type)
    requires AllFit(ctx, xs, t)
    ensures Fits(ctx, List(xs), TList(t))
  {
  }

  /** MOST / LEAST deliver a value of the field's type, or null. */
  lemma ExtremeFits(cfg: Config, ctx: TaskContext, v: Value, e: Entity, sym: string, cands: Value, least: bool)
    requires HostTyped(cfg, ctx) && sym in ctx.fields && ctx.fields[sym].entity == Some(e) && !ctx.fields[sym].ty.TObj?
    requires Fits(ctx, v, TList(TObj(e)))
    requires cands.Nil? || (ctx.fields[sym].ty.TId? && Fits(ctx, cands, TList(TObj(ctx.fields[sym].ty.entity))))
    ensures var r := ExtremeValue(cfg, v, sym, cands, least); r.Ok? ==> Fits(ctx, r.value, ctx.fields[sym].ty)
  {
    hide Fits;
    hide Seeded;
    hide Tallied;
    hide Best;
    hide AnyAbsent;
    ListFits(ctx, v, TObj(e));
    var name, ty := ctx.fields[sym].name, ctx.fields[sym].ty;
    if v.List? {
      if !cands.Nil? { ListFits(ctx, cands, TObj(ty.entity)); }
      if cands.List? {
        SeededFits(ctx, [], cands.elems, ty.entity);
        TalliedFits(ctx, Seeded([], cands.elems), v.elems, e, sym, false);
      } else {
        TalliedFits(ctx, [], v.elems, e, sym, true);
      }
      BestFits(ctx, CountsOf(v.elems, name, cands), 0, None, least, ty);
    }
  }

  lemma MapFits(cfg: Config, ctx: TaskContext, v: Value, e: Entity, sym: string)
    requires HostTyped(cfg, ctx) && sym in ctx.fields && ctx.fields[sym].entity == Some(e) &&
             Fits(ctx, v, TList(TObj(e)))
    ensures var r := MapValue(cfg, v, sym); r.Ok? ==> Fits(ctx, r.value, TList(ctx.fields[sym].ty))
  {
    hide Fits;
    hide Prop;
    hide AnyAbsent;
    ListFits(ctx, v, TObj(e));
    var r := MapValue(cfg, v, sym);
    if r.Ok? {
      forall i | 0 <= i < |r.value.elems|
        ensures Fits(ctx, r.value.elems[i], ctx.fields[sym].ty)
      {
        PropFits(ctx, v.elems[i], e, sym);
      }
      AsListFits(ctx, r.value.elems, ctx.fields[sym].ty);
    }
  }

  lemma SortValueFits(cfg: Config, ctx: TaskContext, v: Value, t: Type, sym: string, desc: bool)
    requires Fits(ctx, v, TList(t))
    ensures var r := SortValue(cfg, v, sym, desc); r.Ok? ==> Fits(ctx, r.value, TList(t))
  {
    hide Fits;
    hide StableSort;
    hide Before;
    ListFits(ctx, v, t);
    if sym in cfg.fields && v.List? {
      SortFits(ctx, (x, y) => Before(cfg, cfg.fields[sym], desc, x, y), v.elems, t);
      var r := SortValue(cfg, v, sym, desc);
      if r.Ok? { AsListFits(ctx, r.value.elems, t); }
    }
  }

  lemma ElementFits(ctx: TaskContext, v: Value, t: Type, i: Value)
    requires Fits(ctx, v, TList(t))
    ensures var r := SelectValue(v, i); r.Ok? ==> Fits(ctx, r.value, t)
    ensures var r := RtFirst(v); r.Ok? ==> Fits(ctx, r.value, t)
    ensures var r := Iterable(v); r.Ok? ==> AllFit(ctx, r.value, t)
    ensures var r := RtCount(v); r.Ok? ==> r.value.Num?
  {
    hide Fits;
    ListFits(ctx, v, t);
    AbsentFits(ctx, Nil, t);
    AbsentFits(ctx, Undef, t);
  }

  // ---------------------------------------------------------------- instructions

  /** The premises shared by every step: an honest host, a typed world and typed registers. */
  ghost predicate Ready(cfg: Config, ctx: TaskContext, inv: WorldInv, syms: set<string>, gamma: Env, env: Env,
                        regs: Regs, w: World) {
    HostTyped(cfg, ctx) && ToolsTyped(cfg, ctx, inv, syms) && inv(w) && RegsFit(ctx, gamma, regs) && EnvIn(env, gamma)
  }

  lemma EntityOf(env: Env, n: nat, line: nat)
    requires ListEntity(env, n, line).1 == []
    ensures n in env && env[n].TList? && env[n].elem.TObj? && ListEntity(env, n, line).0 == Some(env[n].elem.entity)
  {
  }

  lemma ElemOf(env: Env, n: nat, line: nat)
    requires ElemType(env, n, line).diags == []
    ensures n in env && env[n].TList? && ElemType(env, n, line).ty == Some(env[n].elem)
  {
  }

  lemma FieldOk(ctx: TaskContext, sym: string, e: Entity, line: nat)
    requires FieldType(ctx, sym, e, line).diags == []
    ensures sym in ctx.fields && ctx.fields[sym].entity == Some(e) &&
            FieldType(ctx, sym, e, line).ty == Some(ctx.fields[sym].ty)
  {
  }

  /** A clean binding instruction binds its destination in the environment to the type of what it computes. */
  ghost predicate Binds(cfg: Config, ctx: TaskContext, inv: WorldInv, s: Stmt, env: Env, regs: Regs, w: World)
    requires IsSimple(s.instr)
  {
    var env1 := CheckStmt(ctx, s, env).env;
    s.instr.dst in env1 && StepFits(ctx, inv, SimpleValue(cfg, regs, w, s.instr), Some(env1[s.instr.dst]))
  }

  lemma LetFits(cfg: Config, ctx: TaskContext, inv: WorldInv, syms: set<string>, gamma: Env, s: Stmt, env: Env,
                regs: Regs, w: World)
    requires (s.instr.Let? || s.instr.Get?) && StmtClean(ctx, s, env) && Ready(cfg, ctx, inv, syms, gamma, env, regs, w)
    ensures Binds(cfg, ctx, inv, s, env, regs, w)
  {
    hide RegsFit;
    hide EnvIn;
    hide Fits;
    hide ToolsTyped;
    hide HostTyped;
    var op := if s.instr.Let? then s.instr.op else ORegField(s.instr.src, s.instr.field);
    OperandFits(cfg, ctx, inv, syms, gamma, env, regs, w, op, s.line);
    OperandTyped(ctx, env, op, s.line);
    hide OperandType;
    hide RtFld;
  }

  lemma OperandTyped(ctx: TaskContext, env: Env, op: Operand, line: nat)
    ensures var t := OperandType(ctx, env, op, line); t.ty.None? <==> t.diags != []
  {
  }

  lemma FormatFits(cfg: Config, ctx: TaskContext, inv: WorldInv, syms: set<string>, gamma: Env, s: Stmt, env: Env,
                   regs: Regs, w: World)
    requires s.instr.Format? && Ready(cfg, ctx, inv, syms, gamma, env, regs, w)
    ensures Binds(cfg, ctx, inv, s, env, regs, w)
  {
    hide EvalOps;
    hide CheckTemplate;
    hide CheckSlots;
    hide RegsFit;
    hide EnvIn;
    OperandsFit(cfg, ctx, inv, syms, gamma, env, regs, w, s.instr.ops, s.line);
  }

  lemma FilterFits(cfg: Config, ctx: TaskContext, inv: WorldInv, syms: set<string>, gamma: Env, s: Stmt, env: Env,
                   regs: Regs, w: World)
    requires s.instr.Filter? && StmtClean(ctx, s, env) && Ready(cfg, ctx, inv, syms, gamma, env, regs, w)
    ensures Binds(cfg, ctx, inv, s, env, regs, w)
  {
    hide Keep;
    hide CheckFilter;
    hide RegsFit;
    hide EnvIn;
    hide Fits;
    hide ToolsTyped;
    var Filter(src, p, dst) := s.instr;
    assert |CheckStmt(ctx, s, env).diags| >= |ListEntity(env, src, s.line).1|;
    EntityOf(env, src, s.line);
    LookupFits(ctx, gamma, regs, env, src);
    var v := Lookup(regs, src);
    ListFits(ctx, v, env[src].elem);
    if v.List? {
      KeepFits(cfg, ctx, inv, syms, regs, w, p, v.elems, env[src].elem);
      var o := Keep(cfg, regs, w, p, v.elems);
      if o.r.Ok? { AsListFits(ctx, o.r.value, env[src].elem); }
    }
  }

  lemma SourceFits(cfg: Config, ctx: TaskContext, inv: WorldInv, syms: set<string>, gamma: Env, s: Stmt, env: Env,
                   regs: Regs, w: World)
    requires (s.instr.MapF? || s.instr.Sort?) && StmtClean(ctx, s, env) &&
             Ready(cfg, ctx, inv, syms, gamma, env, regs, w)
    ensures Binds(cfg, ctx, inv, s, env, regs, w)
  {
    hide MapValue;
    hide SortValue;
    hide RegsFit;
    hide EnvIn;
    hide Fits;
    hide ToolsTyped;
    hide HostTyped;
    hide FieldType;
    hide Charged;
    var src, f := s.instr.src, s.instr.field;
    assert |CheckStmt(ctx, s, env).diags| >= |ListEntity(env, src, s.line).1|;
    EntityOf(env, src, s.line);
    var e := env[src].elem.entity;
    assert |CheckStmt(ctx, s, env).diags| >= |FieldType(ctx, f, e, s.line).diags|;
    FieldOk(ctx, f, e, s.line);
    LookupFits(ctx, gamma, regs, env, src);
    var v := Lookup(regs, src);
    if s.instr.MapF? {
      MapFits(cfg, ctx, v, e, f);
      ChargedFits(cfg, ctx, inv, syms, w, MapValue(cfg, v, f), Some(TList(ctx.fields[f].ty)));
    } else {
      SortValueFits(cfg, ctx, v, env[src].elem, f, s.instr.desc);
      ChargedFits(cfg, ctx, inv, syms, w, SortValue(cfg, v, f, s.instr.desc), Some(env[src]));
    }
  }

  lemma ListReadFits(cfg: Config, ctx: TaskContext, inv: WorldInv, syms: set<string>, gamma: Env, s: Stmt, env: Env,
                     regs: Regs, w: World)
    requires (s.instr.Count? || s.instr.First? || s.instr.Select?) && StmtClean(ctx, s, env) &&
             Ready(cfg, ctx, inv, syms, gamma, env, regs, w)
    ensures Binds(cfg, ctx, inv, s, env, regs, w)
  {
    hide SelectValue;
    hide RtCount;
    hide RtFirst;
    hide Iterable;
    hide RegsFit;
    hide EnvIn;
    hide ToolsTyped;
    hide HostTyped;
    hide ElemType;
    hide EvalOp;
    hide OperandType;
    hide Charged;
    var src := s.instr.src;
    assert |CheckStmt(ctx, s, env).diags| >= |ElemType(env, src, s.line).diags|;
    ElemOf(env, src, s.line);
    LookupFits(ctx, gamma, regs, env, src);
    var v, t := Lookup(regs, src), env[src].elem;
    if s.instr.Select? {
      OperandFits(cfg, ctx, inv, syms, gamma, env, regs, w, s.instr.idx, s.line);
      var i := EvalOp(cfg, regs, w, s.instr.idx);
      if i.r.Ok? {
        ElementFits(ctx, v, t, i.r.value);
        ChargedFits(cfg, ctx, inv, syms, i.w, SelectValue(v, i.r.value), Some(t));
      }
    } else {
      ElementFits(ctx, v, t, Nil);
    }
  }

  lemma MostFits(cfg: Config, ctx: TaskContext, inv: WorldInv, syms: set<string>, gamma: Env, s: Stmt, env: Env,
                 regs: Regs, w: World)
    requires s.instr.Most? && StmtCountsNoRecords(ctx, s) && StmtClean(ctx, s, env) &&
             Ready(cfg, ctx, inv, syms, gamma, env, regs, w)
    ensures Binds(cfg, ctx, inv, s, env, regs, w)
  {
    hide ExtremeValue;
    hide RegsFit;
    hide EnvIn;
    hide Fits;
    hide ToolsTyped;
    hide HostTyped;
    hide FieldType;
    hide Charged;
    var Most(src, f, cands, dst, least) := s.instr;
    var d := CheckMost(ctx, env, src, f, cands, dst, s.line).diags;
    assert |d| >= |ListEntity(env, src, s.line).1|;
    EntityOf(env, src, s.line);
    var e := env[src].elem.entity;
    assert |d| >= |FieldType(ctx, f, e, s.line).diags|;
    FieldOk(ctx, f, e, s.line);
    var ty := ctx.fields[f].ty;
    LookupFits(ctx, gamma, regs, env, src);
    var c := if cands.Some? then Lookup(regs, cands.value) else Nil;
    if cands.Some? {
      CandsTyped(ctx, env, src, f, cands.value, dst, s.line);
      LookupFits(ctx, gamma, regs, env, cands.value);
    }
    ExtremeFits(cfg, ctx, Lookup(regs, src), e, f, c, least);
    ChargedFits(cfg, ctx, inv, syms, w, ExtremeValue(cfg, Lookup(regs, src), f, c, least), Some(ty));
  }

  lemma CandsTyped(ctx: TaskContext, env: Env, src: nat, f: string, cand: nat, dst: nat, line: nat)
    requires CheckMost(ctx, env, src, f, Some(cand), dst, line).diags == []
    ensures f in ctx.fields && ctx.fields[f].ty.TId? && cand in env && env[cand] == TList(TObj(ctx.fields[f].ty.entity))
  {
  }

  lemma {:induction false} SimpleFits(cfg: Config, ctx: TaskContext, inv: WorldInv, syms: set<string>, gamma: Env,
                                      s: Stmt, env: Env, regs: Regs, w: World)
    requires IsSimple(s.instr) && StmtCountsNoRecords(ctx, s) && StmtClean(ctx, s, env) &&
             Ready(cfg, ctx, inv, syms, gamma, env, regs, w)
    ensures Binds(cfg, ctx, inv, s, env, regs, w)
  {
    hide Binds;
    hide Ready;
    hide CheckStmt;
    match s.instr
    case Let(_, _) => LetFits(cfg, ctx, inv, syms, gamma, s, env, regs, w);
    case Get(_, _, _) => LetFits(cfg, ctx, inv, syms, gamma, s, env, regs, w);
    case Format(_, _, _, _) => FormatFits(cfg, ctx, inv, syms, gamma, s, env, regs, w);
    case Filter(_, _, _) => FilterFits(cfg, ctx, inv, syms, gamma, s, env, regs, w);
    case MapF(_, _, _) => SourceFits(cfg, ctx, inv, syms, gamma, s, env, regs, w);
    case Sort(_, _, _, _) => SourceFits(cfg, ctx, inv, syms, gamma, s, env, regs, w);
    case Most(_, _, _, _, _) => MostFits(cfg, ctx, inv, syms, gamma, s, env, regs, w);
    case _ => ListReadFits(cfg, ctx, inv, syms, gamma, s, env, regs, w);
  }

  // ---------------------------------------------------------------- calls

  /** Argument `i` of a clean call has a type the parameter lets through. */
  ghost predicate ArgTyped(ctx: TaskContext, env: Env, params: seq<Param>, args: seq<Operand>, i: nat, line: nat) {
    i < |args| && i < |params| ==>
      var t := OperandType(ctx, env, args[i], line).ty; t.Some? && Compatible(params[i].ty, t.value)
  }

  lemma FirstArgClean(ctx: TaskContext, env: Env, params: seq<Param>, args: seq<Operand>, i: nat, line: nat)
    requires i < |params| && CheckArgs(ctx, env, params, args, i, line) == []
    ensures CheckArgs(ctx, env, params, args, i + 1, line) == [] && ArgTyped(ctx, env, params, args, i, line)
  {
    hide OperandType;
    hide Compatible;
    assert |CheckArgs(ctx, env, params, args, i, line)| >= |CheckArgs(ctx, env, params, args, i + 1, line)|;
    if i < |args| { OperandTyped(ctx, env, args[i], line); }
  }

  lemma {:induction false} CleanArgs(ctx: TaskContext, env: Env, params: seq<Param>, args: seq<Operand>, i: nat,
                                     line: nat)
    requires i <= |params| && CheckArgs(ctx, env, params, args, i, line) == []
    ensures forall k | i <= k :: ArgTyped(ctx, env, params, args, k, line)
    decreases |params| - i
  {
    hide CheckArgs;
    if i < |params| {
      FirstArgClean(ctx, env, params, args, i, line);
      hide ArgTyped;
      CleanArgs(ctx, env, params, args, i + 1, line);
    }
  }

  /** The arguments a clean call passes are acceptable for the tool's parameters. */
  lemma CallArgsFit(cfg: Config, ctx: TaskContext, inv: WorldInv, syms: set<string>, gamma: Env, env: Env, regs: Regs,
                    w: World, c: CallI)
    requires CheckCall(ctx, env, c) == [] && Ready(cfg, ctx, inv, syms, gamma, env, regs, w)
    ensures var a := EvalOps(cfg, regs, w, c.args); inv(a.w) && (a.r.Ok? ==> ArgsFit(ctx, c.tool, a.r.value))
  {
    hide CheckArgs;
    hide EvalOps;
    hide OperandType;
    hide Compatible;
    hide Fits;
    hide RegsFit;
    hide EnvIn;
    hide ToolsTyped;
    hide HostTyped;
    var params := ctx.tools[c.tool].params;
    assert |CheckCall(ctx, env, c)| >= |CheckArgs(ctx, env, params, c.args, 0, c.line)|;
    CleanArgs(ctx, env, params, c.args, 0, c.line);
    OperandsFit(cfg, ctx, inv, syms, gamma, env, regs, w, c.args, c.line);
    var a := EvalOps(cfg, regs, w, c.args);
    if a.r.Ok? {
      forall i | 0 <= i < |a.r.value|
        ensures ArgFits(ctx, a.r.value[i], params[i].ty)
      {
        assert ArgTyped(ctx, env, params, c.args, i, c.line);
        var t := OperandType(ctx, env, c.args[i], c.line).ty.value;
        assert Compatible(params[i].ty, t) && Fits(ctx, a.r.value[i], t);
      }
    }
  }

  lemma CallFits(cfg: Config, ctx: TaskContext, inv: WorldInv, syms: set<string>, gamma: Env, env: Env, regs: Regs,
                 w: World, c: CallI)
    requires c.tool in syms && CheckCall(ctx, env, c) == [] && Ready(cfg, ctx, inv, syms, gamma, env, regs, w)
    ensures StepFits(ctx, inv, CallStep(cfg, regs, w, c), Some(ResultType(ctx, c.tool)))
  {
    hide CheckCall;
    hide EvalOps;
    hide RtCall;
    hide Fits;
    hide ArgsFit;
    CallArgsFit(cfg, ctx, inv, syms, gamma, env, regs, w, c);
  }

  ghost predicate ValsFit(ctx: TaskContext, calls: seq<CallI>, vals: seq<Value>) {
    |vals| == |calls| && forall i | 0 <= i < |calls| :: Fits(ctx, vals[i], ResultType(ctx, calls[i].tool))
  }

  lemma {:induction false} CallsFit(cfg: Config, ctx: TaskContext, inv: WorldInv, syms: set<string>, gamma: Env,
                                    env: Env, regs: Regs, w: World, calls: seq<CallI>, dsts: set<nat>)
    requires CallsWithin(calls, syms) && CheckParallel(ctx, env, calls, dsts) == [] &&
             Ready(cfg, ctx, inv, syms, gamma, env, regs, w)
    ensures var o := RunCalls(cfg, regs, w, calls);
            inv(o.w) && (o.Settled? && o.failure.None? ==> ValsFit(ctx, calls, o.vals))
    decreases calls
  {
    hide CheckCall;
    hide CheckFresh;
    hide EvalOps;
    hide RtCall;
    hide Fits;
    hide RegsFit;
    hide EnvIn;
    hide ToolsTyped;
    hide HostTyped;
    hide ResultType;
    if calls != [] {
      var c := calls[0];
      assert |CheckFresh(c.args, dsts, c.line) + CheckCall(ctx, env, c) + CheckParallel(ctx, env, calls[1..], dsts)| ==
             0;
      CallFits(cfg, ctx, inv, syms, gamma, env, regs, w, c);
      CallArgsFit(cfg, ctx, inv, syms, gamma, env, regs, w, c);
      var a := EvalOps(cfg, regs, w, c.args);
      if a.r.Ok? {
        var s := RtCall(cfg, a.w, c.tool, a.r.value);
        CallsFit(cfg, ctx, inv, syms, gamma, env, regs, s.w, calls[1..], dsts);
        var o, rest := RunCalls(cfg, regs, w, calls), RunCalls(cfg, regs, s.w, calls[1..]);
        if o.Settled? && o.failure.None? {
          assert o.vals == [s.r.value] + rest.vals;
          forall i | 0 <= i < |calls|
            ensures Fits(ctx, o.vals[i], ResultType(ctx, calls[i].tool))
          {
            if i > 0 { assert calls[i] == calls[1..][i - 1]; }
          }
        }
      }
    }
  }

  lemma BindFits(ctx: TaskContext, gamma: Env, regs: Regs, n: nat, v: Value)
    requires RegsFit(ctx, gamma, regs) && (n in gamma ==> Fits(ctx, v, gamma[n]))
    ensures RegsFit(ctx, gamma, regs[n := v])
  {
    hide Fits;
  }

  lemma {:induction false} BindAllFits(ctx: TaskContext, gamma: Env, regs: Regs, calls: seq<CallI>, vals: seq<Value>)
    requires ValsFit(ctx, calls, vals) && RegsFit(ctx, gamma, regs) && ResultsIn(ctx, calls, gamma)
    ensures RegsFit(ctx, gamma, BindAll(regs, calls, vals))
    decreases calls
  {
    hide Fits;
    hide RegsFit;
    if calls != [] {
      var c := calls[0];
      if c.dst.Some? { BindFits(ctx, gamma, regs, c.dst.value, vals[0]); }
      assert ValsFit(ctx, calls[1..], vals[1..]) by {
        forall i | 0 <= i < |calls[1..]|
          ensures Fits(ctx, vals[1..][i], ResultType(ctx, calls[1..][i].tool))
        {
          assert vals[1..][i] == vals[i + 1] && calls[1..][i] == calls[i + 1];
        }
      }
      assert ResultsIn(ctx, calls[1..], gamma);
      BindAllFits(ctx, gamma, if c.dst.Some? then regs[c.dst.value := vals[0]] else regs, calls[1..], vals[1..]);
    }
  }

  // ---------------------------------------------------------------- runs

  ghost predicate Kept(ctx: TaskContext, inv: WorldInv, gamma: Env, o: Out) {
    inv(o.st.w) && RegsFit(ctx, gamma, o.st.regs)
  }

  /** Whatever way a clean block ends, its registers fit the global typing and the world invariant holds. */
  lemma {:induction false} BlockTyped(cfg: Config, ctx: TaskContext, inv: WorldInv, syms: set<string>, gamma: Env,
                                      body: seq<Stmt>, env: Env, seen: set<nat>, st: St)
    requires Within(body, syms) && CountsNoRecords(ctx, body)
    requires Clean(ctx, body, env) && OneType(ctx, body, env, gamma) &&
             Ready(cfg, ctx, inv, syms, gamma, env, st.regs, st.w)
    ensures Kept(ctx, inv, gamma, ExecBlock(cfg, body, seen, st))
    decreases body, 0, 0
  {
    hide ExecStmt;
    hide CheckStmt;
    hide StmtOneType;
    hide RegsFit;
    hide EnvIn;
    hide ToolsTyped;
    hide HostTyped;
    if body != [] {
      CleanSplit(ctx, body, env);
      StmtTyped(cfg, ctx, inv, syms, gamma, body[0], env, seen, st);
      var o := ExecStmt(cfg, body[0], seen, st);
      if o.flow.Next? {
        var env1 := CheckStmt(ctx, body[0], env).env;
        assert EnvIn(env1, gamma) by { OneTypeEnv(ctx, body[0], env, gamma); }
        if !CheckStmt(ctx, body[0], env).done {
          BlockTyped(cfg, ctx, inv, syms, gamma, body[1..], env1, seen + StmtDsts(body[0]), o.st);
        }
      }
    }
  }

  lemma OneTypeEnv(ctx: TaskContext, s: Stmt, env: Env, gamma: Env)
    requires StmtOneType(ctx, s, env, gamma)
    ensures EnvIn(CheckStmt(ctx, s, env).env, gamma)
  {
    hide CheckStmt;
    hide OneType;
  }

  lemma {:induction false} StmtTyped(cfg: Config, ctx: TaskContext, inv: WorldInv, syms: set<string>, gamma: Env,
                                     s: Stmt, env: Env, seen: set<nat>, st0: St)
    requires StmtWithin(s, syms) && StmtCountsNoRecords(ctx, s)
    requires StmtClean(ctx, s, env) && StmtOneType(ctx, s, env, gamma) &&
             Ready(cfg, ctx, inv, syms, gamma, env, st0.regs, st0.w)
    ensures Kept(ctx, inv, gamma, ExecStmt(cfg, s, seen, st0))
    decreases s, 1, 0
  {
    hide ExecStmt;
    hide CheckStmt;
    EnterOnce(cfg, s, seen, st0);
    var st := Enter(st0, s.line);
    hide RegsFit;
    hide EnvIn;
    hide HostTyped;
    assert Ready(cfg, ctx, inv, syms, gamma, env, st.regs, st.w);
    hide ToolsTyped;
    hide StmtOneType;
    if s.instr.Foreach? {
      ForeachTyped(cfg, ctx, inv, syms, gamma, s, env, seen, st);
    } else if s.instr.If? {
      IfTyped(cfg, ctx, inv, syms, gamma, s, env, seen, st);
    } else if s.instr.Try? {
      TryStmtTyped(cfg, ctx, inv, syms, gamma, s, env, seen, st);
    } else {
      FlatTyped(cfg, ctx, inv, syms, gamma, s, env, seen, st);
    }
  }

  lemma FlatTyped(cfg: Config, ctx: TaskContext, inv: WorldInv, syms: set<string>, gamma: Env, s: Stmt, env: Env,
                  seen: set<nat>, st: St)
    requires !s.instr.Foreach? && !s.instr.If? && !s.instr.Try?
    requires StmtWithin(s, syms) && StmtCountsNoRecords(ctx, s)
    requires StmtClean(ctx, s, env) && StmtOneType(ctx, s, env, gamma) &&
             Ready(cfg, ctx, inv, syms, gamma, env, st.regs, st.w)
    ensures Kept(ctx, inv, gamma, ExecStmt(cfg, At(0, s.instr), seen, st))
  {
    hide Fits;
    hide ToolsTyped;
    hide HostTyped;
    hide RegsFit;
    hide SimpleValue;
    hide CallStep;
    hide CheckCall;
    hide CheckParallel;
    hide RunCalls;
    hide BindAll;
    hide EvalOp;
    hide OperandType;
    var i := s.instr;
    if IsSimple(i) {
      SimpleFits(cfg, ctx, inv, syms, gamma, s, env, st.regs, st.w);
      hide CheckStmt;
      var v := SimpleValue(cfg, st.regs, st.w, i);
      if v.r.Ok? { BindFits(ctx, gamma, st.regs, i.dst, v.r.value); }
    } else if i.DoCall? {
      var c := i.call;
      CallFits(cfg, ctx, inv, syms, gamma, env, st.regs, st.w, c);
      var v := CallStep(cfg, st.regs, st.w, c);
      if c.dst.Some? && v.r.Ok? {
        CleanToolKnown(ctx, env, c);
        assert CheckStmt(ctx, s, env).env == env[c.dst.value := ResultType(ctx, c.tool)];
        BindFits(ctx, gamma, st.regs, c.dst.value, v.r.value);
      }
    } else if i.Parallel? {
      var calls := i.calls;
      CallsFit(cfg, ctx, inv, syms, gamma, env, st.regs, st.w, calls, CallDstSet(calls));
      SettledLength(cfg, st.regs, st.w, calls);
      var o := RunCalls(cfg, st.regs, st.w, calls);
      if o.Settled? && o.failure.None? { BindAllFits(ctx, gamma, st.regs, calls, o.vals); }
    } else if i.Return? {
      OperandFits(cfg, ctx, inv, syms, gamma, env, st.regs, st.w, i.op, s.line);
    }
  }

  lemma CleanToolKnown(ctx: TaskContext, env: Env, c: CallI)
    requires CheckCall(ctx, env, c) == []
    ensures c.tool in ctx.tools
  {
  }

  lemma {:induction false} ForeachTyped(cfg: Config, ctx: TaskContext, inv: WorldInv, syms: set<string>, gamma: Env,
                                        s: Stmt, env: Env, seen: set<nat>, st: St)
    requires s.instr.Foreach?
    requires StmtWithin(s, syms) && StmtCountsNoRecords(ctx, s)
    requires StmtClean(ctx, s, env) && StmtOneType(ctx, s, env, gamma) &&
             Ready(cfg, ctx, inv, syms, gamma, env, st.regs, st.w)
    ensures Kept(ctx, inv, gamma, ExecStmt(cfg, At(0, s.instr), seen, st))
    decreases s, 0, 0
  {
    hide Fits;
    hide ToolsTyped;
    hide HostTyped;
    hide RegsFit;
    hide EnvIn;
    hide CheckBlock;
    hide OneType;
    hide ExecEach;
    hide Iterable;
    hide ElemType;
    var Foreach(src, v, body) := s.instr;
    var t := ElemType(env, src, s.line);
    assert |CheckStmt(ctx, s, env).diags| >= |t.diags|;
    ElemOf(env, src, s.line);
    LookupFits(ctx, gamma, st.regs, env, src);
    var x := Lookup(st.regs, src);
    ElementFits(ctx, x, env[src].elem, Nil);
    var it := Iterable(x);
    if it.Ok? {
      assert EnvIn(env[v := env[src].elem], gamma) by { EnvInBind(env, gamma, v, env[src].elem); }
      EachTyped(cfg, ctx, inv, syms, gamma, it.value, v, env[src].elem, body, env, seen + {v}, st);
    }
  }

  lemma EnvInBind(env: Env, gamma: Env, n: nat, t: Type)
    requires EnvIn(env, gamma) && n in gamma && gamma[n] == t
    ensures EnvIn(env[n := t], gamma)
  {
  }

  lemma {:induction false} EachTyped(cfg: Config, ctx: TaskContext, inv: WorldInv, syms: set<string>, gamma: Env,
                                     xs: seq<Value>, v: nat, t: Type, body: seq<Stmt>, env: Env, seen: set<nat>, st: St)
    requires Within(body, syms) && CountsNoRecords(ctx, body)
    requires Clean(ctx, body, env[v := t]) && OneType(ctx, body, env[v := t], gamma) && EnvIn(env[v := t], gamma)
    requires AllFit(ctx, xs, t) && Ready(cfg, ctx, inv, syms, gamma, env, st.regs, st.w)
    ensures Kept(ctx, inv, gamma, ExecEach(cfg, xs, v, body, seen, st))
    decreases body, 1, |xs|
  {
    hide Fits;
    hide ToolsTyped;
    hide HostTyped;
    hide RegsFit;
    hide CheckBlock;
    hide OneType;
    hide ExecBlock;
    if xs != [] {
      var st1 := St(st.regs[v := xs[0]], st.w);
      assert env[v := t][v] == t;
      BindFits(ctx, gamma, st.regs, v, xs[0]);
      BlockTyped(cfg, ctx, inv, syms, gamma, body, env[v := t], seen, st1);
      var o := ExecBlock(cfg, body, seen, st1);
      if o.flow.Next? { EachTyped(cfg, ctx, inv, syms, gamma, xs[1..], v, t, body, env, seen, o.st); }
    }
  }

  lemma {:induction false} IfTyped(cfg: Config, ctx: TaskContext, inv: WorldInv, syms: set<string>, gamma: Env, s: Stmt,
                                   env: Env, seen: set<nat>, st: St)
    requires s.instr.If?
    requires StmtWithin(s, syms) && StmtCountsNoRecords(ctx, s)
    requires StmtClean(ctx, s, env) && StmtOneType(ctx, s, env, gamma) &&
             Ready(cfg, ctx, inv, syms, gamma, env, st.regs, st.w)
    ensures Kept(ctx, inv, gamma, ExecStmt(cfg, At(0, s.instr), seen, st))
    decreases s, 0, 0
  {
    hide ToolsTyped;
    hide HostTyped;
    hide RegsFit;
    hide EnvIn;
    hide CheckBlock;
    hide CheckCond;
    hide OneType;
    hide ExecBlock;
    hide EvalFrom;
    var If(cond, thn, els) := s.instr;
    PredInv(cfg, ctx, inv, syms, st.regs, st.w, None, cond, 0);
    var c := EvalPred(cfg, st.regs, st.w, None, cond);
    var d0, t := CheckCond(ctx, env, cond.clauses, s.line), CheckBlock(ctx, thn, env);
    if els.Else? {
      var e := CheckBlock(ctx, els.body, env);
      assert |d0 + t.diags + e.diags| == 0;
    } else {
      assert |d0 + t.diags| == 0;
    }
    if c.r.Ok? {
      if c.r.value {
        BlockTyped(cfg, ctx, inv, syms, gamma, thn, env, seen, St(st.regs, c.w));
      } else if els.Else? {
        BlockTyped(cfg, ctx, inv, syms, gamma, els.body, env, seen + Dsts(thn), St(st.regs, c.w));
      }
    }
  }

  lemma {:induction false} TryStmtTyped(cfg: Config, ctx: TaskContext, inv: WorldInv, syms: set<string>, gamma: Env,
                                        s: Stmt, env: Env, seen: set<nat>, st: St)
    requires s.instr.Try?
    requires StmtWithin(s, syms) && StmtCountsNoRecords(ctx, s)
    requires StmtClean(ctx, s, env) && StmtOneType(ctx, s, env, gamma) &&
             Ready(cfg, ctx, inv, syms, gamma, env, st.regs, st.w)
    ensures Kept(ctx, inv, gamma, ExecStmt(cfg, At(0, s.instr), seen, st))
    decreases s, 0, 0
  {
    hide ToolsTyped;
    hide HostTyped;
    hide RegsFit;
    hide CheckBlock;
    hide OneType;
    hide ExecTry;
    var Try(retry, dst, body) := s.instr;
    assert dst in CheckStmt(ctx, s, env).env && gamma[dst] == TStatus;
    BindFits(ctx, gamma, st.regs, dst, Str("OK"));
    TryTyped(cfg, ctx, inv, syms, gamma, retry, dst, body, env, seen + {dst}, St(st.regs[dst := Str("OK")], st.w));
  }

  lemma {:induction false} TryTyped(cfg: Config, ctx: TaskContext, inv: WorldInv, syms: set<string>, gamma: Env,
                                    left: nat, dst: nat, body: seq<Stmt>, env: Env, seen: set<nat>, st: St)
    requires dst in gamma && gamma[dst] == TStatus
    requires Within(body, syms) && CountsNoRecords(ctx, body)
    requires Clean(ctx, body, env) && OneType(ctx, body, env, gamma) &&
             Ready(cfg, ctx, inv, syms, gamma, env, st.regs, st.w)
    ensures Kept(ctx, inv, gamma, ExecTry(cfg, left, dst, body, seen, st))
    decreases body, 1, left
  {
    hide ToolsTyped;
    hide HostTyped;
    hide RegsFit;
    hide EnvIn;
    hide CheckBlock;
    hide OneType;
    hide ExecBlock;
    BlockTyped(cfg, ctx, inv, syms, gamma, body, env, seen, st);
    var o := ExecBlock(cfg, body, seen, st);
    if o.flow.Next? {
      BindFits(ctx, gamma, o.st.regs, dst, Str("OK"));
    } else if o.flow.Fail? && o.flow.e.ToolErr? {
      var v := Str(o.flow.e.code);
      BindFits(ctx, gamma, o.st.regs, dst, v);
      if left > 0 {
        TryTyped(cfg, ctx, inv, syms, gamma, left - 1, dst, body, env, seen, St(o.st.regs[dst := v], o.st.w));
      }
    }
  }

  /** Type preservation over whole runs: however the run ends, each register it has bound holds null or a value of the
      type the checker gave that register. */
  lemma TypesPreserved(cfg: Config, ctx: TaskContext, inv: WorldInv, gamma: Env, body: seq<Stmt>, w: World)
    requires Clean(ctx, body, ctx.initial) && OneType(ctx, body, ctx.initial, gamma) && EnvIn(ctx.initial, gamma)
    requires CountsNoRecords(ctx, body)
    requires HostTyped(cfg, ctx) && ToolsTyped(cfg, ctx, inv, Symbols(body)) && inv(w)
    requires RegsFit(ctx, gamma, InitialRegs(cfg, ctx.initial.Keys))
    ensures var o := RunBody(cfg, body, ctx.initial.Keys, w); inv(o.st.w) && RegsFit(ctx, gamma, o.st.regs)
  {
    hide ExecBlock;
    hide CheckBlock;
    hide OneType;
    hide HostTyped;
    hide ToolsTyped;
    hide RegsFit;
    hide CountsNoRecords;
    hide Within;
    hide Symbols;
    SymbolsWithin(body);
    BlockTyped(cfg, ctx, inv, Symbols(body), gamma, body, ctx.initial, ctx.initial.Keys,
               St(InitialRegs(cfg, ctx.initial.Keys), w));
  }

  // ---------------------------------------------------------------- the hypotheses are needed

  function RebindCond(): Pred {
    FlatPred([Clause(false, LOp(OReg(0)), EMPTY, RNone)], [])
  }

  /** IF EMPTY r0 [ LET r2 -> r1 ], without ELSE. */
  function RebindIf(): Stmt {
    At(0, If(RebindCond(), [At(0, Let(OReg(2), 1))], NoElse))
  }

  lemma RebindChecks(ctx: TaskContext)
    requires ctx.initial == map[0 := TList(TInt), 1 := TInt, 2 := TStr]
    ensures CheckBlock(ctx, [RebindIf()], ctx.initial) == Fall(ctx.initial, [])
  {
    var env := ctx.initial;
    var inner := [At(0, Let(OReg(2), 1))];
    assert CheckBlock(ctx, inner, env) == Fall(env[1 := TStr], []) by { assert inner[1..] == []; }
    assert CheckCond(ctx, env, RebindCond().clauses, 0) == [] by { assert RebindCond().clauses[1..] == []; }
    hide CheckBlock;
    hide CheckCond;
    assert CheckStmt(ctx, RebindIf(), env) == Fall(env, []);
    BlockOfOne(ctx, RebindIf(), env);
  }

  lemma BlockOfOne(ctx: TaskContext, s: Stmt, env: Env)
    requires CheckStmt(ctx, s, env) == Fall(env, [])
    ensures CheckBlock(ctx, [s], env) == Fall(env, [])
  {
    hide CheckStmt;
    assert [s][1..] == [];
  }

  lemma RebindRuns(cfg: Config, w: World, text: string)
    requires w.ops < cfg.maxOps
    ensures var regs: Regs := map[0 := List([]), 1 := Num(5), 2 := Str(text)];
            ExecBlock(cfg, [RebindIf()], {0, 1, 2}, St(regs, w)).st.regs == regs[1 := Str(text)]
  {
    var regs: Regs := map[0 := List([]), 1 := Num(5), 2 := Str(text)];
    var inner := [At(0, Let(OReg(2), 1))];
    var out := Out(St(regs[1 := Str(text)], Tick(w)), Next);
    assert EvalPred(cfg, regs, w, None, RebindCond()) == StepBool(Tick(w), Ok(true));
    assert ExecBlock(cfg, inner, {0, 1, 2}, St(regs, Tick(w))) == out by { assert inner[1..] == []; }
    hide ExecBlock;
    hide EvalFrom;
    var st := St(regs, w);
    assert ExecStmt(cfg, RebindIf(), {0, 1, 2}, st) == out;
    RunOfOne(cfg, RebindIf(), {0, 1, 2}, st);
  }

  lemma RunOfOne(cfg: Config, s: Stmt, seen: set<nat>, st: St)
    ensures ExecBlock(cfg, [s], seen, st) == ExecStmt(cfg, s, seen, st)
  {
    hide ExecStmt;
    assert [s][1..] == [];
  }

  /** One type per register is needed: an IF without ELSE rebinds r1 from INT to STR, the checker keeps INT, and the
      clean program ends with text in r1. */
  lemma RebindingBreaksTypes(cfg: Config, w: World, text: string)
    requires w.ops < cfg.maxOps
    ensures var ctx := TaskContext(map[], map[], map[], map[0 := TList(TInt), 1 := TInt, 2 := TStr]);
            var regs: Regs := map[0 := List([]), 1 := Num(5), 2 := Str(text)];
            var c := CheckBlock(ctx, [RebindIf()], ctx.initial);
            && c.diags == [] && RegsFit(ctx, c.env, regs)
            && !RegsFit(ctx, c.env, ExecBlock(cfg, [RebindIf()], {0, 1, 2}, St(regs, w)).st.regs)
  {
    hide CheckBlock;
    hide ExecBlock;
    var ctx := TaskContext(map[], map[], map[], map[0 := TList(TInt), 1 := TInt, 2 := TStr]);
    RebindChecks(ctx);
    RebindRuns(cfg, w, text);
    var regs: Regs := map[0 := List([]), 1 := Num(5), 2 := Str(text)];
    assert !Fits(ctx, regs[1 := Str(text)][1], ctx.initial[1]);
  }

  /** A field that is the id itself is declared ID or STR. */
  predicate IdFieldsOk(ctx: TaskContext) {
    forall sym | sym in ctx.fields && ctx.fields[sym].name == "id" ::
        ctx.fields[sym].ty.TId? || ctx.fields[sym].ty.TStr?
  }

  /** All symbols of one entity that spell the field `sym` spells declare it alike. */
  predicate SpelledOnce(ctx: TaskContext, sym: string)
    requires sym in ctx.fields
  {
    forall other | other in ctx.fields && ctx.fields[other].entity == ctx.fields[sym].entity &&
        ctx.fields[other].name == ctx.fields[sym].name ::
      ctx.fields[other].ty == ctx.fields[sym].ty
  }

  /** One record of `e` whose field `name` holds a record. */
  function Nested(name: string): Value {
    List([Rec(map["id" := Str("a"), name := Rec(map["id" := Str("b")])])])
  }

  lemma NestedFits(ctx: TaskContext, e: Entity, sym: string)
    requires IdFieldsOk(ctx) && sym in ctx.fields && SpelledOnce(ctx, sym)
    requires ctx.fields[sym].entity == Some(e) && ctx.fields[sym].name != "id" && ctx.fields[sym].ty.TObj?
    ensures Fits(ctx, Nested(ctx.fields[sym].name), TList(TObj(e)))
  {
    var name := ctx.fields[sym].name;
    var inner := Rec(map["id" := Str("b")]);
    assert Fits(ctx, inner, ctx.fields[sym].ty);
    var outer := Rec(map["id" := Str("a"), name := inner]);
    forall other | other in ctx.fields && ctx.fields[other].entity == Some(e) && ctx.fields[other].name in outer.fields
      ensures Fits(ctx, outer.fields[ctx.fields[other].name], ctx.fields[other].ty)
    {
    }
    assert Fits(ctx, outer, TObj(e));
  }

  lemma NestedCounts(cfg: Config, name: string, sym: string, least: bool)
    requires name != "id" && sym in cfg.fields && cfg.fields[sym] == name
    ensures ExtremeValue(cfg, Nested(name), sym, Nil, least) == Ok(Str("b"))
  {
    var x := Nested(name).elems[0];
    assert NarrowId(Prop(x, name)) == Str("b");
    var t := [(Str("b"), 1)];
    assert Nested(name).elems[1..] == [];
    assert Bumped([], Str("b"), true) == t;
    assert Tallied([], Nested(name).elems, name, true) == t;
    assert Best(t, 1, Some(t[0]), least) == Str("b");
    assert Best(t, 0, None, least) == Str("b");
  }

  /** MOST and LEAST answer values of the counted field's type for all lists exactly when the field is not declared
      OBJ. */
  lemma ExtremeFitsExactly(cfg: Config, ctx: TaskContext, e: Entity, sym: string)
    requires HostTyped(cfg, ctx) && IdFieldsOk(ctx) && sym in ctx.fields && SpelledOnce(ctx, sym)
    requires ctx.fields[sym].entity == Some(e) && ctx.fields[sym].name != "id"
    ensures (forall v, least | Fits(ctx, v, TList(TObj(e))) ::
               var r := ExtremeValue(cfg, v, sym, Nil, least); r.Ok? ==> Fits(ctx, r.value, ctx.fields[sym].ty))
            <==> !ctx.fields[sym].ty.TObj?
  {
    hide ExtremeValue;
    if ctx.fields[sym].ty.TObj? {
      NestedFits(ctx, e, sym);
      NestedCounts(cfg, ctx.fields[sym].name, sym, false);
    } else {
      forall v, least | Fits(ctx, v, TList(TObj(e)))
        ensures var r := ExtremeValue(cfg, v, sym, Nil, least); r.Ok? ==> Fits(ctx, r.value, ctx.fields[sym].ty)
      {
        ExtremeFits(cfg, ctx, v, e, sym, Nil, least);
      }
    }
  }

  /** Cards, whose field "owner" is declared a record of "user". */
  function CardContext(): TaskContext {
    TaskContext(map[], map["F0" := FieldDecl(Some("card"), "owner", TObj("user"))], map[],
                map[0 := TList(TObj("card"))])
  }

  /** MOST r0 BY F0 -> r1. */
  function MostOwner(): Stmt {
    At(0, Most(0, "F0", None, 1, false))
  }

  /** Counting a record-typed field breaks it: the clean program types r1 OBJ:user and leaves the owner's id in it,
      although no register has two types and the host keeps its declarations. */
  lemma CountingRecordsBreaksTypes(cfg: Config, w: World)
    requires w.ops < cfg.maxOps && "F0" in cfg.fields && cfg.fields["F0"] == "owner"
    ensures var ctx, regs: Regs := CardContext(), map[0 := Nested("owner")];
            var c := CheckBlock(ctx, [MostOwner()], ctx.initial);
            && c.diags == [] && OneType(ctx, [MostOwner()], ctx.initial, c.env) && HostTyped(cfg, ctx) &&
                 RegsFit(ctx, c.env, regs)
            && !CountsNoRecords(ctx, [MostOwner()])
            && c.env[1] == TObj("user")
            && ExecBlock(cfg, [MostOwner()], {0}, St(regs, w)).st.regs == regs[1 := Str("b")]
            && !RegsFit(ctx, c.env, regs[1 := Str("b")])
  {
    hide CheckBlock;
    hide ExecBlock;
    hide Nested;
    var ctx, regs: Regs := CardContext(), map[0 := Nested("owner")];
    MostOwnerChecks(ctx);
    MostOwnerRuns(cfg, w);
    assert IdFieldsOk(ctx) && SpelledOnce(ctx, "F0");
    NestedFits(ctx, "card", "F0");
    hide Fits;
    TextIsNoRecord(ctx, "b", "user");
    assert regs[1 := Str("b")][1] == Str("b");
  }

  lemma MostOwnerChecks(ctx: TaskContext)
    requires ctx == CardContext()
    ensures var env1 := ctx.initial[1 := TObj("user")];
            CheckBlock(ctx, [MostOwner()], ctx.initial) == Fall(env1, []) &&
                OneType(ctx, [MostOwner()], ctx.initial, env1)
  {
    var env1 := ctx.initial[1 := TObj("user")];
    var b := [MostOwner()];
    assert CheckStmt(ctx, MostOwner(), ctx.initial) == Fall(env1, []);
    assert b[1..] == [];
    assert CheckBlock(ctx, [], env1) == Fall(env1, []) && OneType(ctx, [], env1, env1);
    hide CheckStmt;
    assert StmtOneType(ctx, b[0], ctx.initial, env1);
  }

  lemma MostOwnerRuns(cfg: Config, w: World)
    requires w.ops < cfg.maxOps && "F0" in cfg.fields && cfg.fields["F0"] == "owner"
    ensures var regs: Regs := map[0 := Nested("owner")];
            ExecBlock(cfg, [MostOwner()], {0}, St(regs, w)).st.regs == regs[1 := Str("b")]
  {
    hide ExtremeValue;
    hide Nested;
    var regs: Regs := map[0 := Nested("owner")];
    NestedCounts(cfg, "owner", "F0", false);
    RunOfOne(cfg, MostOwner(), {0}, St(regs, w));
    assert Lookup(regs, 0) == Nested("owner");
  }

  lemma TextIsNoRecord(ctx: TaskContext, s: string, e: Entity)
    ensures !Fits(ctx, Str(s), TObj(e))
  {
  }
}
