/** What clean runs compare. */
module Ordering {
  import opened Common
  import opened Ir
  import opened Runtime
  import opened Semantics
  import opened Effects
  import opened Check
  import opened Typing
  import R = Rules

  // ---------------------------------------------------------------- the comparisons a run evaluates

  /** A number, or nothing. */
  predicate Numeric(v: Value) {
    v.Num? || Absent(v)
  }

  /** If the clause is LT or GT and both its sides evaluate, both are numeric. */
  predicate ClauseOrders(cfg: Config, regs: Regs, w: World, elem: Option<Value>, c: Clause) {
    c.cmp.LT? || c.cmp.GT? ==>
      var l := EvalLeft(cfg, regs, w, elem, c.left);
      l.r.Ok? ==>
        var r := EvalRight(cfg, regs, l.w, elem, c.right);
        r.r.Ok? ==> Numeric(l.r.value) && Numeric(r.r.value)
  }

  /** So do all clauses the predicate evaluates, from clause `i` on. */
  predicate PredOrders(cfg: Config, regs: Regs, w: World, elem: Option<Value>, p: Pred, i: nat)
    requires i < |p.clauses|
    decreases |p.clauses| - i
  {
    ClauseOrders(cfg, regs, w, elem, p.clauses[i]) &&
    var c := EvalClause(cfg, regs, w, elem, p.clauses[i]);
    c.r.Ok? ==>
      if c.r.value then i < |p.ops| && p.ops[i].AND? ==> PredOrders(cfg, regs, c.w, elem, p, i + 1)
      else NextGroup(p, i) < |p.clauses| ==> PredOrders(cfg, regs, c.w, elem, p, NextGroup(p, i))
  }

  /** So does FILTER's predicate, on each element it is evaluated on. */
  predicate KeepOrders(cfg: Config, regs: Regs, w: World, p: Pred, xs: seq<Value>)
    decreases xs
  {
    xs != [] ==>
      PredOrders(cfg, regs, w, Some(xs[0]), p, 0) &&
      var b := EvalPred(cfg, regs, w, Some(xs[0]), p);
      b.r.Ok? ==> KeepOrders(cfg, regs, b.w, p, xs[1..])
  }

  /** The field of every element is numeric or a truth value. */
  predicate KeysOrder(cfg: Config, v: Value, f: string) {
    v.List? && f in cfg.fields ==>
      forall i | 0 <= i < |v.elems| ::
        Numeric(Raw(v.elems[i], cfg.fields[f])) || Raw(v.elems[i], cfg.fields[f]).Bool?
  }

  /** Every LT and GT the run of the block evaluates in a FILTER or an IF has numeric sides; with `sorts`, every SORT
      has keys that are numeric or truth values. */
  predicate BlockOrders(cfg: Config, sorts: bool, body: seq<Stmt>, seen: set<nat>, st: St)
    decreases body, 0, 0
  {
    body != [] ==>
      StmtOrders(cfg, sorts, body[0], seen, st) &&
      var o := ExecStmt(cfg, body[0], seen, st);
      o.flow.Next? ==> BlockOrders(cfg, sorts, body[1..], seen + StmtDsts(body[0]), o.st)
  }

  predicate StmtOrders(cfg: Config, sorts: bool, s: Stmt, seen: set<nat>, st0: St)
    decreases s, 0, 0
  {
    var st := Enter(st0, s.line);
    match s.instr
    case Filter(src, p, _) =>
      var v := Lookup(st.regs, src);
      v.List? ==> KeepOrders(cfg, st.regs, st.w, p, v.elems)
    case Sort(src, f, _, _) => sorts ==> KeysOrder(cfg, Lookup(st.regs, src), f)
    case Foreach(src, v, body) =>
      var it := Iterable(Lookup(st.regs, src));
      it.Ok? ==> EachOrders(cfg, sorts, it.value, v, body, seen + {v}, st)
    case If(cond, thn, els) =>
      PredOrders(cfg, st.regs, st.w, None, cond, 0) &&
      var c := EvalPred(cfg, st.regs, st.w, None, cond);
      c.r.Ok? ==>
        if c.r.value then BlockOrders(cfg, sorts, thn, seen, St(st.regs, c.w))
        else els.Else? ==> BlockOrders(cfg, sorts, els.body, seen + Dsts(thn), St(st.regs, c.w))
    case Try(retry, dst, body) =>
      TryOrders(cfg, sorts, retry, dst, body, seen + {dst}, St(st.regs[dst := Str("OK")], st.w))
    case _ => true
  }

  predicate EachOrders(cfg: Config, sorts: bool, xs: seq<Value>, v: nat, body: seq<Stmt>, seen: set<nat>, st: St)
    decreases body, 1, |xs|
  {
    xs != [] ==>
      var st1 := St(st.regs[v := xs[0]], st.w);
      BlockOrders(cfg, sorts, body, seen, st1) &&
      var o := ExecBlock(cfg, body, seen, st1);
      o.flow.Next? ==> EachOrders(cfg, sorts, xs[1..], v, body, seen, o.st)
  }

  predicate TryOrders(cfg: Config, sorts: bool, left: nat, dst: nat, body: seq<Stmt>, seen: set<nat>, st: St)
    decreases body, 1, left
  {
    BlockOrders(cfg, sorts, body, seen, st) &&
    var o := ExecBlock(cfg, body, seen, st);
    o.flow.Fail? && o.flow.e.ToolErr? && left > 0 ==>
      TryOrders(cfg, sorts, left - 1, dst, body, seen, St(o.st.regs[dst := Str(o.flow.e.code)], o.st.w))
  }

  /** No SORT of the block is by a field declared STR. */
  predicate SortsOffText(ctx: TaskContext, body: seq<Stmt>)
    decreases body
  {
    body == [] || (StmtSortsOffText(ctx, body[0]) && SortsOffText(ctx, body[1..]))
  }

  predicate StmtSortsOffText(ctx: TaskContext, s: Stmt)
    decreases s
  {
    match s.instr
    case Sort(_, f, _, _) => f in ctx.fields ==> !ctx.fields[f].ty.TStr?
    case Foreach(_, _, b) => SortsOffText(ctx, b)
    case If(_, t, e) => SortsOffText(ctx, t) && (match e case NoElse => true case Else(b) => SortsOffText(ctx, b))
    case Try(_, _, b) => SortsOffText(ctx, b)
    case _ => true
  }

  // ---------------------------------------------------------------- clauses

  lemma NumericFits(ctx: TaskContext, v: Value, t: Type)
    requires Fits(ctx, v, t) && (t.TInt? || t.TFloat? || t.TTime? || t.TNull?)
    ensures Numeric(v)
  {
  }

  /** Each side of a clause over types its comparison takes fits its type. */
  ghost predicate SidesFit(cfg: Config, ctx: TaskContext, inv: WorldInv, regs: Regs, w: World, elem: Option<Value>,
                           c: Clause) {
    exists l, r ::
      R.Comparable(c.cmp, l, r) && StepFits(ctx, inv, EvalLeft(cfg, regs, w, elem, c.left), Some(l)) &&
      forall u {:trigger EvalRight(cfg, regs, u, elem, c.right)} | inv(u) ::
        StepFits(ctx, inv, EvalRight(cfg, regs, u, elem, c.right), Some(r))
  }

  lemma SidesOrder(cfg: Config, ctx: TaskContext, inv: WorldInv, regs: Regs, w: World, elem: Option<Value>, c: Clause)
    requires c.cmp.EMPTY? || SidesFit(cfg, ctx, inv, regs, w, elem, c)
    ensures ClauseOrders(cfg, regs, w, elem, c)
  {
    hide Fits;
    hide EvalLeft;
    hide EvalRight;
    if c.cmp.LT? || c.cmp.GT? {
      var l, r :| R.Comparable(c.cmp, l, r) && StepFits(ctx, inv, EvalLeft(cfg, regs, w, elem, c.left), Some(l)) &&
        forall u {:trigger EvalRight(cfg, regs, u, elem, c.right)} | inv(u) ::
          StepFits(ctx, inv, EvalRight(cfg, regs, u, elem, c.right), Some(r));
      var a := EvalLeft(cfg, regs, w, elem, c.left);
      if a.r.Ok? {
        NumericFits(ctx, a.r.value, l);
        var b := EvalRight(cfg, regs, a.w, elem, c.right);
        if b.r.Ok? { NumericFits(ctx, b.r.value, r); }
      }
    }
  }

  lemma FieldStepFits(cfg: Config, ctx: TaskContext, inv: WorldInv, syms: set<string>, w: World, x: Value, e: Entity,
                      f: string, t: Type)
    requires HostTyped(cfg, ctx) && ToolsTyped(cfg, ctx, inv, syms) && inv(w)
    requires Fits(ctx, x, TObj(e)) && R.FieldHas(ctx, e, f, t)
    ensures StepFits(ctx, inv, RtFld(cfg, w, x, f), Some(t))
  {
    hide Fits;
    hide HostTyped;
    hide ToolsTyped;
    hide FldValue;
    hide Charged;
    FieldOf(cfg, ctx, x, e, f);
    ChargedFits(cfg, ctx, inv, syms, w, FldValue(cfg, x, f), Some(t));
  }

  lemma HasFits(cfg: Config, ctx: TaskContext, inv: WorldInv, syms: set<string>, gamma: Env, env: Env, regs: Regs,
                w: World, op: Operand, t: Type)
    requires Ready(cfg, ctx, inv, syms, gamma, env, regs, w) && R.Has(ctx, env, op, t)
    ensures StepFits(ctx, inv, EvalOp(cfg, regs, w, op), Some(t))
  {
    hide StepFits;
    hide EvalOp;
    hide OperandType;
    hide R.Has;
    hide HostTyped;
    hide ToolsTyped;
    hide RegsFit;
    hide EnvIn;
    OperandFits(cfg, ctx, inv, syms, gamma, env, regs, w, op, 0);
    R.OperandExactly(ctx, env, op, 0);
  }

  lemma FilterSidesFit(cfg: Config, ctx: TaskContext, inv: WorldInv, syms: set<string>, gamma: Env, env: Env,
                       regs: Regs, w: World, x: Value, e: Entity, c: Clause)
    requires Ready(cfg, ctx, inv, syms, gamma, env, regs, w) && Fits(ctx, x, TObj(e)) &&
             R.FilterClauseOk(ctx, env, e, c)
    ensures SidesFit(cfg, ctx, inv, regs, w, Some(x), c)
  {
    hide Fits;
    hide HostTyped;
    hide ToolsTyped;
    hide RegsFit;
    hide EnvIn;
    hide StepFits;
    hide RtFld;
    hide EvalOp;
    hide R.Has;
    hide R.FieldHas;
    hide R.Comparable;
    var l, r :| R.FieldHas(ctx, e, c.left.field, l) && R.RightHas(ctx, env, e, c.right, r) && R.Comparable(c.cmp, l, r);
    FieldStepFits(cfg, ctx, inv, syms, w, x, e, c.left.field, l);
    forall u | inv(u)
      ensures StepFits(ctx, inv, EvalRight(cfg, regs, u, Some(x), c.right), Some(r))
    {
      if c.right.RElem? {
        FieldStepFits(cfg, ctx, inv, syms, u, x, e, c.right.field, r);
      } else {
        HasFits(cfg, ctx, inv, syms, gamma, env, regs, u, c.right.op, r);
      }
    }
  }

  lemma CondSidesFit(cfg: Config, ctx: TaskContext, inv: WorldInv, syms: set<string>, gamma: Env, env: Env,
                     regs: Regs, w: World, c: Clause)
    requires Ready(cfg, ctx, inv, syms, gamma, env, regs, w) && R.CondClauseOk(ctx, env, c)
    ensures c.cmp.EMPTY? || SidesFit(cfg, ctx, inv, regs, w, None, c)
  {
    hide HostTyped;
    hide ToolsTyped;
    hide RegsFit;
    hide EnvIn;
    hide StepFits;
    hide EvalOp;
    hide R.Has;
    hide R.Comparable;
    if !c.cmp.EMPTY? {
      var l, r :| R.Has(ctx, env, c.left.op, l) && R.Has(ctx, env, c.right.op, r) && R.Comparable(c.cmp, l, r);
      HasFits(cfg, ctx, inv, syms, gamma, env, regs, w, c.left.op, l);
      forall u | inv(u)
        ensures StepFits(ctx, inv, EvalRight(cfg, regs, u, None, c.right), Some(r))
      {
        HasFits(cfg, ctx, inv, syms, gamma, env, regs, u, c.right.op, r);
      }
    }
  }

  /** The clauses of a predicate check clean, over records of the entity or without an element. */
  ghost predicate ClausesOk(ctx: TaskContext, env: Env, e: Option<Entity>, p: Pred) {
    forall i | 0 <= i < |p.clauses| ::
      if e.Some? then R.FilterClauseOk(ctx, env, e.value, p.clauses[i]) else R.CondClauseOk(ctx, env, p.clauses[i])
  }

  ghost predicate ElemFits(ctx: TaskContext, elem: Option<Value>, e: Option<Entity>) {
    elem.Some? == e.Some? && (e.Some? ==> Fits(ctx, elem.value, TObj(e.value)))
  }

  lemma {:induction false} PredNumeric(cfg: Config, ctx: TaskContext, inv: WorldInv, syms: set<string>, gamma: Env,
                                       env: Env, regs: Regs, w: World, elem: Option<Value>, e: Option<Entity>, p: Pred,
                                       i: nat)
    requires Ready(cfg, ctx, inv, syms, gamma, env, regs, w) && ElemFits(ctx, elem, e) && ClausesOk(ctx, env, e, p)
    requires i < |p.clauses|
    ensures PredOrders(cfg, regs, w, elem, p, i)
    decreases |p.clauses| - i
  {
    hide Fits;
    hide HostTyped;
    hide ToolsTyped;
    hide RegsFit;
    hide EnvIn;
    hide EvalClause;
    hide NextGroup;
    hide R.FilterClauseOk;
    hide R.CondClauseOk;
    hide SidesFit;
    hide ClauseOrders;
    var cl := p.clauses[i];
    if e.Some? {
      FilterSidesFit(cfg, ctx, inv, syms, gamma, env, regs, w, elem.value, e.value, cl);
    } else {
      CondSidesFit(cfg, ctx, inv, syms, gamma, env, regs, w, cl);
    }
    SidesOrder(cfg, ctx, inv, regs, w, elem, cl);
    ClauseInv(cfg, ctx, inv, syms, regs, w, elem, cl);
    var c := EvalClause(cfg, regs, w, elem, cl);
    if c.r.Ok? {
      var j := if c.r.value then i + 1 else NextGroup(p, i);
      if j < |p.clauses| { PredNumeric(cfg, ctx, inv, syms, gamma, env, regs, c.w, elem, e, p, j); }
    }
  }

  lemma {:induction false} KeepNumeric(cfg: Config, ctx: TaskContext, inv: WorldInv, syms: set<string>, gamma: Env,
                                       env: Env, regs: Regs, w: World, e: Entity, p: Pred, xs: seq<Value>)
    requires Ready(cfg, ctx, inv, syms, gamma, env, regs, w) && AllFit(ctx, xs, TObj(e)) &&
             ClausesOk(ctx, env, Some(e), p)
    ensures KeepOrders(cfg, regs, w, p, xs)
    decreases xs
  {
    hide Fits;
    hide HostTyped;
    hide ToolsTyped;
    hide RegsFit;
    hide EnvIn;
    hide ClausesOk;
    hide EvalFrom;
    hide PredOrders;
    if xs != [] {
      PredNumeric(cfg, ctx, inv, syms, gamma, env, regs, w, Some(xs[0]), Some(e), p, 0);
      PredInv(cfg, ctx, inv, syms, regs, w, Some(xs[0]), p, 0);
      var b := EvalPred(cfg, regs, w, Some(xs[0]), p);
      if b.r.Ok? { KeepNumeric(cfg, ctx, inv, syms, gamma, env, regs, b.w, e, p, xs[1..]); }
    }
  }

  // ---------------------------------------------------------------- instructions

  lemma FilterNumeric(cfg: Config, ctx: TaskContext, inv: WorldInv, syms: set<string>, gamma: Env, sorts: bool, s: Stmt,
                      env: Env, seen: set<nat>, st: St)
    requires s.instr.Filter? && StmtClean(ctx, s, env) && Ready(cfg, ctx, inv, syms, gamma, env, st.regs, st.w)
    ensures StmtOrders(cfg, sorts, At(0, s.instr), seen, st)
  {
    hide KeepOrders;
    hide CheckFilter;
    hide RegsFit;
    hide EnvIn;
    hide Fits;
    hide ToolsTyped;
    hide HostTyped;
    hide R.FilterClauseOk;
    var Filter(src, p, dst) := s.instr;
    assert |CheckStmt(ctx, s, env).diags| >= |ListEntity(env, src, s.line).1|;
    EntityOf(env, src, s.line);
    var e := env[src].elem.entity;
    assert |CheckStmt(ctx, s, env).diags| >= |CheckFilter(ctx, env, p.clauses, e, s.line)|;
    R.FilterExactly(ctx, env, e, p.clauses, s.line);
    LookupFits(ctx, gamma, st.regs, env, src);
    var v := Lookup(st.regs, src);
    ListFits(ctx, v, env[src].elem);
    if v.List? { KeepNumeric(cfg, ctx, inv, syms, gamma, env, st.regs, st.w, e, p, v.elems); }
  }

  lemma RawFits(ctx: TaskContext, x: Value, e: Entity, f: string)
    requires Fits(ctx, x, TObj(e)) && f in ctx.fields && ctx.fields[f].entity == Some(e)
    requires ctx.fields[f].ty.TInt? || ctx.fields[f].ty.TTime? || ctx.fields[f].ty.TBool?
    ensures Numeric(Raw(x, ctx.fields[f].name)) || Raw(x, ctx.fields[f].name).Bool?
  {
  }

  lemma SortNumeric(cfg: Config, ctx: TaskContext, inv: WorldInv, syms: set<string>, gamma: Env, sorts: bool, s: Stmt,
                    env: Env, seen: set<nat>, st: St)
    requires s.instr.Sort? && StmtClean(ctx, s, env) && Ready(cfg, ctx, inv, syms, gamma, env, st.regs, st.w)
    requires sorts ==> StmtSortsOffText(ctx, s)
    ensures StmtOrders(cfg, sorts, At(0, s.instr), seen, st)
  {
    hide RegsFit;
    hide EnvIn;
    hide Fits;
    hide ToolsTyped;
    var Sort(src, f, desc, dst) := s.instr;
    assert |CheckStmt(ctx, s, env).diags| >= |ListEntity(env, src, s.line).1|;
    EntityOf(env, src, s.line);
    var e := env[src].elem.entity;
    assert |CheckStmt(ctx, s, env).diags| >= |FieldType(ctx, f, e, s.line).diags|;
    FieldOk(ctx, f, e, s.line);
    LookupFits(ctx, gamma, st.regs, env, src);
    var v := Lookup(st.regs, src);
    ListFits(ctx, v, env[src].elem);
    if sorts && v.List? {
      forall i | 0 <= i < |v.elems|
        ensures Numeric(Raw(v.elems[i], cfg.fields[f])) || Raw(v.elems[i], cfg.fields[f]).Bool?
      {
        RawFits(ctx, v.elems[i], e, f);
      }
    }
  }

  // ---------------------------------------------------------------- blocks

  ghost predicate Premises(cfg: Config, ctx: TaskContext, inv: WorldInv, syms: set<string>, gamma: Env, sorts: bool,
                           body: seq<Stmt>, env: Env, st: St) {
    && Within(body, syms) && CountsNoRecords(ctx, body) && (sorts ==> SortsOffText(ctx, body))
    && Clean(ctx, body, env) && OneType(ctx, body, env, gamma)
    && Ready(cfg, ctx, inv, syms, gamma, env, st.regs, st.w)
  }

  ghost predicate StmtPremises(cfg: Config, ctx: TaskContext, inv: WorldInv, syms: set<string>, gamma: Env, sorts: bool,
                               s: Stmt, env: Env, st: St) {
    && StmtWithin(s, syms) && StmtCountsNoRecords(ctx, s) && (sorts ==> StmtSortsOffText(ctx, s))
    && StmtClean(ctx, s, env) && StmtOneType(ctx, s, env, gamma)
    && Ready(cfg, ctx, inv, syms, gamma, env, st.regs, st.w)
  }

  lemma {:induction false} BlockNumeric(cfg: Config, ctx: TaskContext, inv: WorldInv, syms: set<string>, gamma: Env,
                                        sorts: bool, body: seq<Stmt>, env: Env, seen: set<nat>, st: St)
    requires Premises(cfg, ctx, inv, syms, gamma, sorts, body, env, st)
    ensures BlockOrders(cfg, sorts, body, seen, st)
    decreases body, 0, 0
  {
    hide ExecStmt;
    hide CheckStmt;
    hide StmtOneType;
    hide StmtOrders;
    hide RegsFit;
    hide EnvIn;
    hide ToolsTyped;
    hide HostTyped;
    if body != [] {
      CleanSplit(ctx, body, env);
      StmtNumeric(cfg, ctx, inv, syms, gamma, sorts, body[0], env, seen, st);
      StmtTyped(cfg, ctx, inv, syms, gamma, body[0], env, seen, st);
      var o := ExecStmt(cfg, body[0], seen, st);
      if o.flow.Next? {
        var env1 := CheckStmt(ctx, body[0], env).env;
        assert EnvIn(env1, gamma) by { OneTypeEnv(ctx, body[0], env, gamma); }
        if !CheckStmt(ctx, body[0], env).done {
          BlockNumeric(cfg, ctx, inv, syms, gamma, sorts, body[1..], env1, seen + StmtDsts(body[0]), o.st);
        } else {
          assert BlockOrders(cfg, sorts, body[1..], seen + StmtDsts(body[0]), o.st);
        }
      }
    }
  }

  lemma OrdersEntered(cfg: Config, sorts: bool, s: Stmt, seen: set<nat>, st: St)
    ensures StmtOrders(cfg, sorts, s, seen, st) == StmtOrders(cfg, sorts, At(0, s.instr), seen, Enter(st, s.line))
  {
    hide BlockOrders;
    hide EachOrders;
    hide TryOrders;
    hide PredOrders;
    hide KeepOrders;
    hide KeysOrder;
  }

  lemma {:induction false} StmtNumeric(cfg: Config, ctx: TaskContext, inv: WorldInv, syms: set<string>, gamma: Env,
                                       sorts: bool, s: Stmt, env: Env, seen: set<nat>, st0: St)
    requires StmtPremises(cfg, ctx, inv, syms, gamma, sorts, s, env, st0)
    ensures StmtOrders(cfg, sorts, s, seen, st0)
    decreases s, 1, 0
  {
    OrdersEntered(cfg, sorts, s, seen, st0);
    var st := Enter(st0, s.line);
    assert StmtPremises(cfg, ctx, inv, syms, gamma, sorts, s, env, st) by {
      hide RegsFit;
      hide EnvIn;
      hide HostTyped;
      hide StmtOneType;
      hide StmtWithin;
      hide CheckStmt;
    }
    if s.instr.Foreach? || s.instr.If? || s.instr.Try? {
      hide StmtOrders;
      hide StmtPremises;
      CompoundNumeric(cfg, ctx, inv, syms, gamma, sorts, s, env, seen, st);
    } else if s.instr.Filter? {
      hide StmtOrders;
      hide Ready;
      hide CheckStmt;
      FilterNumeric(cfg, ctx, inv, syms, gamma, sorts, s, env, seen, st);
    } else if s.instr.Sort? {
      hide StmtOrders;
      hide Ready;
      hide CheckStmt;
      SortNumeric(cfg, ctx, inv, syms, gamma, sorts, s, env, seen, st);
    }
  }

  lemma {:induction false} CompoundNumeric(cfg: Config, ctx: TaskContext, inv: WorldInv, syms: set<string>, gamma: Env,
                                           sorts: bool, s: Stmt, env: Env, seen: set<nat>, st: St)
    requires s.instr.Foreach? || s.instr.If? || s.instr.Try?
    requires StmtPremises(cfg, ctx, inv, syms, gamma, sorts, s, env, st)
    ensures StmtOrders(cfg, sorts, At(0, s.instr), seen, st)
    decreases s, 0, 1
  {
    if s.instr.Foreach? {
      ForeachNumeric(cfg, ctx, inv, syms, gamma, sorts, s, env, seen, st);
    } else if s.instr.If? {
      IfNumeric(cfg, ctx, inv, syms, gamma, sorts, s, env, seen, st);
    } else {
      TryStmtNumeric(cfg, ctx, inv, syms, gamma, sorts, s, env, seen, st);
    }
  }

  lemma {:induction false} ForeachNumeric(cfg: Config, ctx: TaskContext, inv: WorldInv, syms: set<string>, gamma: Env,
                                          sorts: bool, s: Stmt, env: Env, seen: set<nat>, st: St)
    requires s.instr.Foreach? && StmtPremises(cfg, ctx, inv, syms, gamma, sorts, s, env, st)
    ensures StmtOrders(cfg, sorts, At(0, s.instr), seen, st)
    decreases s, 0, 0
  {
    hide Fits;
    hide ToolsTyped;
    hide HostTyped;
    hide RegsFit;
    hide EnvIn;
    hide CheckBlock;
    hide OneType;
    hide EachOrders;
    hide Iterable;
    hide ElemType;
    var Foreach(src, v, body) := s.instr;
    assert |CheckStmt(ctx, s, env).diags| >= |ElemType(env, src, s.line).diags|;
    ElemOf(env, src, s.line);
    LookupFits(ctx, gamma, st.regs, env, src);
    ElementFits(ctx, Lookup(st.regs, src), env[src].elem, Nil);
    var it := Iterable(Lookup(st.regs, src));
    if it.Ok? {
      assert EnvIn(env[v := env[src].elem], gamma) by { EnvInBind(env, gamma, v, env[src].elem); }
      EachNumeric(cfg, ctx, inv, syms, gamma, sorts, it.value, v, env[src].elem, body, env[v := env[src].elem],
                  seen + {v}, st);
    }
  }

  lemma {:induction false} EachNumeric(cfg: Config, ctx: TaskContext, inv: WorldInv, syms: set<string>, gamma: Env,
                                       sorts: bool, xs: seq<Value>, v: nat, t: Type, body: seq<Stmt>, env: Env,
                                       seen: set<nat>, st: St)
    requires v in env && env[v] == t && AllFit(ctx, xs, t)
    requires Premises(cfg, ctx, inv, syms, gamma, sorts, body, env, st)
    ensures EachOrders(cfg, sorts, xs, v, body, seen, st)
    decreases body, 1, |xs|
  {
    hide Fits;
    hide ToolsTyped;
    hide HostTyped;
    hide RegsFit;
    hide CheckBlock;
    hide OneType;
    hide ExecBlock;
    hide BlockOrders;
    if xs != [] {
      var st1 := St(st.regs[v := xs[0]], st.w);
      BindFits(ctx, gamma, st.regs, v, xs[0]);
      BlockNumeric(cfg, ctx, inv, syms, gamma, sorts, body, env, seen, st1);
      BlockTyped(cfg, ctx, inv, syms, gamma, body, env, seen, st1);
      var o := ExecBlock(cfg, body, seen, st1);
      if o.flow.Next? { EachNumeric(cfg, ctx, inv, syms, gamma, sorts, xs[1..], v, t, body, env, seen, o.st); }
    }
  }

  lemma {:induction false} IfNumeric(cfg: Config, ctx: TaskContext, inv: WorldInv, syms: set<string>, gamma: Env,
                                     sorts: bool, s: Stmt, env: Env, seen: set<nat>, st: St)
    requires s.instr.If? && StmtPremises(cfg, ctx, inv, syms, gamma, sorts, s, env, st)
    ensures StmtOrders(cfg, sorts, At(0, s.instr), seen, st)
    decreases s, 0, 0
  {
    hide ToolsTyped;
    hide HostTyped;
    hide RegsFit;
    hide EnvIn;
    hide CheckBlock;
    hide CheckCond;
    hide OneType;
    hide BlockOrders;
    hide EvalFrom;
    hide PredOrders;
    hide R.CondClauseOk;
    var If(cond, thn, els) := s.instr;
    var d0, t := CheckCond(ctx, env, cond.clauses, s.line), CheckBlock(ctx, thn, env);
    if els.Else? {
      var e := CheckBlock(ctx, els.body, env);
      assert |d0 + t.diags + e.diags| == 0;
    } else {
      assert |d0 + t.diags| == 0;
    }
    R.CondExactly(ctx, env, cond.clauses, s.line);
    PredNumeric(cfg, ctx, inv, syms, gamma, env, st.regs, st.w, None, None, cond, 0);
    PredInv(cfg, ctx, inv, syms, st.regs, st.w, None, cond, 0);
    var c := EvalPred(cfg, st.regs, st.w, None, cond);
    if c.r.Ok? {
      if c.r.value {
        BlockNumeric(cfg, ctx, inv, syms, gamma, sorts, thn, env, seen, St(st.regs, c.w));
      } else if els.Else? {
        BlockNumeric(cfg, ctx, inv, syms, gamma, sorts, els.body, env, seen + Dsts(thn), St(st.regs, c.w));
      }
    }
  }

  lemma {:induction false} TryStmtNumeric(cfg: Config, ctx: TaskContext, inv: WorldInv, syms: set<string>, gamma: Env,
                                          sorts: bool, s: Stmt, env: Env, seen: set<nat>, st: St)
    requires s.instr.Try? && StmtPremises(cfg, ctx, inv, syms, gamma, sorts, s, env, st)
    ensures StmtOrders(cfg, sorts, At(0, s.instr), seen, st)
    decreases s, 0, 0
  {
    hide ToolsTyped;
    hide HostTyped;
    hide RegsFit;
    hide CheckBlock;
    hide OneType;
    hide TryOrders;
    var Try(retry, dst, body) := s.instr;
    assert dst in CheckStmt(ctx, s, env).env && gamma[dst] == TStatus;
    BindFits(ctx, gamma, st.regs, dst, Str("OK"));
    TryNumeric(cfg, ctx, inv, syms, gamma, sorts, retry, dst, body, env, seen + {dst},
               St(st.regs[dst := Str("OK")], st.w));
  }

  lemma {:induction false} TryNumeric(cfg: Config, ctx: TaskContext, inv: WorldInv, syms: set<string>, gamma: Env,
                                      sorts: bool, left: nat, dst: nat, body: seq<Stmt>, env: Env, seen: set<nat>,
                                      st: St)
    requires dst in gamma && gamma[dst] == TStatus
    requires Premises(cfg, ctx, inv, syms, gamma, sorts, body, env, st)
    ensures TryOrders(cfg, sorts, left, dst, body, seen, st)
    decreases body, 1, left
  {
    hide ToolsTyped;
    hide HostTyped;
    hide RegsFit;
    hide EnvIn;
    hide CheckBlock;
    hide OneType;
    hide ExecBlock;
    hide BlockOrders;
    BlockNumeric(cfg, ctx, inv, syms, gamma, sorts, body, env, seen, st);
    BlockTyped(cfg, ctx, inv, syms, gamma, body, env, seen, st);
    var o := ExecBlock(cfg, body, seen, st);
    if o.flow.Fail? && o.flow.e.ToolErr? && left > 0 {
      var v := Str(o.flow.e.code);
      BindFits(ctx, gamma, o.st.regs, dst, v);
      TryNumeric(cfg, ctx, inv, syms, gamma, sorts, left - 1, dst, body, env, seen, St(o.st.regs[dst := v], o.st.w));
    }
  }

  /** The first state of a run. */
  function Start(cfg: Config, ctx: TaskContext, w: World): St {
    St(InitialRegs(cfg, ctx.initial.Keys), w)
  }

  /** Every LT and GT a clean program evaluates in FILTER and IF compares numbers or nothing, over all runs; its SORTs
      too, by numbers and truth values, when none is by a field declared STR. */
  lemma OrdersNumbers(cfg: Config, ctx: TaskContext, inv: WorldInv, gamma: Env, sorts: bool, body: seq<Stmt>, w: World)
    requires Clean(ctx, body, ctx.initial) && OneType(ctx, body, ctx.initial, gamma) && EnvIn(ctx.initial, gamma)
    requires CountsNoRecords(ctx, body) && (sorts ==> SortsOffText(ctx, body))
    requires HostTyped(cfg, ctx) && ToolsTyped(cfg, ctx, inv, Symbols(body)) && inv(w)
    requires RegsFit(ctx, gamma, InitialRegs(cfg, ctx.initial.Keys))
    ensures BlockOrders(cfg, sorts, body, ctx.initial.Keys, Start(cfg, ctx, w))
  {
    hide BlockOrders;
    hide CheckBlock;
    hide OneType;
    hide HostTyped;
    hide ToolsTyped;
    hide RegsFit;
    hide CountsNoRecords;
    hide SortsOffText;
    hide Within;
    hide Symbols;
    hide InitialRegs;
    SymbolsWithin(body);
    BlockNumeric(cfg, ctx, inv, Symbols(body), gamma, sorts, body, ctx.initial, ctx.initial.Keys, Start(cfg, ctx, w));
  }
}
