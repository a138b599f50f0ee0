/** The checker as a mutable object (core/typecheck.py). */
module CheckerObject {
  import opened Common
  import opened Ir
  import opened Check

  /** A mutable environment, the Python dict. */
  class EnvDict {
    var m: Env

    constructor (m: Env)
      ensures this.m == m
    {
      this.m := m;
    }
  }

  class Checker {
    const ctx: TaskContext
    var diags: seq<Diag>
    var pauseEnvs: seq<Env>

    constructor (ctx: TaskContext)
      ensures this.ctx == ctx && diags == [] && pauseEnvs == []
    {
      this.ctx := ctx;
      this.diags := [];
      this.pauseEnvs := [];
    }

    method FieldDeclType(sym: string, entity: Entity, line: nat) returns (t: Option<Type>)
      modifies this`diags
      ensures var s := FieldType(ctx, sym, entity, line); t == s.ty && diags == old(diags) + s.diags
    {
      if sym !in ctx.fields || ctx.fields[sym].entity != Some(entity) {
        diags := diags + [Diag(UnknownField, line)];
        return None;
      }
      t := Some(ctx.fields[sym].ty);
    }

    method TypeOf(op: Operand, env: EnvDict, line: nat) returns (t: Option<Type>)
      modifies this`diags
      ensures var s := OperandType(ctx, env.m, op, line); t == s.ty && diags == old(diags) + s.diags
    {
      match op
      case OReg(n) =>
        if n !in env.m {
          diags := diags + [Diag(Unbound, line)];
          return None;
        }
        t := Some(env.m[n]);
      case ORegField(n, f) =>
        if n !in env.m {
          diags := diags + [Diag(Unbound, line)];
          return None;
        }
        if !env.m[n].TObj? {
          diags := diags + [Diag(TypeMismatch, line)];
          return None;
        }
        t := FieldDeclType(f, env.m[n].entity, line);
      case OConst(sym) =>
        if sym !in ctx.constants {
          diags := diags + [Diag(Unbound, line)];
          return None;
        }
        t := Some(ctx.constants[sym].ty);
      case ONow => t := Some(TTime);
      case ONull => t := Some(TNull);
      case OInt(_) => t := Some(TInt);
    }

    method Compare(cmp: Cmp, lt: Option<Type>, rt: Option<Type>, line: nat)
      modifies this`diags
      ensures diags == old(diags) + CheckCmp(cmp, lt, rt, line)
    {
      if lt.None? || rt.None? { return; }
      var l, r := lt.value, rt.value;
      match cmp
      case LT => diags := diags + Mismatch(IsNumeric(l) || l.TNull?, line) + Mismatch(IsNumeric(r) || r.TNull?, line);
      case GT => diags := diags + Mismatch(IsNumeric(l) || l.TNull?, line) + Mismatch(IsNumeric(r) || r.TNull?, line);
      case CONTAINS =>
        if l.TStr? {
          if !(r.TStr? || r.TNull?) { diags := diags + [Diag(TypeMismatch, line)]; }
        } else if !l.TNull? {
          diags := diags + [Diag(TypeMismatch, line)];
        }
      case IN =>
        if r.TNull? || l.TNull? { return; }
        if !r.TList? {
          diags := diags + [Diag(TypeMismatch, line)];
        } else if !(Compatible(r.elem, l) || Compatible(l, r.elem)) {
          diags := diags + [Diag(TypeMismatch, line)];
        }
      case _ =>
        if !(Compatible(l, r) || Compatible(r, l)) { diags := diags + [Diag(TypeMismatch, line)]; }
    }

    method ElemEntity(env: EnvDict, n: nat, line: nat) returns (e: Option<Entity>)
      modifies this`diags
      ensures var (e', d) := ListEntity(env.m, n, line); e == e' && diags == old(diags) + d
    {
      if n !in env.m {
        diags := diags + [Diag(Unbound, line)];
        return None;
      }
      if !(env.m[n].TList? && env.m[n].elem.TObj?) {
        diags := diags + [Diag(TypeMismatch, line)];
        return None;
      }
      e := Some(env.m[n].elem.entity);
    }

    method FilterClause(c: Clause, entity: Entity, env: EnvDict, line: nat)
      modifies this`diags
      ensures diags == old(diags) + CheckFilterClause(ctx, env.m, c, entity, line)
    {
      hide FieldType;
      hide OperandType;
      hide CheckCmp;
      var l, r: Option<Type> := None, None;
      if c.left.LField? {
        l := FieldDeclType(c.left.field, entity, line);
      } else {
        diags := diags + [Diag(UnknownField, line)];
      }
      match c.right {
        case RElem(f) => r := FieldDeclType(f, entity, line);
        case ROp(op) => r := TypeOf(op, env, line);
        case RNone => diags := diags + [Diag(Unbound, line)];
      }
      Compare(c.cmp, l, r, line);
    }

    method FilterPred(cs: seq<Clause>, entity: Entity, env: EnvDict, line: nat)
      modifies this`diags
      ensures diags == old(diags) + CheckFilter(ctx, env.m, cs, entity, line)
    {
      hide CheckFilterClause;
      for i := 0 to |cs|
        invariant diags + CheckFilter(ctx, env.m, cs[i..], entity, line) ==
                  old(diags) + CheckFilter(ctx, env.m, cs, entity, line)
      {
        assert cs[i..][0] == cs[i] && cs[i..][1..] == cs[i + 1..];
        FilterClause(cs[i], entity, env, line);
      }
    }

    method CondClause(c: Clause, env: EnvDict, line: nat)
      modifies this`diags
      ensures diags == old(diags) + CheckCondClause(ctx, env.m, c, line)
    {
      hide OperandType;
      hide CheckCmp;
      ghost var d := diags;
      var l, r: Option<Type> := None, None;
      if c.left.LOp? { l := TypeOf(c.left.op, env, line); } else { diags := diags + [Diag(Unbound, line)]; }
      ghost var lt := if c.left.LOp? then OperandType(ctx, env.m, c.left.op, line)
          else Typed(None, [Diag(Unbound, line)]);
      assert l == lt.ty && diags == d + lt.diags;
      if c.cmp.EMPTY? {
        ghost var m := if l.Some? then Mismatch(l.value.TList? || l.value.TNull?, line) else [];
        AppendTwo(d, lt.diags, m);
        hide Mismatch;
        if l.Some? { diags := diags + Mismatch(l.value.TList? || l.value.TNull?, line); }
      } else {
        hide Mismatch;
        if c.right.ROp? { r := TypeOf(c.right.op, env, line); } else { diags := diags + [Diag(Unbound, line)]; }
        ghost var rt := if c.right.ROp? then OperandType(ctx, env.m, c.right.op, line)
            else Typed(None, [Diag(Unbound, line)]);
        assert r == rt.ty && diags == d + lt.diags + rt.diags;
        Compare(c.cmp, l, r, line);
        AppendThree(d, lt.diags, rt.diags, CheckCmp(c.cmp, l, r, line));
      }
    }

    method CondPred(cs: seq<Clause>, env: EnvDict, line: nat)
      modifies this`diags
      ensures diags == old(diags) + CheckCond(ctx, env.m, cs, line)
    {
      hide CheckCondClause;
      for i := 0 to |cs|
        invariant diags + CheckCond(ctx, env.m, cs[i..], line) == old(diags) + CheckCond(ctx, env.m, cs, line)
      {
        assert cs[i..][0] == cs[i] && cs[i..][1..] == cs[i + 1..];
        CondClause(cs[i], env, line);
      }
    }

    /** `_check_call`, the binding aside. */
    method CallArgs(c: CallI, env: EnvDict)
      modifies this`diags
      ensures diags == old(diags) + CheckCall(ctx, env.m, c)
    {
      hide OperandType;
      hide Compatible;
      if c.tool !in ctx.tools {
        diags := diags + [Diag(UnknownTool, c.line)];
        return;
      }
      var params := ctx.tools[c.tool].params;
      ghost var all := CheckArgs(ctx, env.m, params, c.args, 0, c.line);
      hide CheckArgs;
      for i := 0 to |params|
        invariant diags + CheckArgs(ctx, env.m, params, c.args, i, c.line) == old(diags) + all
      {
        ghost var rest := CheckArgs(ctx, env.m, params, c.args, i + 1, c.line);
        ghost var d0 := diags;
        if i >= |c.args| {
          if params[i].required { diags := diags + [Diag(MissingArg, c.line)]; }
        } else if c.args[i].ONull? && params[i].required {
          diags := diags + [Diag(MissingArg, c.line)];
        } else {
          var at := TypeOf(c.args[i], env, c.line);
          if at.Some? { diags := diags + Mismatch(Compatible(params[i].ty, at.value), c.line); }
        }
        ArgHere(ctx, env.m, params, c.args, i, c.line);
        AppendTwo(d0, CheckArg(ctx, env.m, params, c.args, i, c.line), rest);
      }
      ArgsEnd(ctx, env.m, params, c.args, c.line);
      assert diags + [] == diags;
      var extra := Mismatch(|c.args| <= |params|, c.line);
      AppendTwo(old(diags), all, extra);
      assert CheckCall(ctx, env.m, c) == all + extra;
      diags := diags + extra;
    }

    method Slots(ops: seq<Operand>, env: EnvDict, line: nat)
      modifies this`diags
      ensures diags == old(diags) + CheckSlots(ctx, env.m, ops, line)
    {
      hide OperandType;
      for i := 0 to |ops|
        invariant diags + CheckSlots(ctx, env.m, ops[i..], line) == old(diags) + CheckSlots(ctx, env.m, ops, line)
      {
        assert ops[i..][0] == ops[i] && ops[i..][1..] == ops[i + 1..];
        var t := TypeOf(ops[i], env, line);
        if t.Some? { diags := diags + Mismatch(Renderable(t.value), line); }
      }
    }

    method ParallelCalls(calls: seq<CallI>, env: EnvDict)
      modifies this`diags, env
      ensures diags == old(diags) + CheckParallel(ctx, old(env.m), calls, CallDstSet(calls))
      ensures env.m == BindParallel(ctx, old(env.m), calls)
    {
      hide CheckCall;
      hide CheckFresh;
      hide ResultType;
      var dsts := CallDstSet(calls);
      hide CallDstSet;
      for i := 0 to |calls|
        invariant env.m == old(env.m)
        invariant diags + CheckParallel(ctx, env.m, calls[i..], dsts) ==
                  old(diags) + CheckParallel(ctx, env.m, calls, dsts)
      {
        assert calls[i..][0] == calls[i] && calls[i..][1..] == calls[i + 1..];
        ghost var d := diags;
        diags := diags + CheckFresh(calls[i].args, dsts, calls[i].line);
        CallArgs(calls[i], env);
        AppendThree(d, CheckFresh(calls[i].args, dsts, calls[i].line), CheckCall(ctx, env.m, calls[i]),
                    CheckParallel(ctx, env.m, calls[i + 1..], dsts));
      }
      for i := 0 to |calls|
        invariant diags == old(diags) + CheckParallel(ctx, old(env.m), calls, dsts)
        invariant BindParallel(ctx, env.m, calls[i..]) == BindParallel(ctx, old(env.m), calls)
      {
        assert calls[i..][0] == calls[i] && calls[i..][1..] == calls[i + 1..];
        if calls[i].dst.Some? { env.m := env.m[calls[i].dst.value := ResultType(ctx, calls[i].tool)]; }
      }
    }

    method ListElem(env: EnvDict, n: nat, line: nat) returns (t: Option<Type>)
      modifies this`diags
      ensures var s := ElemType(env.m, n, line); t == s.ty && diags == old(diags) + s.diags
    {
      if n !in env.m {
        diags := diags + [Diag(Unbound, line)];
        return None;
      }
      if !env.m[n].TList? {
        diags := diags + [Diag(TypeMismatch, line)];
        return None;
      }
      t := Some(env.m[n].elem);
    }

    /** The effect of checking text on the checker and the environment: what the function `c` says, appended. */
    twostate predicate Did(env: EnvDict, c: CheckOut)
      reads this, env
    {
      env.m == c.env && diags == old(diags) + c.diags && pauseEnvs == old(pauseEnvs) + c.pauses
    }

    /** What is left of `whole` once part of the text has been checked: `r` is the check of the rest. */
    ghost predicate Pending(env: EnvDict, diags0: seq<Diag>, pauses0: seq<Env>, whole: CheckOut, r: CheckOut)
      reads this, env
    {
      Rest(diags, pauseEnvs, diags0, pauses0, whole, r)
    }

    /** `check_block`: after a terminator every further instruction is unreachable. */
    method Block(body: seq<Stmt>, env: EnvDict) returns (terminated: bool)
      modifies this, env
      ensures Did(env, CheckBlock(ctx, body, old(env.m))) && terminated == CheckBlock(ctx, body, old(env.m)).done
      decreases body, 2
    {
      hide CheckStmt;
      hide CheckBlock;
      hide AllUnreachable;
      hide Rest;
      terminated := false;
      var i := 0;
      ghost var whole := CheckBlock(ctx, body, env.m);
      ghost var d0, p0 := diags, pauseEnvs;
      assert body[0..] == body;
      RestBegin(d0, p0, whole);
      while i < |body| && !terminated
        invariant i <= |body|
        invariant Pending(env, d0, p0, whole, Remaining(ctx, body, i, env.m, terminated))
        decreases |body| - i, !terminated
      {
        ghost var m, d, p := env.m, diags, pauseEnvs;
        assert body[i] in body;
        terminated := Instruction(body[i], env);
        RestStep(ctx, body, i, m, d, p, d0, p0, whole);
        i := i + 1;
      }
      RestEnd(ctx, body, i, env.m, terminated, diags, pauseEnvs, d0, p0, whole);
      while i < |body|
        invariant i <= |body| && env.m == whole.env && terminated == whole.done && (i < |body| ==> terminated)
        invariant pauseEnvs == p0 + whole.pauses && diags + (if terminated then AllUnreachable(body[i..]) else []) ==
                  d0 + whole.diags
      {
        UnreachableStep(body, i, diags);
        diags := diags + [Diag(Unreachable, body[i].line)];
        i := i + 1;
      }
      UnreachableNone(body);
    }

    method Instruction(s: Stmt, env: EnvDict) returns (terminated: bool)
      modifies this, env
      ensures Did(env, CheckStmt(ctx, s, old(env.m))) && terminated == CheckStmt(ctx, s, old(env.m)).done
      decreases s, 1
    {
      terminated := false;
      match s.instr
      case Foreach(_, _, _) => Loop(s, env);
      case If(_, _, _) => terminated := Branch(s, env);
      case Try(_, dst, body) => Attempt(s, env);
      case Return(op) =>
        var _ := TypeOf(op, env, s.line);
        terminated := true;
      case Stop => terminated := true;
      case Abort(reason, refs) =>
        diags := diags + CheckRefs(ctx, reason, refs, s.line);
        terminated := true;
      case Pause =>
        pauseEnvs := pauseEnvs + [env.m];
        terminated := true;
      case _ => Binding(s, env);
    }

    /** FOREACH: the loop variable and whatever the body binds stay bound. */
    method Loop(s: Stmt, env: EnvDict)
      requires s.instr.Foreach?
      modifies this, env
      ensures Did(env, CheckStmt(ctx, s, old(env.m))) && !CheckStmt(ctx, s, old(env.m)).done
      decreases s, 0
    {
      hide CheckBlock;
      hide ElemType;
      var Foreach(src, v, body) := s.instr;
      var t := ListElem(env, src, s.line);
      if t.Some? {
        env.m := env.m[v := t.value];
        var _ := Block(body, env);
      }
    }

    method Attempt(s: Stmt, env: EnvDict)
      requires s.instr.Try?
      modifies this, env
      ensures Did(env, CheckStmt(ctx, s, old(env.m))) && !CheckStmt(ctx, s, old(env.m)).done
      decreases s, 0
    {
      hide CheckBlock;
      var Try(_, dst, body) := s.instr;
      var _ := Block(body, env);
      env.m := env.m[dst := TStatus];
    }

    /** IF: both arms start from copies of the environment; what survives depends on which arms fall through. */
    method Branch(s: Stmt, env: EnvDict) returns (terminated: bool)
      requires s.instr.If?
      modifies this, env
      ensures Did(env, CheckStmt(ctx, s, old(env.m))) && terminated == CheckStmt(ctx, s, old(env.m)).done
      decreases s, 0
    {
      hide CheckBlock;
      hide CheckCond;
      var If(cond, thn, els) := s.instr;
      CondPred(cond.clauses, env, s.line);
      var envThen := new EnvDict(env.m);
      var doneThen := Block(thn, envThen);
      match els
      case NoElse => terminated := false;
      case Else(b) =>
        var envElse := new EnvDict(env.m);
        var doneElse := Block(b, envElse);
        terminated := doneThen && doneElse;
        if doneThen && !doneElse {
          env.m := envElse.m;
        } else if doneElse && !doneThen {
          env.m := envThen.m;
        } else if !doneThen && !doneElse {
          env.m := Merged(envThen.m, envElse.m);
        }
    }

    /** Instructions without a body of their own that fall through. */
    method Binding(s: Stmt, env: EnvDict)
      requires var i := s.instr; !i.Foreach? && !i.If? && !i.Try? && !i.Return? && !i.Stop? && !i.Abort? && !i.Pause?
      modifies this, env
      ensures Did(env, CheckStmt(ctx, s, old(env.m))) && !CheckStmt(ctx, s, old(env.m)).done
    {
      hide CheckCall;
      hide CheckParallel;
      hide BindParallel;
      if s.instr.DoCall? {
        var c := s.instr.call;
        CallArgs(c, env);
        if c.tool in ctx.tools && c.dst.Some? { env.m := env.m[c.dst.value := ResultType(ctx, c.tool)]; }
      } else if s.instr.Parallel? {
        ParallelCalls(s.instr.calls, env);
      } else if s.instr.Most? {
        MostBinding(s.instr.src, s.instr.field, s.instr.cands, s.instr.dst, env, s.line);
      } else if s.instr.Filter? || s.instr.MapF? || s.instr.Sort? {
        RecordsBinding(s, env);
      } else {
        ValueBinding(s, env);
      }
    }

    method ValueBinding(s: Stmt, env: EnvDict)
      requires var i := s.instr; i.Let? || i.Get? || i.Format? || i.Count? || i.Select? || i.First?
      modifies this, env
      ensures Did(env, CheckStmt(ctx, s, old(env.m)))
    {
      hide OperandType;
      hide ElemType;
      hide CheckTemplate;
      hide CheckSlots;
      var ln := s.line;
      match s.instr
      case Let(op, dst) =>
        var t := TypeOf(op, env, ln);
        if t.Some? { env.m := env.m[dst := t.value]; }
      case Get(src, f, dst) =>
        var t := TypeOf(ORegField(src, f), env, ln);
        if t.Some? { env.m := env.m[dst := t.value]; }
      case Format(template, ops, dst, _) =>
        diags := diags + CheckTemplate(ctx, template, |ops|, ln);
        Slots(ops, env, ln);
        env.m := env.m[dst := TStr];
      case Count(src, dst) =>
        var _ := ListElem(env, src, ln);
        env.m := env.m[dst := TInt];
      case Select(src, idx, dst) =>
        var it := TypeOf(idx, env, ln);
        var t := ListElem(env, src, ln);
        if t.Some? { env.m := env.m[dst := t.value]; }
        if it.Some? { diags := diags + Mismatch(it.value.TInt?, ln); }
      case First(src, dst) =>
        var t := ListElem(env, src, ln);
        if t.Some? { env.m := env.m[dst := t.value]; }
    }

    method RecordsBinding(s: Stmt, env: EnvDict)
      requires s.instr.Filter? || s.instr.MapF? || s.instr.Sort?
      modifies this, env
      ensures Did(env, CheckStmt(ctx, s, old(env.m)))
    {
      hide FieldType;
      hide CheckFilter;
      var ln := s.line;
      var e := ElemEntity(env, s.instr.src, ln);
      if e.Some? {
        match s.instr
        case Filter(src, p, dst) =>
          FilterPred(p.clauses, e.value, env, ln);
          env.m := env.m[dst := env.m[src]];
        case MapF(src, f, dst) =>
          var t := FieldDeclType(f, e.value, ln);
          if t.Some? { env.m := env.m[dst := TList(t.value)]; }
        case Sort(src, f, _, dst) =>
          var t := FieldDeclType(f, e.value, ln);
          if t.Some? {
            diags := diags + Mismatch(t.value.TInt? || t.value.TTime? || t.value.TStr? || t.value.TBool?, ln);
          }
          env.m := env.m[dst := env.m[src]];
      }
    }

    method MostBinding(src: nat, f: string, cands: Option<nat>, dst: nat, env: EnvDict, line: nat)
      modifies this, env
      ensures Did(env, CheckMost(ctx, old(env.m), src, f, cands, dst, line))
    {
      hide FieldType;
      var e := ElemEntity(env, src, line);
      var t: Option<Type> := None;
      if e.Some? {
        t := FieldDeclType(f, e.value, line);
        if t.Some? { env.m := env.m[dst := t.value]; }
      }
      if cands.Some? {
        if cands.value !in env.m {
          diags := diags + [Diag(Unbound, line)];
        } else if t.Some? {
          diags := diags + Mismatch(t.value.TId? && env.m[cands.value] == TList(TObj(t.value.entity)), line);
        }
      }
    }
  }

  /** One parameter's diagnostics. */
  ghost function CheckArg(ctx: TaskContext, env: Env, params: seq<Param>, args: seq<Operand>, i: nat,
                          line: nat): seq<Diag>
    requires i < |params|
  {
    if i >= |args| then (if params[i].required then [Diag(MissingArg, line)] else [])
    else if args[i].ONull? && params[i].required then [Diag(MissingArg, line)]
    else
      var at := OperandType(ctx, env, args[i], line);
      at.diags + (if at.ty.Some? then Mismatch(Compatible(params[i].ty, at.ty.value), line) else [])
  }

  lemma ArgsEnd(ctx: TaskContext, env: Env, params: seq<Param>, args: seq<Operand>, line: nat)
    ensures CheckArgs(ctx, env, params, args, |params|, line) == []
  {
  }

  lemma ArgHere(ctx: TaskContext, env: Env, params: seq<Param>, args: seq<Operand>, i: nat, line: nat)
    requires i < |params|
    ensures CheckArgs(ctx, env, params, args, i, line) ==
            CheckArg(ctx, env, params, args, i, line) + CheckArgs(ctx, env, params, args, i + 1, line)
  {
    hide OperandType;
    hide Compatible;
    hide Mismatch;
  }

  lemma AppendTwo<T>(d: seq<T>, a: seq<T>, b: seq<T>)
    ensures d + a + b == d + (a + b)
  {
  }

  lemma AppendThree<T>(d: seq<T>, a: seq<T>, b: seq<T>, c: seq<T>)
    ensures d + a + b + c == d + (a + b + c)
  {
  }

  // ---------------------------------------------------------------- the two loops of `check_block`

  ghost predicate Rest(d: seq<Diag>, p: seq<Env>, d0: seq<Diag>, p0: seq<Env>, whole: CheckOut, r: CheckOut) {
    r.env == whole.env && r.done == whole.done && d + r.diags == d0 + whole.diags && p + r.pauses == p0 + whole.pauses
  }

  /** The check of `body[i..]`, or its diagnostics once control cannot reach it. */
  ghost function Remaining(ctx: TaskContext, body: seq<Stmt>, i: nat, m: Env, terminated: bool): CheckOut
    requires i <= |body|
  {
    if terminated then CheckOut(m, AllUnreachable(body[i..]), true, []) else CheckBlock(ctx, body[i..], m)
  }

  lemma RestBegin(d0: seq<Diag>, p0: seq<Env>, whole: CheckOut)
    ensures Rest(d0, p0, d0, p0, whole, whole)
  {
  }

  lemma RestStep(ctx: TaskContext, body: seq<Stmt>, i: nat, m: Env, d: seq<Diag>, p: seq<Env>, d0: seq<Diag>,
                 p0: seq<Env>, whole: CheckOut)
    requires i < |body| && Rest(d, p, d0, p0, whole, CheckBlock(ctx, body[i..], m))
    ensures var h := CheckStmt(ctx, body[i], m);
            Rest(d + h.diags, p + h.pauses, d0, p0, whole, Remaining(ctx, body, i + 1, h.env, h.done))
  {
    hide CheckStmt;
    hide AllUnreachable;
    var h := CheckStmt(ctx, body[i], m);
    assert body[i..][0] == body[i] && body[i..][1..] == body[i + 1..];
    var r := Remaining(ctx, body, i + 1, h.env, h.done);
    assert (d + h.diags) + r.diags == d + (h.diags + r.diags);
    assert (p + h.pauses) + r.pauses == p + (h.pauses + r.pauses);
    if h.done { assert h.pauses + [] == h.pauses; }
  }

  lemma RestEnd(ctx: TaskContext, body: seq<Stmt>, i: nat, m: Env, terminated: bool, d: seq<Diag>, p: seq<Env>,
                d0: seq<Diag>, p0: seq<Env>, whole: CheckOut)
    requires i <= |body| && (i == |body| || terminated) && Rest(d, p, d0, p0, whole,
                                                                Remaining(ctx, body, i, m, terminated))
    ensures m == whole.env && terminated == whole.done && p == p0 + whole.pauses
    ensures d + (if terminated then AllUnreachable(body[i..]) else []) == d0 + whole.diags
  {
    hide AllUnreachable;
    assert p + [] == p;
    if !terminated { assert body[i..] == []; }
  }

  lemma UnreachableStep(body: seq<Stmt>, i: nat, d: seq<Diag>)
    requires i < |body|
    ensures d + AllUnreachable(body[i..]) == d + [Diag(Unreachable, body[i].line)] + AllUnreachable(body[i + 1..])
  {
    assert AllUnreachable(body[i..]) == [Diag(Unreachable, body[i].line)] + AllUnreachable(body[i + 1..]);
  }

  lemma UnreachableNone(body: seq<Stmt>)
    ensures AllUnreachable(body[|body|..]) == []
  {
  }

  /** `check`: a fresh checker over the context's initial registers. */
  method CheckText(ctx: TaskContext, body: seq<Stmt>) returns (ok: bool, diags: seq<Diag>, pauseEnvs: seq<Env>,
                   finalEnv: Env)
    ensures var o := CheckProgram(ctx, body); diags == o.diags && pauseEnvs == o.pauses && finalEnv == o.env
    ensures ok <==> Clean(ctx, body, ctx.initial)
  {
    var c := new Checker(ctx);
    var env := new EnvDict(ctx.initial);
    var _ := c.Block(body, env);
    return c.diags == [], c.diags, c.pauseEnvs, env.m;
  }
}
