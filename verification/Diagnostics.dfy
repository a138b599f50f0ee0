/** Which diagnostics a fault draws. */
module Diagnostics {
  import opened Common
  import opened Ir
  import opened Check
  import opened Rules

  ghost predicate Reports(d: seq<Diag>, code: Code) {
    exists i | 0 <= i < |d| :: d[i].code == code
  }

  predicate OnLine(d: seq<Diag>, line: nat) {
    forall i | 0 <= i < |d| :: d[i].line == line
  }

  lemma ReportsJoined(a: seq<Diag>, b: seq<Diag>, code: Code)
    ensures Reports(a + b, code) <==> Reports(a, code) || Reports(b, code)
  {
    if Reports(a, code) {
      var i :| 0 <= i < |a| && a[i].code == code;
      assert (a + b)[i].code == code;
    }
    if Reports(b, code) {
      var i :| 0 <= i < |b| && b[i].code == code;
      assert (a + b)[|a| + i].code == code;
    }
  }

  // ---------------------------------------------------------------- operands

  /** Why an operand has no type: nothing is bound or declared by its name, it reads a field of what is no record, or
      the entity has no such field. */
  predicate Faulty(ctx: TaskContext, env: Env, op: Operand, code: Code) {
    match op
    case OReg(n) => n !in env && code.Unbound?
    case ORegField(n, f) =>
      if n !in env then code.Unbound?
      else if !env[n].TObj? then code.TypeMismatch?
      else !(f in ctx.fields && ctx.fields[f].entity == Some(env[n].entity)) && code.UnknownField?
    case OConst(sym) => sym !in ctx.constants && code.Unbound?
    case _ => false
  }

  lemma OperandFaults(ctx: TaskContext, env: Env, op: Operand, line: nat, code: Code)
    ensures var d := OperandType(ctx, env, op, line).diags;
            (Reports(d, code) <==> Faulty(ctx, env, op, code)) && OnLine(d, line) && |d| <= 1
  {
    var d := OperandType(ctx, env, op, line).diags;
    if Faulty(ctx, env, op, code) { assert d[0].code == code; }
  }

  // ---------------------------------------------------------------- calls

  /** A required parameter is given nothing or NULL. */
  predicate Lacks(p: Param, args: seq<Operand>, i: nat) {
    p.required && (i >= |args| || args[i].ONull?)
  }

  /** An argument the parameter does not take. */
  ghost predicate Misfits(ctx: TaskContext, env: Env, p: Param, op: Operand) {
    exists t :: Has(ctx, env, op, t) && !Takes(NUMERIC, p.ty, t)
  }

  /** What parameter `i` draws. */
  ghost predicate ArgDraws(ctx: TaskContext, env: Env, p: Param, args: seq<Operand>, i: nat, code: Code) {
    if Lacks(p, args, i) then code.MissingArg?
    else i < |args| && (Faulty(ctx, env, args[i], code) || (code.TypeMismatch? && Misfits(ctx, env, p, args[i])))
  }

  /** What a call draws: for an undeclared tool nothing but UNKNOWN_TOOL; otherwise what its parameters draw, and a type
      error for surplus arguments. */
  ghost predicate CallDraws(ctx: TaskContext, env: Env, c: CallI, code: Code) {
    if c.tool !in ctx.tools then code.UnknownTool?
    else
      var params := ctx.tools[c.tool].params;
      || (code.TypeMismatch? && |c.args| > |params|)
      || exists i | 0 <= i < |params| :: ArgDraws(ctx, env, params[i], c.args, i, code)
  }

  lemma ArgFaults(ctx: TaskContext, env: Env, p: Param, args: seq<Operand>, i: nat, line: nat, code: Code)
    requires i < |args| && !(args[i].ONull? && p.required)
    ensures var at := OperandType(ctx, env, args[i], line);
            var d := at.diags + (if at.ty.Some? then Mismatch(Compatible(p.ty, at.ty.value), line) else []);
            (Reports(d, code) <==> ArgDraws(ctx, env, p, args, i, code)) && OnLine(d, line)
  {
    hide OperandType;
    hide Has;
    hide Compatible;
    hide Takes;
    hide Faulty;
    var at := OperandType(ctx, env, args[i], line);
    OperandFaults(ctx, env, args[i], line, code);
    OperandExactly(ctx, env, args[i], line);
    if at.ty.Some? {
      CompatibleExactly(p.ty, at.ty.value);
      var m := Mismatch(Compatible(p.ty, at.ty.value), line);
      ReportsJoined(at.diags, m, code);
      if !Compatible(p.ty, at.ty.value) { assert m[0].code.TypeMismatch?; }
    } else {
      assert at.diags + [] == at.diags;
    }
  }

  lemma {:induction false} ArgsFaults(ctx: TaskContext, env: Env, params: seq<Param>, args: seq<Operand>, i: nat,
                                      line: nat, code: Code)
    requires i <= |params|
    ensures var d := CheckArgs(ctx, env, params, args, i, line);
            (Reports(d, code) <==> exists k | i <= k < |params| :: ArgDraws(ctx, env, params[k], args, k, code)) &&
            OnLine(d, line)
    decreases |params| - i
  {
    hide OperandType;
    hide Compatible;
    hide ArgDraws;
    if i < |params| {
      ArgsFaults(ctx, env, params, args, i + 1, line, code);
      var rest := CheckArgs(ctx, env, params, args, i + 1, line);
      var here: seq<Diag>;
      if Lacks(params[i], args, i) {
        here := [Diag(MissingArg, line)];
        assert here[0].code.MissingArg?;
        LackDraws(ctx, env, params[i], args, i, code);
      } else if i < |args| {
        var at := OperandType(ctx, env, args[i], line);
        here := at.diags + (if at.ty.Some? then Mismatch(Compatible(params[i].ty, at.ty.value), line) else []);
        ArgFaults(ctx, env, params[i], args, i, line, code);
      } else {
        here := [];
        NothingDrawn(ctx, env, params[i], args, i, code);
      }
      assert CheckArgs(ctx, env, params, args, i, line) == here + rest;
      hide CheckArgs;
      ReportsJoined(here, rest, code);
    }
  }

  lemma LackDraws(ctx: TaskContext, env: Env, p: Param, args: seq<Operand>, i: nat, code: Code)
    requires Lacks(p, args, i)
    ensures ArgDraws(ctx, env, p, args, i, code) <==> code.MissingArg?
  {
  }

  lemma NothingDrawn(ctx: TaskContext, env: Env, p: Param, args: seq<Operand>, i: nat, code: Code)
    requires !p.required && i >= |args|
    ensures !ArgDraws(ctx, env, p, args, i, code)
  {
  }

  /** A call reports exactly the codes it draws, all on its line. */
  lemma CallFaults(ctx: TaskContext, env: Env, c: CallI, code: Code)
    ensures Reports(CheckCall(ctx, env, c), code) <==> CallDraws(ctx, env, c, code)
    ensures OnLine(CheckCall(ctx, env, c), c.line)
  {
    hide CheckArgs;
    hide ArgDraws;
    if c.tool in ctx.tools {
      var params := ctx.tools[c.tool].params;
      ArgsFaults(ctx, env, params, c.args, 0, c.line, code);
      var surplus := Mismatch(|c.args| <= |params|, c.line);
      ReportsJoined(CheckArgs(ctx, env, params, c.args, 0, c.line), surplus, code);
      if |c.args| > |params| { assert surplus[0].code.TypeMismatch?; }
    } else {
      assert CheckCall(ctx, env, c)[0].code.UnknownTool?;
    }
  }

  // ---------------------------------------------------------------- ABORT

  /** The kinds of symbol a reason may name. */
  predicate Names(reason: string, kind: char) {
    match reason
    case "NOT_FOUND" => kind in {'C', 'S', 'N', 'B', 'D', 'I'}
    case "UNSUPPORTED" => kind in {'C', 'S', 'N', 'B', 'D', 'I'}
    case "NEEDS_INFO" => kind == 'F'
    case "AMBIGUOUS" => kind in {'T', 'F', 'C', 'S', 'N', 'B', 'D', 'I'}
    case _ => false
  }

  predicate RefDraws(ctx: TaskContext, reason: string, r: string, code: Code) {
    if r == "" || !Names(reason, r[0]) then code.TypeMismatch?
    else if r[0] == 'T' then r !in ctx.tools && code.UnknownTool?
    else if r[0] == 'F' then r !in ctx.fields && code.UnknownField?
    else r !in ctx.constants && code.Unbound?
  }

  lemma KindsExactly(reason: string, kind: char)
    ensures kind in RefKinds(reason) <==> Names(reason, kind)
  {
    assert "CSNBDI" == ['C', 'S', 'N', 'B', 'D', 'I'];
    assert "TFCSNBDI" == ['T', 'F', 'C', 'S', 'N', 'B', 'D', 'I'];
  }

  lemma RefFault(ctx: TaskContext, reason: string, r: string, line: nat, code: Code)
    ensures var d := CheckRefs(ctx, reason, [r], line);
            (Reports(d, code) <==> RefDraws(ctx, reason, r, code)) && OnLine(d, line)
  {
    var d := CheckRefs(ctx, reason, [r], line);
    assert CheckRefs(ctx, reason, [], line) == [];
    assert [r][1..] == [];
    if r != "" { KindsExactly(reason, r[0]); }
    hide RefKinds;
    hide Names;
    if RefDraws(ctx, reason, r, code) { assert d[0].code == code; }
  }

  lemma RefsSplit(ctx: TaskContext, reason: string, refs: seq<string>, line: nat)
    requires refs != []
    ensures CheckRefs(ctx, reason, refs, line) ==
            CheckRefs(ctx, reason, [refs[0]], line) + CheckRefs(ctx, reason, refs[1..], line)
  {
    hide RefKinds;
    assert [refs[0]][1..] == [];
    assert CheckRefs(ctx, reason, [], line) == [];
  }

  lemma {:induction false} RefFaults(ctx: TaskContext, reason: string, refs: seq<string>, line: nat, code: Code)
    ensures var d := CheckRefs(ctx, reason, refs, line);
            (Reports(d, code) <==> exists k | 0 <= k < |refs| :: RefDraws(ctx, reason, refs[k], code)) &&
                OnLine(d, line)
    decreases refs
  {
    if refs != [] {
      RefFault(ctx, reason, refs[0], line, code);
      RefFaults(ctx, reason, refs[1..], line, code);
      RefsSplit(ctx, reason, refs, line);
      hide CheckRefs;
      hide RefDraws;
      ReportsJoined(CheckRefs(ctx, reason, [refs[0]], line), CheckRefs(ctx, reason, refs[1..], line), code);
      assert refs == [refs[0]] + refs[1..];
    }
  }

  // ---------------------------------------------------------------- statements nothing reaches

  /** Behind a statement that ends the run each statement draws one UNREACHABLE on its line, and nothing else of the
      block is checked. */
  lemma DeadFaults(ctx: TaskContext, body: seq<Stmt>, env: Env)
    requires body != [] && CheckStmt(ctx, body[0], env).done
    ensures var o, h := CheckBlock(ctx, body, env), CheckStmt(ctx, body[0], env);
            && |o.diags| == |h.diags| + |body| - 1 && o.diags[..|h.diags|] == h.diags
            && (forall k | 1 <= k < |body| :: o.diags[|h.diags| + k - 1] == Diag(Unreachable, body[k].line))
            && o.env == h.env && o.done && o.pauses == h.pauses
  {
    hide CheckStmt;
  }
}
