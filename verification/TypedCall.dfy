/** CALL under typed slots. */
module TypedCall {
  import opened Common
  import opened Decimal
  import opened Ir
  import opened Check
  import opened Gbnf
  import opened DigitTrie
  import opened TypeText
  import TR = Rules

  /** A task's symbol table, as the grammar builder reads it. */
  datatype Table = Table(tools: seq<(string, seq<Param>)>, fields: seq<(string, Type)>, consts: seq<(string, Type)>)

  /** The checker's context declares the same tools and constants; symbols are spelled canonically. */
  ghost predicate Describes(tb: Table, ctx: TaskContext) {
    && (forall i | 0 <= i < |tb.tools| ::
        tb.tools[i].0 in ctx.tools && ctx.tools[tb.tools[i].0].params == tb.tools[i].1)
    && (forall i | 0 <= i < |tb.consts| :: ConstOk(tb.consts[i].0) && tb.consts[i].0 in ctx.constants &&
          ctx.constants[tb.consts[i].0].ty == tb.consts[i].1)
  }

  predicate ConstOk(sym: string) {
    IsConst(sym) && (sym[1] == '0' ==> |sym| == 2)
  }

  // ---------------------------------------------------------------- compatibility

  predicate Arithmetic(t: Type) {
    t.TInt? || t.TFloat?
  }

  /** The grammar's `_compatible`, which does not count TIME as numeric. */
  predicate SlotCompatible(want: Type, have: Type) {
    if have.TNull? || want.TNull? then true
    else if want.TId? && (have.TId? || have.TObj?) then want.entity == have.entity
    else if Arithmetic(want) && Arithmetic(have) then true
    else if want.TList? && have.TList? then SlotCompatible(want.elem, have.elem)
    else want == have
  }

  /** It is narrower than the checker's. */
  lemma {:induction false} SlotNarrower(want: Type, have: Type)
    requires SlotCompatible(want, have)
    ensures Compatible(want, have)
    decreases want
  {
    if want.TList? && have.TList? { SlotNarrower(want.elem, have.elem); }
  }

  // ---------------------------------------------------------------- operand classes

  /** One `op-<type>` rule: register, register field, constant, NULL, NOW and number alternatives. */
  datatype OpRule = OpRule(fields: seq<string>, consts: seq<string>, allowNull: bool, now: bool, num: bool)

  function Fitting(want: Type, syms: seq<(string, Type)>): seq<string> {
    if syms == [] then []
    else (if SlotCompatible(want, syms[0].1) then [syms[0].0] else []) + Fitting(want, syms[1..])
  }

  /** `_operand_alts` without kinds. */
  function OperandAlts(tb: Table, want: Type, allowNull: bool): OpRule {
    OpRule(Fitting(want, tb.fields), Fitting(want, tb.consts), allowNull, want.TTime?, Arithmetic(want))
  }

  /** `_type_id`: characters a rule name cannot hold become hyphens. */
  function Hyphened(s: string): string {
    if s == "" then "" else [if s[0] in ": _" then '-' else s[0]] + Hyphened(s[1..])
  }

  function RuleName(p: Param): string {
    "op-" + Hyphened(FormatType(p.ty)) + (if p.required then "" else "-opt")
  }

  type Rules = map<string, OpRule>

  /** `op_class`: a name that is already there is not built again. */
  function OpClass(tb: Table, rules: Rules, p: Param): Rules {
    var name := RuleName(p);
    if name in rules then rules else rules[name := OperandAlts(tb, p.ty, !p.required)]
  }

  function Requireds(params: seq<Param>, required: bool): seq<Param> {
    if params == [] then []
    else (if params[0].required == required then [params[0]] else []) + Requireds(params[1..], required)
  }

  function Reversed(ps: seq<Param>): (r: seq<Param>)
    ensures |r| == |ps|
  {
    if ps == [] then [] else Reversed(ps[1..]) + [ps[0]]
  }

  /** The slots of one tool in the order `op_class` is asked about them: required ones first, then the optional ones
      backwards. */
  function Asked(params: seq<Param>): seq<Param> {
    Requireds(params, true) + Reversed(Requireds(params, false))
  }

  function AllAsked(tools: seq<(string, seq<Param>)>): seq<Param> {
    if tools == [] then [] else AllAsked(tools[..|tools| - 1]) + Asked(tools[|tools| - 1].1)
  }

  function Classes(tb: Table, rules: Rules, slots: seq<Param>): Rules
    decreases |slots|
  {
    if slots == [] then rules else OpClass(tb, Classes(tb, rules, slots[..|slots| - 1]), slots[|slots| - 1])
  }

  /** `op_rules` once every tool's CALL rule is written. */
  function RulesOf(tb: Table): Rules {
    Classes(tb, map[], AllAsked(tb.tools))
  }

  lemma {:induction false} ClassesJoin(tb: Table, a: seq<Param>, b: seq<Param>)
    ensures Classes(tb, Classes(tb, map[], a), b) == Classes(tb, map[], a + b)
    decreases |b|
  {
    hide OpClass;
    if b == [] {
      assert a + b == a;
    } else {
      assert (a + b)[..|a + b| - 1] == a + b[..|b| - 1];
      ClassesJoin(tb, a, b[..|b| - 1]);
    }
  }

  /** The loops of `typed_call_rules` over tools and parameters. */
  method TypedCallRules(tb: Table) returns (rules: Rules)
    ensures rules == RulesOf(tb)
  {
    hide OpClass;
    rules := map[];
    for t := 0 to |tb.tools|
      invariant rules == Classes(tb, map[], AllAsked(tb.tools[..t]))
    {
      var params := tb.tools[t].1;
      var slots := Asked(params);
      ghost var start := rules;
      for i := 0 to |slots|
        invariant rules == Classes(tb, start, slots[..i])
      {
        assert slots[..i + 1][..i] == slots[..i];
        rules := OpClass(tb, rules, slots[i]);
      }
      assert slots[..|slots|] == slots;
      ClassesJoin(tb, AllAsked(tb.tools[..t]), slots);
      assert tb.tools[..t + 1][..t] == tb.tools[..t];
    }
    assert tb.tools[..|tb.tools|] == tb.tools;
  }

  /** No two slots of different type or necessity share a rule name. */
  ghost predicate NamesApart(slots: seq<Param>) {
    forall i, j | 0 <= i < |slots| && 0 <= j < |slots| && RuleName(slots[i]) == RuleName(slots[j]) ::
      slots[i].ty == slots[j].ty && slots[i].required == slots[j].required
  }

  /** Then each slot's name leads to the class of its own type. */
  lemma {:induction false} ClassOfSlot(tb: Table, slots: seq<Param>, i: nat)
    requires NamesApart(slots) && i < |slots|
    ensures RuleName(slots[i]) in Classes(tb, map[], slots)
    ensures Classes(tb, map[], slots)[RuleName(slots[i])] == OperandAlts(tb, slots[i].ty, !slots[i].required)
    decreases |slots|
  {
    hide RuleName;
    hide OperandAlts;
    var m := |slots| - 1;
    var init := slots[..m];
    assert NamesApart(init) by { assert forall k | 0 <= k < m :: init[k] == slots[k]; }
    if i < m {
      ClassOfSlot(tb, init, i);
    } else {
      var before := Classes(tb, map[], init);
      if RuleName(slots[m]) in before {
        var k := NamedBy(tb, init, RuleName(slots[m]));
        ClassOfSlot(tb, init, k);
        assert init[k] == slots[k];
      }
    }
  }

  lemma {:induction false} NamedBy(tb: Table, slots: seq<Param>, name: string) returns (k: nat)
    requires name in Classes(tb, map[], slots)
    ensures k < |slots| && RuleName(slots[k]) == name
    decreases |slots|
  {
    hide RuleName;
    hide OperandAlts;
    var m := |slots| - 1;
    if RuleName(slots[m]) == name {
      k := m;
    } else {
      k := NamedBy(tb, slots[..m], name);
    }
  }

  // ---------------------------------------------------------------- what the rules admit

  /** The operand is a word of the rule. */
  predicate AdmitsOperand(r: OpRule, op: Operand) {
    match op
    case OReg(_) => true
    case ORegField(_, f) => FieldRuleAdmits(r.fields, f)
    case OConst(sym) => r.consts != [] && AllConsts(r.consts) && Accepts(ConstExpr(r.consts), sym) == Some(true)
    case ONow => r.now
    case ONull => r.allowNull
    case OInt(_) => r.num
  }

  predicate FieldRuleAdmits(fields: seq<string>, f: string) {
    fields != [] && (forall i | 0 <= i < |fields| :: |fields[i]| > 0 && AllDigits(fields[i][1..])) &&
    Accepts(SymbolExpr('F', set i | 0 <= i < |fields| :: Read(fields[i][1..])), f) == Some(true)
  }

  /** The arguments fill all required slots, then some of the optional ones, each from its class. */
  ghost predicate AdmitsArgs(rules: Rules, slots: seq<Param>, required: nat, args: seq<Operand>) {
    && required <= |args| <= |slots|
    && forall i | 0 <= i < |args| :: RuleName(slots[i]) in rules && AdmitsOperand(rules[RuleName(slots[i])], args[i])
  }

  /** Slots in the order the CALL rule spells them. */
  function Spelled(params: seq<Param>): seq<Param> {
    Requireds(params, true) + Requireds(params, false)
  }

  ghost predicate AdmitsCall(tb: Table, c: CallI) {
    exists t | 0 <= t < |tb.tools| :: tb.tools[t].0 == c.tool && AdmitsBy(tb, tb.tools[t].1, c.args)
  }

  ghost predicate AdmitsBy(tb: Table, params: seq<Param>, args: seq<Operand>) {
    AdmitsArgs(RulesOf(tb), Spelled(params), |Requireds(params, true)|, args)
  }

  // ---------------------------------------------------------------- admitted calls check clean

  /** Optional parameters come last. */
  predicate OptionalsTrail(params: seq<Param>) {
    forall i, j | 0 <= i < j < |params| :: params[j].required ==> params[i].required
  }

  lemma {:induction false} SpelledInOrder(params: seq<Param>)
    requires OptionalsTrail(params)
    ensures Spelled(params) == params
    ensures forall i | 0 <= i < |params| :: params[i].required <==> i < |Requireds(params, true)|
    decreases params
  {
    if params != [] {
      var rest := params[1..];
      SpelledInOrder(rest);
      if params[0].required {
        assert Spelled(params) == [params[0]] + Spelled(rest);
      } else {
        NoneRequired(rest);
      }
      assert params == [params[0]] + rest;
    }
  }

  lemma {:induction false} NoneRequired(params: seq<Param>)
    requires forall i | 0 <= i < |params| :: !params[i].required
    ensures Requireds(params, true) == [] && Requireds(params, false) == params
    decreases params
  {
    if params != [] {
      NoneRequired(params[1..]);
      assert params == [params[0]] + params[1..];
    }
  }

  lemma {:induction false} FittingExact(want: Type, syms: seq<(string, Type)>, s: string)
    ensures s in Fitting(want, syms) <==>
            exists i | 0 <= i < |syms| :: syms[i].0 == s && SlotCompatible(want, syms[i].1)
    decreases syms
  {
    hide SlotCompatible;
    if syms != [] {
      FittingExact(want, syms[1..], s);
      if exists i | 0 <= i < |syms| :: syms[i].0 == s && SlotCompatible(want, syms[i].1) {
        var i :| 0 <= i < |syms| && syms[i].0 == s && SlotCompatible(want, syms[i].1);
        if i > 0 { assert syms[1..][i - 1] == syms[i]; }
      }
    }
  }

  predicate Closed(op: Operand) {
    !op.OReg? && !op.ORegField?
  }

  /** A constant, NOW, NULL or integer the slot's class admits has a compatible type, and no required slot takes
      NULL. */
  lemma AdmittedOperand(tb: Table, ctx: TaskContext, env: Env, want: Type, allowNull: bool, op: Operand, line: nat)
    requires Describes(tb, ctx) && Closed(op) && AdmitsOperand(OperandAlts(tb, want, allowNull), op)
    ensures OperandType(ctx, env, op, line).ty.Some? && OperandType(ctx, env, op, line).diags == []
    ensures Compatible(want, OperandType(ctx, env, op, line).ty.value)
    ensures op.ONull? ==> allowNull
  {
    hide Accepts;
    hide ConstExpr;
    hide Fitting;
    hide SlotCompatible;
    if op.OConst? {
      var csyms := Fitting(want, tb.consts);
      forall i | 0 <= i < |csyms|
        ensures ConstOk(csyms[i])
      {
        FittingExact(want, tb.consts, csyms[i]);
      }
      ConstExactCanonical(csyms, op.sym);
      assert op.sym in csyms;
      FittingExact(want, tb.consts, op.sym);
      var k :| 0 <= k < |tb.consts| && tb.consts[k].0 == op.sym && SlotCompatible(want, tb.consts[k].1);
      SlotNarrower(want, tb.consts[k].1);
    }
  }

  lemma {:induction false} ArgsClean(tb: Table, ctx: TaskContext, env: Env, params: seq<Param>, args: seq<Operand>,
                                     i: nat, line: nat)
    requires i <= |params| && Describes(tb, ctx)
    requires forall k | 0 <= k < |params| && k >= |args| :: !params[k].required
    requires forall k | 0 <= k < |args| && k < |params| ::
               Closed(args[k]) && AdmitsOperand(OperandAlts(tb, params[k].ty, !params[k].required), args[k])
    ensures CheckArgs(ctx, env, params, args, i, line) == []
    decreases |params| - i
  {
    hide OperandType;
    hide Compatible;
    hide AdmitsOperand;
    hide OperandAlts;
    hide Describes;
    if i < |params| {
      ArgsClean(tb, ctx, env, params, args, i + 1, line);
      if i < |args| {
        AdmittedOperand(tb, ctx, env, params[i].ty, !params[i].required, args[i], line);
      }
    }
  }

  /** Every CALL the typed-slot grammar admits with constants, NOW, NULL and integers passes the checker's call rule,
      whatever the registers hold. Assumed: optional parameters trail, and rule names do not collide. */
  lemma TypedCallClean(tb: Table, ctx: TaskContext, env: Env, c: CallI)
    requires Describes(tb, ctx) && NamesApart(AllAsked(tb.tools))
    requires forall t | 0 <= t < |tb.tools| :: OptionalsTrail(tb.tools[t].1)
    requires AdmitsCall(tb, c) && forall i | 0 <= i < |c.args| :: Closed(c.args[i])
    ensures CheckCall(ctx, env, c) == []
  {
    hide RuleName;
    hide Classes;
    hide OperandAlts;
    hide AdmitsOperand;
    hide Requireds;
    hide CheckArgs;
    var t :| 0 <= t < |tb.tools| && tb.tools[t].0 == c.tool && AdmitsBy(tb, tb.tools[t].1, c.args);
    var params := tb.tools[t].1;
    SpelledInOrder(params);
    forall k | 0 <= k < |c.args|
      ensures AdmitsOperand(OperandAlts(tb, params[k].ty, !params[k].required), c.args[k])
    {
      var slots := AllAsked(tb.tools);
      var j := AskedSomewhere(tb.tools, t, k);
      ClassOfSlot(tb, slots, j);
    }
    ArgsClean(tb, ctx, env, params, c.args, 0, c.line);
  }

  // ---------------------------------------------------------------- exactly which calls are admitted

  const ARITHMETIC: set<Type> := {TInt, TFloat}

  lemma {:induction false} SlotExactly(want: Type, have: Type)
    ensures SlotCompatible(want, have) <==> TR.Takes(ARITHMETIC, want, have)
    decreases want
  {
    if want.TList? && have.TList? {
      TR.TakesElem(ARITHMETIC, want, have);
      SlotExactly(want.elem, have.elem);
    } else {
      TR.TakesBase(ARITHMETIC, want, have);
    }
  }

  predicate FieldOk(sym: string) {
    |sym| > 1 && sym[0] == 'F' && AllDigits(sym[1..]) && (sym[1] == '0' ==> |sym| == 2)
  }

  /** Fields and constants are spelled canonically. */
  predicate Canonically(tb: Table) {
    && (forall i | 0 <= i < |tb.fields| :: FieldOk(tb.fields[i].0))
    && (forall i | 0 <= i < |tb.consts| :: ConstOk(tb.consts[i].0))
  }

  /** Some declared symbol `s` has a type the slot takes. */
  ghost predicate Declared(syms: seq<(string, Type)>, want: Type, s: string) {
    exists i | 0 <= i < |syms| :: syms[i].0 == s && TR.Takes(ARITHMETIC, want, syms[i].1)
  }

  /** What may stand in the slot of a parameter. */
  ghost predicate FillsSlot(tb: Table, p: Param, op: Operand) {
    match op
    case OReg(_) => true
    case ORegField(_, f) => Declared(tb.fields, p.ty, f)
    case OConst(sym) => Declared(tb.consts, p.ty, sym)
    case ONow => p.ty == TTime
    case ONull => !p.required
    case OInt(_) => p.ty == TInt || p.ty == TFloat
  }

  lemma FittingDeclared(want: Type, syms: seq<(string, Type)>, s: string)
    ensures s in Fitting(want, syms) <==> Declared(syms, want, s)
  {
    hide SlotCompatible;
    hide TR.Takes;
    FittingExact(want, syms, s);
    forall i | 0 <= i < |syms|
      ensures SlotCompatible(want, syms[i].1) <==> TR.Takes(ARITHMETIC, want, syms[i].1)
    {
      SlotExactly(want, syms[i].1);
    }
  }

  /** The field rule over canonical symbols accepts exactly those. */
  lemma FieldRuleExact(fields: seq<string>, f: string)
    requires forall i | 0 <= i < |fields| :: FieldOk(fields[i])
    ensures FieldRuleAdmits(fields, f) <==> f in fields
  {
    hide Accepts;
    hide SymbolExpr;
    if fields != [] {
      var nums := set i | 0 <= i < |fields| :: Read(fields[i][1..]);
      assert Read(fields[0][1..]) in nums;
      SymbolExact('F', nums, f);
      forall i | 0 <= i < |fields|
        ensures fields[i] == "F" + Show(Read(fields[i][1..]))
      {
        ShowRead(fields[i][1..]);
        assert fields[i] == [fields[i][0]] + fields[i][1..];
      }
      hide Show;
      hide Read;
      if f in fields {
        var i :| 0 <= i < |fields| && fields[i] == f;
        assert Read(fields[i][1..]) in nums;
      }
      if n :| n in nums && f == "F" + Show(n) {
        var i :| 0 <= i < |fields| && Read(fields[i][1..]) == n;
        assert f == fields[i];
      }
    }
  }

  lemma ConstRuleExact(consts: seq<string>, sym: string)
    requires forall i | 0 <= i < |consts| :: ConstOk(consts[i])
    ensures consts != [] && AllConsts(consts) && Accepts(ConstExpr(consts), sym) == Some(true) <==> sym in consts
  {
    hide Accepts;
    hide ConstExpr;
    if consts != [] { ConstExactCanonical(consts, sym); }
  }

  lemma FittingFrom(want: Type, syms: seq<(string, Type)>, i: nat)
    requires i < |Fitting(want, syms)|
    ensures exists k :: 0 <= k < |syms| && syms[k].0 == Fitting(want, syms)[i]
  {
    hide SlotCompatible;
    FittingExact(want, syms, Fitting(want, syms)[i]);
  }

  /** A slot's class admits exactly what may stand in it. */
  lemma SlotAdmitsExactly(tb: Table, p: Param, op: Operand)
    requires Canonically(tb)
    ensures AdmitsOperand(OperandAlts(tb, p.ty, !p.required), op) <==> FillsSlot(tb, p, op)
  {
    hide Accepts;
    hide ConstExpr;
    hide Fitting;
    hide FieldRuleAdmits;
    hide Declared;
    match op
    case ORegField(_, f) =>
      var fields := Fitting(p.ty, tb.fields);
      forall i | 0 <= i < |fields|
        ensures FieldOk(fields[i])
      {
        FittingFrom(p.ty, tb.fields, i);
      }
      FieldRuleExact(fields, f);
      FittingDeclared(p.ty, tb.fields, f);
    case OConst(sym) =>
      var consts := Fitting(p.ty, tb.consts);
      forall i | 0 <= i < |consts|
        ensures ConstOk(consts[i])
      {
        FittingFrom(p.ty, tb.consts, i);
      }
      ConstRuleExact(consts, sym);
      FittingDeclared(p.ty, tb.consts, sym);
    case _ =>
  }

  /** The call names a declared tool, gives all its required and no surplus arguments, and each may stand in its
      slot. */
  ghost predicate WellFilled(tb: Table, c: CallI) {
    exists t | 0 <= t < |tb.tools| :: tb.tools[t].0 == c.tool && Fills(tb, tb.tools[t].1, c.args)
  }

  ghost predicate Fills(tb: Table, params: seq<Param>, args: seq<Operand>) {
    && |args| <= |params|
    && (forall i | |args| <= i < |params| :: !params[i].required)
    && (forall i | 0 <= i < |args| :: FillsSlot(tb, params[i], args[i]))
  }

  lemma AdmitsByExactly(tb: Table, t: nat, args: seq<Operand>)
    requires Canonically(tb) && NamesApart(AllAsked(tb.tools)) && t < |tb.tools| && OptionalsTrail(tb.tools[t].1)
    ensures AdmitsBy(tb, tb.tools[t].1, args) <==> Fills(tb, tb.tools[t].1, args)
  {
    hide RuleName;
    hide Classes;
    hide OperandAlts;
    hide AdmitsOperand;
    hide Requireds;
    hide FillsSlot;
    var params := tb.tools[t].1;
    SpelledInOrder(params);
    forall k | 0 <= k < |params|
      ensures RuleName(params[k]) in RulesOf(tb)
      ensures forall op :: AdmitsOperand(RulesOf(tb)[RuleName(params[k])], op) <==> FillsSlot(tb, params[k], op)
    {
      var j := AskedSomewhere(tb.tools, t, k);
      ClassOfSlot(tb, AllAsked(tb.tools), j);
      forall op
        ensures AdmitsOperand(RulesOf(tb)[RuleName(params[k])], op) <==> FillsSlot(tb, params[k], op)
      {
        SlotAdmitsExactly(tb, params[k], op);
      }
    }
    var required := |Requireds(params, true)|;
    assert required <= |params| by { RequiredsFew(params); }
    assert required <= |args| <==> forall i | |args| <= i < |params| :: !params[i].required by {
      if |args| < required { assert params[|args|].required; }
    }
  }

  lemma RequiredsFew(params: seq<Param>)
    requires Spelled(params) == params
    ensures |Requireds(params, true)| <= |params|
  {
    hide Requireds;
    assert |Spelled(params)| == |Requireds(params, true)| + |Requireds(params, false)|;
  }

  /** The grammar admits exactly the well-filled calls. */
  lemma AdmittedExactly(tb: Table, c: CallI)
    requires Canonically(tb) && NamesApart(AllAsked(tb.tools))
    requires forall t | 0 <= t < |tb.tools| :: OptionalsTrail(tb.tools[t].1)
    ensures AdmitsCall(tb, c) <==> WellFilled(tb, c)
  {
    hide AdmitsBy;
    hide Fills;
    hide AllAsked;
    hide NamesApart;
    forall t | 0 <= t < |tb.tools|
      ensures AdmitsBy(tb, tb.tools[t].1, c.args) <==> Fills(tb, tb.tools[t].1, c.args)
    {
      AdmitsByExactly(tb, t, c.args);
    }
  }

  /** Every slot of every tool is asked about. */
  lemma {:induction false} AskedSomewhere(tools: seq<(string, seq<Param>)>, t: nat, k: nat) returns (j: nat)
    requires t < |tools| && k < |tools[t].1| && OptionalsTrail(tools[t].1)
    ensures j < |AllAsked(tools)| && AllAsked(tools)[j] == tools[t].1[k]
    decreases |tools|
  {
    hide Asked;
    var m := |tools| - 1;
    if t < m {
      j := AskedSomewhere(tools[..m], t, k);
    } else {
      j := AskedHere(tools[t].1, k);
      j := j + |AllAsked(tools[..m])|;
    }
  }

  lemma AskedHere(params: seq<Param>, k: nat) returns (j: nat)
    requires k < |params| && OptionalsTrail(params)
    ensures j < |Asked(params)| && Asked(params)[j] == params[k]
  {
    hide Requireds;
    hide Reversed;
    SpelledInOrder(params);
    var req, opt := Requireds(params, true), Requireds(params, false);
    assert params == req + opt;
    if k < |req| {
      j := k;
    } else {
      ReversedAt(opt, k - |req|);
      j := |req| + (|opt| - 1 - (k - |req|));
    }
  }

  lemma {:induction false} ReversedAt(ps: seq<Param>, k: nat)
    requires k < |ps|
    ensures Reversed(ps)[|ps| - 1 - k] == ps[k]
    decreases ps
  {
    if k > 0 { ReversedAt(ps[1..], k - 1); }
  }

  // ---------------------------------------------------------------- why the hypotheses

  /** A one-tool table with one constant, and the checker's context for it. */
  function OneTool(params: seq<Param>, sym: string, ty: Type): Table {
    Table([("T0", params)], [], [(sym, ty)])
  }

  function OneToolContext(params: seq<Param>, sym: string, ty: Type): TaskContext {
    TaskContext(map["T0" := ToolDecl(params, None, {})], map[], map[sym := ConstDecl(ty, "")], map[])
  }

  lemma OneToolAsks(params: seq<Param>, sym: string, ty: Type)
    ensures var tb := OneTool(params, sym, ty); AllAsked(tb.tools) == Asked(params)
    ensures ConstOk(sym) ==> Describes(OneTool(params, sym, ty), OneToolContext(params, sym, ty))
  {
    hide Asked;
    hide ConstOk;
    var tb := OneTool(params, sym, ty);
    assert tb.tools[..0] == [];
    assert AllAsked(tb.tools) == [] + Asked(params);
  }

  /** The table's constant is a word of a class of its own type. */
  lemma OneToolAdmits(params: seq<Param>, sym: string, ty: Type, allowNull: bool)
    requires ConstOk(sym)
    ensures AdmitsOperand(OperandAlts(OneTool(params, sym, ty), ty, allowNull), OConst(sym))
  {
    hide Accepts;
    hide ConstExpr;
    var consts := OneTool(params, sym, ty).consts;
    SameCompatible(ty);
    assert consts[1..] == [];
    assert Fitting(ty, consts) == [sym];
    ConstExactCanonical([sym], sym);
  }

  /** The slot's rule is the class of required slots of type `ty`. */
  ghost predicate ClassIs(tb: Table, slot: Param, ty: Type) {
    RuleName(slot) in RulesOf(tb) && RulesOf(tb)[RuleName(slot)] == OperandAlts(tb, ty, false)
  }

  lemma OneToolAdmitsCall(params: seq<Param>, sym: string, ty: Type, args: seq<Operand>)
    requires ConstOk(sym) && |Requireds(params, true)| <= |args| <= |Spelled(params)|
    requires forall i | 0 <= i < |args| ::
             args[i] == OConst(sym) && ClassIs(OneTool(params, sym, ty), Spelled(params)[i], ty)
    ensures AdmitsCall(OneTool(params, sym, ty), CallI("T0", args, None, 1))
  {
    hide RuleName;
    hide RulesOf;
    hide OperandAlts;
    hide AdmitsOperand;
    hide Requireds;
    OneToolAdmits(params, sym, ty, false);
    var tb := OneTool(params, sym, ty);
    assert AdmitsBy(tb, params, args);
    assert tb.tools[0].0 == "T0";
  }

  lemma {:induction false} SameCompatible(t: Type)
    ensures SlotCompatible(t, t)
    decreases t
  {
    if t.TList? { SameCompatible(t.elem); }
  }

  lemma S0I0()
    ensures ConstOk("S0") && ConstOk("I0")
  {
    assert LETTERS[5] == 'S' && LETTERS[3] == 'I';
    assert "S0"[1..] == "0" && "I0"[1..] == "0";
  }

  const OPTIONAL_FIRST: seq<Param> := [Param("F0", TBool, false), Param("F1", TStr, true)]

  /** An optional parameter before a required one: the grammar spells the required slot first, and the checker reads the
      argument at the optional one's position. */
  lemma OptionalFirstBreaks(env: Env)
    ensures var tb, ctx := OneTool(OPTIONAL_FIRST, "S0", TStr), OneToolContext(OPTIONAL_FIRST, "S0", TStr);
            var c := CallI("T0", [OConst("S0")], None, 1);
            && Describes(tb, ctx) && NamesApart(AllAsked(tb.tools)) && AdmitsCall(tb, c)
            && CheckCall(ctx, env, c) == [Diag(TypeMismatch, 1), Diag(MissingArg, 1)]
  {
    hide *;
    S0I0();
    OneToolAsks(OPTIONAL_FIRST, "S0", TStr);
    OptionalFirstClass();
    OneToolAdmitsCall(OPTIONAL_FIRST, "S0", TStr, [OConst("S0")]);
    OptionalFirstChecks(env);
  }

  lemma OptionalFirstClass()
    ensures var tb, slots := OneTool(OPTIONAL_FIRST, "S0", TStr), Spelled(OPTIONAL_FIRST);
            && NamesApart(AllAsked(tb.tools))
            && |Requireds(OPTIONAL_FIRST, true)| == 1 && |slots| == 2
            && ClassIs(tb, slots[0], TStr)
  {
    hide RuleName;
    hide OperandAlts;
    var tb := OneTool(OPTIONAL_FIRST, "S0", TStr);
    OneToolAsks(OPTIONAL_FIRST, "S0", TStr);
    OptionalFirstSlots();
    NameHeads(OPTIONAL_FIRST[0], OPTIONAL_FIRST[1]);
    ClassOfSlot(tb, Asked(OPTIONAL_FIRST), 0);
  }

  lemma OptionalFirstSlots()
    ensures Asked(OPTIONAL_FIRST) == [OPTIONAL_FIRST[1], OPTIONAL_FIRST[0]] == Spelled(OPTIONAL_FIRST)
    ensures |Requireds(OPTIONAL_FIRST, true)| == 1
  {
    var p0, p1 := OPTIONAL_FIRST[0], OPTIONAL_FIRST[1];
    assert OPTIONAL_FIRST[1..] == [p1] && [p1][1..] == [];
    assert Requireds([p1], true) == [p1] + Requireds([], true) && Requireds([p1], false) == Requireds([], false);
    assert Requireds(OPTIONAL_FIRST, true) == [p1] && Requireds(OPTIONAL_FIRST, false) == [p0];
    assert Reversed([p0]) == [p0];
  }

  lemma OptionalFirstChecks(env: Env)
    ensures var c := CallI("T0", [OConst("S0")], None, 1);
            CheckCall(OneToolContext(OPTIONAL_FIRST, "S0", TStr), env, c) ==
                [Diag(TypeMismatch, 1), Diag(MissingArg, 1)]
  {
    var ctx := OneToolContext(OPTIONAL_FIRST, "S0", TStr);
    var args := [OConst("S0")];
    assert CheckArgs(ctx, env, OPTIONAL_FIRST, args, 2, 1) == [];
    assert CheckArgs(ctx, env, OPTIONAL_FIRST, args, 1, 1) == [Diag(MissingArg, 1)];
    assert CheckArgs(ctx, env, OPTIONAL_FIRST, args, 0, 1) == [Diag(TypeMismatch, 1)] + [Diag(MissingArg, 1)];
  }

  const COLLIDING: seq<Param> := [Param("F0", TId("x_opt"), true), Param("F1", TId("x"), false)]

  /** Colliding names: an optional `ID:x` slot after a required `ID:x_opt` slot shares its rule, and takes its
      constants. */
  lemma CollidingNamesBreak(env: Env)
    ensures var tb, ctx := OneTool(COLLIDING, "I0", TId("x_opt")), OneToolContext(COLLIDING, "I0", TId("x_opt"));
            var c := CallI("T0", [OConst("I0"), OConst("I0")], None, 1);
            && Describes(tb, ctx) && OptionalsTrail(COLLIDING) && AdmitsCall(tb, c)
            && CheckCall(ctx, env, c) == [Diag(TypeMismatch, 1)]
  {
    hide *;
    S0I0();
    OneToolAsks(COLLIDING, "I0", TId("x_opt"));
    CollidingClass();
    OneToolAdmitsCall(COLLIDING, "I0", TId("x_opt"), [OConst("I0"), OConst("I0")]);
    CollidingChecks(env);
  }

  lemma CollidingClass()
    ensures var tb, slots := OneTool(COLLIDING, "I0", TId("x_opt")), Spelled(COLLIDING);
            && OptionalsTrail(COLLIDING)
            && |Requireds(COLLIDING, true)| == 1 && |slots| == 2
            && ClassIs(tb, slots[0], TId("x_opt")) && ClassIs(tb, slots[1], TId("x_opt"))
  {
    hide RuleName;
    hide RulesOf;
    hide OperandAlts;
    hide AllAsked;
    hide Asked;
    hide Requireds;
    hide ClassIs;
    OneToolAsks(COLLIDING, "I0", TId("x_opt"));
    CollidingSlots();
    SameNames(COLLIDING[0], COLLIDING[1]);
    SharedClass(OneTool(COLLIDING, "I0", TId("x_opt")), COLLIDING[0], COLLIDING[1], TId("x_opt"));
  }

  lemma SharedClass(tb: Table, p0: Param, p1: Param, ty: Type)
    requires AllAsked(tb.tools) == [p0, p1] && RuleName(p0) == RuleName(p1) && p0.required && p0.ty == ty
    ensures ClassIs(tb, p0, ty) && ClassIs(tb, p1, ty)
  {
    hide RuleName;
    hide OperandAlts;
    hide AllAsked;
    TwoSlots(tb, p0, p1);
  }

  lemma CollidingSlots()
    ensures Asked(COLLIDING) == [COLLIDING[0], COLLIDING[1]] == Spelled(COLLIDING)
    ensures |Requireds(COLLIDING, true)| == 1
  {
    var p0, p1 := COLLIDING[0], COLLIDING[1];
    assert COLLIDING[1..] == [p1] && [p1][1..] == [];
    assert Requireds([p1], true) == Requireds([], true) && Requireds([p1], false) == [p1] + Requireds([], false);
    assert Requireds(COLLIDING, true) == [p0] && Requireds(COLLIDING, false) == [p1];
    assert Reversed([p1]) == [p1];
  }

  lemma CollidingChecks(env: Env)
    ensures var c := CallI("T0", [OConst("I0"), OConst("I0")], None, 1);
            CheckCall(OneToolContext(COLLIDING, "I0", TId("x_opt")), env, c) == [Diag(TypeMismatch, 1)]
  {
    var ctx := OneToolContext(COLLIDING, "I0", TId("x_opt"));
    var args := [OConst("I0"), OConst("I0")];
    assert |"x_opt"| != |"x"|;
    assert CheckArgs(ctx, env, COLLIDING, args, 2, 1) == [];
    assert CheckArgs(ctx, env, COLLIDING, args, 1, 1) == [Diag(TypeMismatch, 1)];
    assert CheckArgs(ctx, env, COLLIDING, args, 0, 1) == [Diag(TypeMismatch, 1)];
  }

  lemma TwoSlots(tb: Table, p0: Param, p1: Param)
    requires RuleName(p0) == RuleName(p1)
    ensures Classes(tb, map[], [p0, p1]) == map[RuleName(p0) := OperandAlts(tb, p0.ty, !p0.required)]
  {
    hide RuleName;
    hide OperandAlts;
    assert [p0, p1][..1] == [p0] && [p0][..0] == [];
    assert Classes(tb, map[], []) == map[];
    assert Classes(tb, map[], [p0]) == map[][RuleName(p0) := OperandAlts(tb, p0.ty, !p0.required)];
  }

  lemma HyphenedOpt()
    ensures Hyphened("_opt") == "-opt"
  {
    assert "_opt"[1..] == "opt" && "opt"[1..] == "pt" && "pt"[1..] == "t" && "t"[1..] == "";
    assert Hyphened("t") == "t";
    assert Hyphened("pt") == "pt";
    assert Hyphened("opt") == "opt";
  }

  lemma SameNames(a: Param, b: Param)
    requires a.ty == TId("x_opt") && a.required && b.ty == TId("x") && !b.required
    ensures RuleName(a) == RuleName(b)
  {
    HyphenedJoin("ID:x", "_opt");
    assert "ID:" + "x_opt" == "ID:x" + "_opt" && "ID:" + "x" == "ID:x";
    HyphenedOpt();
    hide Hyphened;
    assert "op-" + Hyphened("ID:x") + "-opt" == "op-" + (Hyphened("ID:x") + "-opt");
  }

  lemma {:induction false} HyphenedJoin(a: string, b: string)
    ensures Hyphened(a + b) == Hyphened(a) + Hyphened(b)
    decreases a
  {
    if a == "" {
      assert a + b == b;
    } else {
      assert (a + b)[1..] == a[1..] + b;
      HyphenedJoin(a[1..], b);
    }
  }

  lemma NameHeads(a: Param, b: Param)
    requires a.ty == TBool && b.ty == TStr && !a.required && b.required
    ensures RuleName(a) != RuleName(b)
  {
    assert Hyphened("BOOL")[0] == 'B' && Hyphened("STR")[0] == 'S';
    assert RuleName(a)[3] == 'B' && RuleName(b)[3] == 'S';
  }
}
