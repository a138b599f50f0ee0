/** The typing rules: when a program checks clean. */
module Rules {
  import opened Common
  import opened Decimal
  import opened Ir
  import opened Check
  import opened Overlay

  // ---------------------------------------------------------------- which types take which

  /** LIST, `n` times, of `base`. */
  ghost predicate Nested(t: Type, n: nat, base: Type)
    decreases n
  {
    if n == 0 then t == base else t.TList? && Nested(t.elem, n - 1, base)
  }

  ghost predicate BaseTakes(numeric: set<Type>, want: Type, have: Type) {
    || want == TNull || have == TNull || want == have
    || (want in numeric && have in numeric)
    || (want.TId? && (have == TId(want.entity) || have == TObj(want.entity)))
  }

  /** Under equally many LISTs, `want` and `have` are the same, or numeric both, or an ID and its entity's record, or
      one is NULL. */
  ghost predicate Takes(numeric: set<Type>, want: Type, have: Type) {
    exists n: nat, a, b :: Nested(want, n, a) && Nested(have, n, b) && BaseTakes(numeric, a, b)
  }

  const NUMERIC: set<Type> := {TInt, TFloat, TTime}

  lemma TakesElem(numeric: set<Type>, want: Type, have: Type)
    requires want.TList? && have.TList? && forall t | t in numeric :: !t.TList?
    ensures Takes(numeric, want, have) <==> Takes(numeric, want.elem, have.elem)
  {
    if Takes(numeric, want, have) {
      var n: nat, a, b :| Nested(want, n, a) && Nested(have, n, b) && BaseTakes(numeric, a, b);
      if n > 0 {
        assert Nested(want.elem, n - 1, a) && Nested(have.elem, n - 1, b);
      } else {
        assert Nested(want.elem, 0, want.elem) && Nested(have.elem, 0, have.elem);
      }
    }
    if Takes(numeric, want.elem, have.elem) {
      var n: nat, a, b :| Nested(want.elem, n, a) && Nested(have.elem, n, b) && BaseTakes(numeric, a, b);
      assert Nested(want, n + 1, a) && Nested(have, n + 1, b);
    }
  }

  lemma TakesBase(numeric: set<Type>, want: Type, have: Type)
    requires !want.TList? || !have.TList?
    ensures Takes(numeric, want, have) <==> BaseTakes(numeric, want, have)
  {
    if BaseTakes(numeric, want, have) {
      assert Nested(want, 0, want) && Nested(have, 0, have);
    }
  }

  /** The checker's compatibility. */
  lemma {:induction false} CompatibleExactly(want: Type, have: Type)
    ensures Compatible(want, have) <==> Takes(NUMERIC, want, have)
    decreases want
  {
    hide Takes;
    if want.TList? && have.TList? {
      TakesElem(NUMERIC, want, have);
      CompatibleExactly(want.elem, have.elem);
    } else {
      TakesBase(NUMERIC, want, have);
    }
  }

  // ---------------------------------------------------------------- operands and comparisons

  ghost predicate FieldHas(ctx: TaskContext, e: Entity, f: string, t: Type) {
    f in ctx.fields && ctx.fields[f].entity == Some(e) && ctx.fields[f].ty == t
  }

  ghost predicate Has(ctx: TaskContext, env: Env, op: Operand, t: Type) {
    match op
    case OReg(n) => n in env && env[n] == t
    case ORegField(n, f) => n in env && env[n].TObj? && FieldHas(ctx, env[n].entity, f, t)
    case OConst(sym) => sym in ctx.constants && ctx.constants[sym].ty == t
    case ONow => t == TTime
    case ONull => t == TNull
    case OInt(_) => t == TInt
  }

  lemma OperandExactly(ctx: TaskContext, env: Env, op: Operand, line: nat)
    ensures var o := OperandType(ctx, env, op, line);
            (o.diags == [] <==> o.ty.Some?) && (forall t :: o.ty == Some(t) <==> Has(ctx, env, op, t))
  {
  }

  lemma FieldExactly(ctx: TaskContext, e: Entity, f: string, line: nat)
    ensures var o := FieldType(ctx, f, e, line);
            (o.diags == [] <==> o.ty.Some?) && (forall t :: o.ty == Some(t) <==> FieldHas(ctx, e, f, t))
  {
  }

  /** The types a comparison takes. */
  ghost predicate Comparable(cmp: Cmp, l: Type, r: Type) {
    match cmp
    case LT => l in NUMERIC + {TNull} && r in NUMERIC + {TNull}
    case GT => l in NUMERIC + {TNull} && r in NUMERIC + {TNull}
    case CONTAINS => l == TNull || (l == TStr && (r == TStr || r == TNull))
    case IN => l == TNull || r == TNull || (r.TList? && (Takes(NUMERIC, r.elem, l) || Takes(NUMERIC, l, r.elem)))
    case _ => Takes(NUMERIC, l, r) || Takes(NUMERIC, r, l)
  }

  /** A comparison checks clean exactly over such types. */
  lemma ComparisonExactly(cmp: Cmp, l: Type, r: Type, line: nat)
    ensures CheckCmp(cmp, Some(l), Some(r), line) == [] <==> Comparable(cmp, l, r)
  {
    hide Compatible;
    hide Takes;
    CompatibleExactly(l, r);
    CompatibleExactly(r, l);
    if r.TList? {
      CompatibleExactly(r.elem, l);
      CompatibleExactly(l, r.elem);
    }
  }

  /** The right side of a FILTER clause over records of `e`. */
  ghost predicate RightHas(ctx: TaskContext, env: Env, e: Entity, right: Right, t: Type) {
    match right
    case RElem(g) => FieldHas(ctx, e, g, t)
    case ROp(op) => Has(ctx, env, op, t)
    case RNone => false
  }

  ghost predicate FilterClauseOk(ctx: TaskContext, env: Env, e: Entity, c: Clause) {
    c.left.LField? &&
    exists l, r ::
      FieldHas(ctx, e, c.left.field, l) && RightHas(ctx, env, e, c.right, r) && Comparable(c.cmp, l, r)
  }

  ghost predicate CondClauseOk(ctx: TaskContext, env: Env, c: Clause) {
    c.left.LOp? &&
    if c.cmp.EMPTY? then exists l :: Has(ctx, env, c.left.op, l) && (l.TList? || l == TNull)
    else c.right.ROp? &&
         exists l, r :: Has(ctx, env, c.left.op, l) && Has(ctx, env, c.right.op, r) && Comparable(c.cmp, l, r)
  }

  lemma FilterClauseExactly(ctx: TaskContext, env: Env, e: Entity, c: Clause, line: nat)
    ensures CheckFilterClause(ctx, env, c, e, line) == [] <==> FilterClauseOk(ctx, env, e, c)
  {
    hide CheckCmp;
    hide Comparable;
    hide OperandType;
    hide FieldType;
    if c.left.LField? {
      FieldExactly(ctx, e, c.left.field, line);
      var l := FieldType(ctx, c.left.field, e, line);
      match c.right {
        case RElem(g) =>
          FieldExactly(ctx, e, g, line);
          var r := FieldType(ctx, g, e, line);
          if l.ty.Some? && r.ty.Some? { ComparisonExactly(c.cmp, l.ty.value, r.ty.value, line); }
        case ROp(op) =>
          OperandExactly(ctx, env, op, line);
          var r := OperandType(ctx, env, op, line);
          if l.ty.Some? && r.ty.Some? { ComparisonExactly(c.cmp, l.ty.value, r.ty.value, line); }
        case RNone =>
      }
    }
  }

  lemma CondClauseExactly(ctx: TaskContext, env: Env, c: Clause, line: nat)
    ensures CheckCondClause(ctx, env, c, line) == [] <==> CondClauseOk(ctx, env, c)
  {
    hide CheckCmp;
    hide Comparable;
    hide OperandType;
    if c.left.LOp? {
      OperandExactly(ctx, env, c.left.op, line);
      var l := OperandType(ctx, env, c.left.op, line);
      if c.right.ROp? {
        OperandExactly(ctx, env, c.right.op, line);
        var r := OperandType(ctx, env, c.right.op, line);
        if l.ty.Some? && r.ty.Some? { ComparisonExactly(c.cmp, l.ty.value, r.ty.value, line); }
      }
    }
  }

  lemma {:induction false} FilterExactly(ctx: TaskContext, env: Env, e: Entity, cs: seq<Clause>, line: nat)
    ensures CheckFilter(ctx, env, cs, e, line) == [] <==> forall i | 0 <= i < |cs| :: FilterClauseOk(ctx, env, e, cs[i])
    decreases cs
  {
    hide CheckFilterClause;
    hide FilterClauseOk;
    if cs != [] {
      FilterClauseExactly(ctx, env, e, cs[0], line);
      FilterExactly(ctx, env, e, cs[1..], line);
      assert cs == [cs[0]] + cs[1..];
    }
  }

  lemma {:induction false} CondExactly(ctx: TaskContext, env: Env, cs: seq<Clause>, line: nat)
    ensures CheckCond(ctx, env, cs, line) == [] <==> forall i | 0 <= i < |cs| :: CondClauseOk(ctx, env, cs[i])
    decreases cs
  {
    hide CheckCondClause;
    hide CondClauseOk;
    if cs != [] {
      CondClauseExactly(ctx, env, cs[0], line);
      CondExactly(ctx, env, cs[1..], line);
      assert cs == [cs[0]] + cs[1..];
    }
  }

  // ---------------------------------------------------------------- calls

  /** Argument `i` of a call, or its absence. */
  ghost predicate ArgOk(ctx: TaskContext, env: Env, p: Param, args: seq<Operand>, i: nat) {
    if i < |args| then !(args[i].ONull? && p.required) && exists t ::
        Has(ctx, env, args[i], t) && Takes(NUMERIC, p.ty, t)
    else !p.required
  }

  ghost predicate CallOk(ctx: TaskContext, env: Env, c: CallI) {
    c.tool in ctx.tools && |c.args| <= |ctx.tools[c.tool].params| &&
    forall i | 0 <= i < |ctx.tools[c.tool].params| :: ArgOk(ctx, env, ctx.tools[c.tool].params[i], c.args, i)
  }

  lemma ArgExactly(ctx: TaskContext, env: Env, params: seq<Param>, args: seq<Operand>, i: nat, line: nat)
    requires i < |params|
    ensures CheckArgs(ctx, env, params, args, i, line) == [] <==>
            ArgOk(ctx, env, params[i], args, i) && CheckArgs(ctx, env, params, args, i + 1, line) == []
  {
    hide OperandType;
    hide Compatible;
    hide Takes;
    hide Has;
    if i < |args| {
      OperandExactly(ctx, env, args[i], line);
      var o := OperandType(ctx, env, args[i], line);
      if o.ty.Some? {
        CompatibleExactly(params[i].ty, o.ty.value);
        assert Has(ctx, env, args[i], o.ty.value);
      }
    }
  }

  lemma {:induction false} ArgsExactly(ctx: TaskContext, env: Env, params: seq<Param>, args: seq<Operand>, i: nat,
                                       line: nat)
    requires i <= |params|
    ensures CheckArgs(ctx, env, params, args, i, line) == [] <==>
            forall k | i <= k < |params| :: ArgOk(ctx, env, params[k], args, k)
    decreases |params| - i
  {
    hide ArgOk;
    if i < |params| {
      ArgExactly(ctx, env, params, args, i, line);
      ArgsExactly(ctx, env, params, args, i + 1, line);
    }
  }

  lemma CallExactly(ctx: TaskContext, env: Env, c: CallI)
    ensures CheckCall(ctx, env, c) == [] <==> CallOk(ctx, env, c)
  {
    hide CheckArgs;
    hide ArgOk;
    if c.tool in ctx.tools { ArgsExactly(ctx, env, ctx.tools[c.tool].params, c.args, 0, c.line); }
  }

  // ---------------------------------------------------------------- FORMAT and ABORT

  /** `{d}` stands in the text. */
  ghost predicate SlotIn(text: string, d: string) {
    d != "" && AllDigits(d) && exists i: nat :: StandsAt(text, "{" + d + "}", i)
  }

  predicate StandsAt(text: string, w: string, i: nat) {
    i + |w| <= |text| && text[i..i + |w|] == w
  }

  lemma {:induction false} FrontRun(s: string, d: string)
    requires AllDigits(d) && d <= s && (|d| == |s| || !IsDigit(s[|d|]))
    ensures FrontDigits(s) == |d|
    decreases d
  {
    if d != "" { FrontRun(s[1..], d[1..]); }
  }

  lemma {:induction false} FrontDigitsAre(s: string)
    ensures AllDigits(s[..FrontDigits(s)]) && (FrontDigits(s) < |s| ==> !IsDigit(s[FrontDigits(s)]))
    decreases s
  {
    if s != "" && IsDigit(s[0]) {
      FrontDigitsAre(s[1..]);
      var k := FrontDigits(s[1..]);
      assert s[..k + 1] == [s[0]] + s[1..][..k];
    }
  }

  lemma SlotShift(text: string, n: nat, d: string)
    requires n <= |text|
    ensures SlotIn(text[n..], d) ==> SlotIn(text, d)
  {
    if SlotIn(text[n..], d) {
      var w := "{" + d + "}";
      var i: nat :| StandsAt(text[n..], w, i);
      assert text[n + i..n + i + |w|] == text[n..][i..i + |w|];
      assert StandsAt(text, w, n + i);
    }
  }

  /** A slot that does not start at the front, nor inside the first `n` characters, is in the rest. */
  lemma SlotRest(text: string, n: nat, d: string)
    requires n <= |text| && SlotIn(text, d) && !("{" + d + "}" <= text)
    requires forall i | 0 < i < n :: text[i] != '{'
    ensures SlotIn(text[n..], d)
  {
    var w := "{" + d + "}";
    var i: nat :| StandsAt(text, w, i);
    assert text[i] == text[i..i + |w|][0] == '{';
    NotAtFront(text, w);
    assert i >= n;
    assert text[n..][i - n..i - n + |w|] == text[i..i + |w|];
    assert StandsAt(text[n..], w, i - n);
  }

  lemma NotAtFront(text: string, w: string)
    ensures StandsAt(text, w, 0) <==> w <= text
  {
    if |w| <= |text| { assert text[0..0 + |w|] == text[..|w|]; }
  }

  /** The numbers a template has slots for. */
  lemma {:induction false} SlotsExactly(text: string, d: string)
    ensures d in Slots(text) <==> SlotIn(text, d)
    decreases |text|
  {
    if text != "" {
      var k := FrontDigits(text[1..]);
      FrontDigitsAre(text[1..]);
      if text[0] == '{' && k > 0 && k + 1 < |text| && text[k + 1] == '}' {
        var here := text[1..k + 1];
        assert here == text[1..][..k];
        assert text[0..0 + |here| + 2] == "{" + here + "}";
        assert StandsAt(text, "{" + here + "}", 0);
        assert SlotIn(text, here);
        SlotsExactly(text[k + 2..], d);
        SlotShift(text, k + 2, d);
        if SlotIn(text, d) && d != here {
          if "{" + d + "}" <= text { SlotAtFront(text, d); }
          forall i | 0 < i < k + 2
            ensures text[i] != '{'
          {
            if i <= k { assert text[i] == here[i - 1]; }
          }
          SlotRest(text, k + 2, d);
        }
      } else {
        SlotsExactly(text[1..], d);
        SlotShift(text, 1, d);
        if SlotIn(text, d) {
          if "{" + d + "}" <= text { SlotAtFront(text, d); }
          SlotRest(text, 1, d);
        }
      }
    }
  }

  /** A slot at the front is the digits that follow the brace. */
  lemma SlotAtFront(text: string, d: string)
    requires d != "" && AllDigits(d) && "{" + d + "}" <= text
    ensures var k := FrontDigits(text[1..]); text[0] == '{' && k == |d| && text[k + 1] == '}' && text[1..k + 1] == d
  {
    var w := "{" + d + "}";
    assert text[..|w|] == w;
    assert text[1..][..|d|] == d by { assert text[..|w|][1..|d| + 1] == d; }
    assert text[|d| + 1] == w[|d| + 1] == '}' && text[0] == w[0];
    assert text[1..][|d|] == '}';
    FrontRun(text[1..], d);
    assert text[1..|d| + 1] == text[1..][..|d|];
  }

  /** The template is declared text whose slots are numbered 0 to n - 1, each at least once and no other. */
  ghost predicate TemplateOk(ctx: TaskContext, sym: string, n: nat) {
    sym in ctx.constants && ctx.constants[sym].ty == TStr &&
    forall d :: SlotIn(ctx.constants[sym].text, d) <==> exists i: nat :: i < n && d == Show(i)
  }

  lemma NumeralsAre(n: nat, d: string)
    ensures d in Numerals(n) <==> exists i: nat :: i < n && d == Show(i)
  {
    hide Show;
    if i: nat :| i < n && d == Show(i) { assert Show(i) in Numerals(n); }
  }

  lemma TemplateExactly(ctx: TaskContext, sym: string, n: nat, line: nat)
    ensures CheckTemplate(ctx, sym, n, line) == [] <==> TemplateOk(ctx, sym, n)
  {
    hide Slots;
    hide SlotIn;
    hide Show;
    if sym in ctx.constants {
      var text := ctx.constants[sym].text;
      forall d
        ensures d in Slots(text) <==> SlotIn(text, d)
        ensures d in Numerals(n) <==> exists i: nat :: i < n && d == Show(i)
      {
        SlotsExactly(text, d);
        NumeralsAre(n, d);
      }
      if TemplateOk(ctx, sym, n) { assert Slots(text) == Numerals(n); }
    }
  }

  /** What FORMAT can render. */
  ghost predicate RendersOk(ctx: TaskContext, env: Env, op: Operand) {
    exists t :: Has(ctx, env, op, t) && (t == TStr || t == TInt || t == TTime || t.TId?)
  }

  lemma {:induction false} RendersExactly(ctx: TaskContext, env: Env, ops: seq<Operand>, line: nat)
    ensures CheckSlots(ctx, env, ops, line) == [] <==> forall i | 0 <= i < |ops| :: RendersOk(ctx, env, ops[i])
    decreases ops
  {
    hide OperandType;
    if ops != [] {
      OperandExactly(ctx, env, ops[0], line);
      RendersExactly(ctx, env, ops[1..], line);
      assert ops == [ops[0]] + ops[1..];
    }
  }

  /** A referent of an ABORT: of a kind the reason admits, and declared. */
  ghost predicate RefOk(ctx: TaskContext, reason: string, r: string) {
    r != "" &&
    if r[0] == 'T' then reason == "AMBIGUOUS" && r in ctx.tools
    else if r[0] == 'F' then (reason == "AMBIGUOUS" || reason == "NEEDS_INFO") && r in ctx.fields
    else r[0] in "CSNBDI" && (reason == "AMBIGUOUS" || reason == "NOT_FOUND" || reason == "UNSUPPORTED") &&
         r in ctx.constants
  }

  lemma RefExactly(ctx: TaskContext, reason: string, refs: seq<string>, line: nat)
    requires refs != []
    ensures CheckRefs(ctx, reason, refs, line) == [] <==>
            RefOk(ctx, reason, refs[0]) && CheckRefs(ctx, reason, refs[1..], line) == []
  {
  }

  lemma {:induction false} RefsExactly(ctx: TaskContext, reason: string, refs: seq<string>, line: nat)
    ensures CheckRefs(ctx, reason, refs, line) == [] <==> forall i | 0 <= i < |refs| :: RefOk(ctx, reason, refs[i])
    decreases refs
  {
    hide RefOk;
    if refs != [] {
      RefExactly(ctx, reason, refs, line);
      hide CheckRefs;
      RefsExactly(ctx, reason, refs[1..], line);
      assert refs == [refs[0]] + refs[1..];
    }
  }

  // ---------------------------------------------------------------- statements and blocks

  /** Control falls through, with this environment. */
  function Falls(env: Env): CheckOut {
    CheckOut(env, [], false, [])
  }

  /** The run ends here. */
  function Leaves(env: Env, pauses: seq<Env>): CheckOut {
    CheckOut(env, [], true, pauses)
  }

  predicate ListAt(env: Env, n: nat) {
    n in env && env[n].TList?
  }

  predicate RecordsAt(env: Env, n: nat) {
    ListAt(env, n) && env[n].elem.TObj?
  }

  ghost predicate Returns(ctx: TaskContext, tool: string, t: Type) {
    if tool in ctx.tools && ctx.tools[tool].result.Some? then ctx.tools[tool].result == Some(t) else t == TNull
  }

  /** The calls of a PARALLEL bind their destinations to what their tools return, the last one a register names. */
  ghost predicate ParallelBinds(ctx: TaskContext, env: Env, calls: seq<CallI>, env1: Env, types: seq<Type>) {
    && |types| == |calls| && (forall i | 0 <= i < |calls| :: Returns(ctx, calls[i].tool, types[i]))
    && Overlaid(env, env1, 0, |calls|, DstIs(calls), TypeAt(types))
  }

  ghost function DstIs(calls: seq<CallI>): (nat, nat) -> bool {
    (i: nat, n: nat) => i < |calls| && calls[i].dst == Some(n)
  }

  ghost function TypeAt(types: seq<Type>): nat -> Type {
    (i: nat) => if i < |types| then types[i] else TNull
  }

  /** No argument names a register some call of the block binds. */
  ghost predicate FreshArgs(calls: seq<CallI>, args: seq<Operand>) {
    forall i, k | 0 <= i < |args| && 0 <= k < |calls| && calls[k].dst.Some? ::
      !(args[i].OReg? && args[i].n == calls[k].dst.value) && !(args[i].ORegField? && args[i].n == calls[k].dst.value)
  }

  /** Bindings on which two environments agree. */
  ghost predicate Agreement(a: Env, b: Env, both: Env) {
    forall n: nat ::
      && (n in both <==> n in a && n in b && a[n] == b[n])
      && (n in both ==> both[n] == a[n])
  }

  /** The environment after IF with both arms: that of the arm that goes on, or what they agree on. */
  ghost predicate Merges(env: Env, a: CheckOut, b: CheckOut, env1: Env) {
    if a.done && b.done then env1 == env
    else if a.done then env1 == b.env
    else if b.done then env1 == a.env
    else Agreement(a.env, b.env, env1)
  }

  /** An instruction that holds no block checks clean, with this outcome. */
  ghost predicate FlatOk(ctx: TaskContext, env: Env, i: Instr, o: CheckOut) {
    match i
    case Let(op, dst) => exists t :: Has(ctx, env, op, t) && o == Falls(env[dst := t])
    case Get(src, f, dst) => exists t :: Has(ctx, env, ORegField(src, f), t) && o == Falls(env[dst := t])
    case DoCall(c) =>
      CallOk(ctx, env, c) &&
      exists t :: Returns(ctx, c.tool, t) && o == Falls(if c.dst.Some? then env[c.dst.value := t] else env)
    case Filter(src, p, dst) =>
      && RecordsAt(env, src) && o == Falls(env[dst := env[src]])
      && forall k | 0 <= k < |p.clauses| :: FilterClauseOk(ctx, env, env[src].elem.entity, p.clauses[k])
    case MapF(src, f, dst) =>
      RecordsAt(env, src) && exists t :: FieldHas(ctx, env[src].elem.entity, f, t) && o == Falls(env[dst := TList(t)])
    case Format(template, ops, dst, _) =>
      && TemplateOk(ctx, template, |ops|) && o == Falls(env[dst := TStr])
      && forall k | 0 <= k < |ops| :: RendersOk(ctx, env, ops[k])
    case Count(src, dst) => ListAt(env, src) && o == Falls(env[dst := TInt])
    case Most(src, f, cands, dst, _) =>
      RecordsAt(env, src) &&
      exists t :: FieldHas(ctx, env[src].elem.entity, f, t) && o == Falls(env[dst := t]) &&
                  (cands.Some? ==> t.TId? && cands.value in o.env && o.env[cands.value] == TList(TObj(t.entity)))
    case Sort(src, f, _, dst) =>
      RecordsAt(env, src) && o == Falls(env[dst := env[src]]) &&
      exists t :: FieldHas(ctx, env[src].elem.entity, f, t) && t in {TInt, TTime, TStr, TBool}
    case Select(src, idx, dst) => ListAt(env, src) && Has(ctx, env, idx, TInt) && o == Falls(env[dst := env[src].elem])
    case First(src, dst) => ListAt(env, src) && o == Falls(env[dst := env[src].elem])
    case Parallel(calls) =>
      && (forall k | 0 <= k < |calls| :: CallOk(ctx, env, calls[k]) && FreshArgs(calls, calls[k].args))
      && exists types :: ParallelBinds(ctx, env, calls, o.env, types) && o == Falls(o.env)
    case Return(op) => (exists t :: Has(ctx, env, op, t)) && o == Leaves(env, [])
    case Stop => o == Leaves(env, [])
    case Abort(reason, refs) => o == Leaves(env, []) && forall k | 0 <= k < |refs| :: RefOk(ctx, reason, refs[k])
    case Pause => o == Leaves(env, [env])
    case _ => false
  }

  /** A statement checks clean, with this outcome. */
  ghost predicate StmtOk(ctx: TaskContext, env: Env, s: Stmt, o: CheckOut)
    decreases s
  {
    match s.instr
    case Foreach(src, v, body) =>
      ListAt(env, src) &&
      exists b :: BlockOk(ctx, env[v := env[src].elem], body, b) && o == CheckOut(b.env, [], false, b.pauses)
    case If(cond, thn, els) =>
      (forall k | 0 <= k < |cond.clauses| :: CondClauseOk(ctx, env, cond.clauses[k])) &&
      (match els
       case NoElse => exists t :: BlockOk(ctx, env, thn, t) && o == CheckOut(env, [], false, t.pauses)
       case Else(other) =>
         exists t, e :: BlockOk(ctx, env, thn, t) && BlockOk(ctx, env, other, e) && Merges(env, t, e, o.env) &&
                        o == CheckOut(o.env, [], t.done && e.done, t.pauses + e.pauses))
    case Try(_, dst, body) =>
      exists b :: BlockOk(ctx, env, body, b) && o == CheckOut(b.env[dst := TStatus], [], false, b.pauses)
    case i => FlatOk(ctx, env, i, o)
  }

  /** A block checks clean, with this outcome: its statements do in turn, and nothing follows one that ends the run. */
  ghost predicate BlockOk(ctx: TaskContext, env: Env, body: seq<Stmt>, o: CheckOut)
    decreases body
  {
    if body == [] then o == Falls(env)
    else
      exists h :: StmtOk(ctx, env, body[0], h) &&
        if h.done then |body| == 1 && o == h
        else exists t :: BlockOk(ctx, h.env, body[1..], t) && o == CheckOut(t.env, [], t.done, h.pauses + t.pauses)
  }

  // ---------------------------------------------------------------- the checker follows the rules

  /** The checker's outcome is clean and is this one. */
  ghost predicate Agrees(c: CheckOut, o: CheckOut) {
    c == o && c.diags == []
  }

  lemma RecordsExactly(env: Env, n: nat, line: nat)
    ensures ListEntity(env, n, line).1 == [] <==> RecordsAt(env, n)
    ensures ListEntity(env, n, line).0 == if RecordsAt(env, n) then Some(env[n].elem.entity) else None
  {
  }

  lemma ListExactly(env: Env, n: nat, line: nat)
    ensures ElemType(env, n, line).diags == [] <==> ListAt(env, n)
    ensures ElemType(env, n, line).ty == if ListAt(env, n) then Some(env[n].elem) else None
  {
  }

  lemma BindExactly(ctx: TaskContext, s: Stmt, env: Env, o: CheckOut)
    requires s.instr.Let? || s.instr.Get? || s.instr.Return?
    ensures Agrees(CheckStmt(ctx, s, env), o) <==> FlatOk(ctx, env, s.instr, o)
  {
    hide OperandType;
    hide Has;
    var op := if s.instr.Get? then ORegField(s.instr.src, s.instr.field) else s.instr.op;
    OperandExactly(ctx, env, op, s.line);
    var t := OperandType(ctx, env, op, s.line).ty;
    if t.Some? { assert Has(ctx, env, op, t.value); }
  }

  lemma CallStmtExactly(ctx: TaskContext, s: Stmt, env: Env, o: CheckOut)
    requires s.instr.DoCall?
    ensures Agrees(CheckStmt(ctx, s, env), o) <==> FlatOk(ctx, env, s.instr, o)
  {
    hide CheckCall;
    hide CallOk;
    var c := s.instr.call;
    CallExactly(ctx, env, c);
    assert CallOk(ctx, env, c) ==> c.tool in ctx.tools by { CallKnown(ctx, env, c); }
    assert Returns(ctx, c.tool, ResultType(ctx, c.tool));
  }

  lemma CallKnown(ctx: TaskContext, env: Env, c: CallI)
    ensures CallOk(ctx, env, c) ==> c.tool in ctx.tools
  {
  }

  lemma RecordStmtExactly(ctx: TaskContext, s: Stmt, env: Env, o: CheckOut)
    requires s.instr.Filter? || s.instr.MapF? || s.instr.Sort?
    ensures Agrees(CheckStmt(ctx, s, env), o) <==> FlatOk(ctx, env, s.instr, o)
  {
    hide CheckFilter;
    hide FilterClauseOk;
    hide FieldType;
    hide FieldHas;
    hide ListEntity;
    RecordsExactly(env, s.instr.src, s.line);
    if RecordsAt(env, s.instr.src) {
      var e := env[s.instr.src].elem.entity;
      if s.instr.Filter? {
        FilterExactly(ctx, env, e, s.instr.pred.clauses, s.line);
      } else {
        FieldExactly(ctx, e, s.instr.field, s.line);
        var t := FieldType(ctx, s.instr.field, e, s.line).ty;
        if t.Some? { assert FieldHas(ctx, e, s.instr.field, t.value); }
      }
    }
  }

  lemma MostExactly(ctx: TaskContext, s: Stmt, env: Env, o: CheckOut)
    requires s.instr.Most?
    ensures Agrees(CheckStmt(ctx, s, env), o) <==> FlatOk(ctx, env, s.instr, o)
  {
    hide FieldType;
    hide FieldHas;
    hide ListEntity;
    RecordsExactly(env, s.instr.src, s.line);
    if RecordsAt(env, s.instr.src) {
      var e := env[s.instr.src].elem.entity;
      FieldExactly(ctx, e, s.instr.field, s.line);
      var t := FieldType(ctx, s.instr.field, e, s.line).ty;
      if t.Some? { assert FieldHas(ctx, e, s.instr.field, t.value); }
    }
  }

  lemma ListStmtExactly(ctx: TaskContext, s: Stmt, env: Env, o: CheckOut)
    requires s.instr.Count? || s.instr.First? || s.instr.Select?
    ensures Agrees(CheckStmt(ctx, s, env), o) <==> FlatOk(ctx, env, s.instr, o)
  {
    hide OperandType;
    hide Has;
    hide ElemType;
    ListExactly(env, s.instr.src, s.line);
    if s.instr.Select? { OperandExactly(ctx, env, s.instr.idx, s.line); }
  }

  lemma TextStmtExactly(ctx: TaskContext, s: Stmt, env: Env, o: CheckOut)
    requires s.instr.Format? || s.instr.Abort?
    ensures Agrees(CheckStmt(ctx, s, env), o) <==> FlatOk(ctx, env, s.instr, o)
  {
    hide CheckTemplate;
    hide TemplateOk;
    hide CheckSlots;
    hide RendersOk;
    hide CheckRefs;
    hide RefOk;
    if s.instr.Format? {
      TemplateExactly(ctx, s.instr.template, |s.instr.ops|, s.line);
      RendersExactly(ctx, env, s.instr.ops, s.line);
    } else {
      RefsExactly(ctx, s.instr.reason, s.instr.refs, s.line);
    }
  }

  lemma {:induction false} FreshExactly(calls: seq<CallI>, args: seq<Operand>, line: nat)
    ensures CheckFresh(args, CallDstSet(calls), line) == [] <==> FreshArgs(calls, args)
    decreases args
  {
    if args != [] {
      FreshExactly(calls, args[1..], line);
      assert args == [args[0]] + args[1..];
      var a := args[0];
      if a.OReg? || a.ORegField? {
        if a.n in CallDstSet(calls) {
          var k :| 0 <= k < |calls| && calls[k].dst.Some? && calls[k].dst.value == a.n;
          assert args[0] == a;
        }
      }
    }
  }

  lemma {:induction false} ParallelChecks(ctx: TaskContext, env: Env, all: seq<CallI>, calls: seq<CallI>)
    ensures CheckParallel(ctx, env, calls, CallDstSet(all)) == [] <==>
            forall k | 0 <= k < |calls| :: CallOk(ctx, env, calls[k]) && FreshArgs(all, calls[k].args)
    decreases calls
  {
    hide CheckCall;
    hide CallOk;
    hide CheckFresh;
    hide FreshArgs;
    hide CallDstSet;
    if calls != [] {
      CallExactly(ctx, env, calls[0]);
      FreshExactly(all, calls[0].args, calls[0].line);
      ParallelChecks(ctx, env, all, calls[1..]);
      assert calls == [calls[0]] + calls[1..];
    }
  }

  ghost function ReturnTypes(ctx: TaskContext, calls: seq<CallI>): seq<Type> {
    seq(|calls|, i requires 0 <= i < |calls| => ResultType(ctx, calls[i].tool))
  }

  lemma {:induction false} ParallelEnv(ctx: TaskContext, env: Env, calls: seq<CallI>, i: nat)
    requires i <= |calls|
    ensures Overlaid(env, BindParallel(ctx, env, calls[i..]), i, |calls|, DstIs(calls), TypeAt(ReturnTypes(ctx, calls)))
    decreases |calls| - i
  {
    hide Overlaid;
    var types := ReturnTypes(ctx, calls);
    if i == |calls| {
      OverlaidNone(env, |calls|, DstIs(calls), TypeAt(types));
    } else {
      assert calls[i..][0] == calls[i] && calls[i..][1..] == calls[i + 1..];
      if calls[i].dst.Some? {
        var env1 := env[calls[i].dst.value := types[i]];
        ParallelEnv(ctx, env1, calls, i + 1);
        OverlaidSet(env, calls[i].dst.value, BindParallel(ctx, env1, calls[i + 1..]), i, |calls|, DstIs(calls),
                    TypeAt(types));
      } else {
        ParallelEnv(ctx, env, calls, i + 1);
        OverlaidSkip(env, BindParallel(ctx, env, calls[i + 1..]), i, |calls|, DstIs(calls), TypeAt(types));
      }
    }
  }

  lemma ParallelBindsExactly(ctx: TaskContext, env: Env, calls: seq<CallI>, env1: Env)
    ensures env1 == BindParallel(ctx, env, calls) <==> exists types :: ParallelBinds(ctx, env, calls, env1, types)
  {
    hide Overlaid;
    var own := ReturnTypes(ctx, calls);
    ParallelEnv(ctx, env, calls, 0);
    assert calls[0..] == calls;
    assert ParallelBinds(ctx, env, calls, BindParallel(ctx, env, calls), own);
    forall types | ParallelBinds(ctx, env, calls, env1, types)
      ensures env1 == BindParallel(ctx, env, calls)
    {
      assert types == own;
      OverlaidOnce(env, env1, BindParallel(ctx, env, calls), |calls|, DstIs(calls), TypeAt(own));
    }
  }

  lemma ParallelExactly(ctx: TaskContext, s: Stmt, env: Env, o: CheckOut)
    requires s.instr.Parallel?
    ensures Agrees(CheckStmt(ctx, s, env), o) <==> FlatOk(ctx, env, s.instr, o)
  {
    hide CheckParallel;
    hide BindParallel;
    hide ParallelBinds;
    hide CallOk;
    hide FreshArgs;
    ParallelChecks(ctx, env, s.instr.calls, s.instr.calls);
    ParallelBindsExactly(ctx, env, s.instr.calls, o.env);
  }

  lemma FlatExactly(ctx: TaskContext, s: Stmt, env: Env, o: CheckOut)
    requires !s.instr.Foreach? && !s.instr.If? && !s.instr.Try?
    ensures Agrees(CheckStmt(ctx, s, env), o) <==> FlatOk(ctx, env, s.instr, o)
  {
    if s.instr.Stop? || s.instr.Pause? {
    } else {
      hide CheckStmt;
      hide FlatOk;
      match s.instr
      case Let(_, _) => BindExactly(ctx, s, env, o);
      case Get(_, _, _) => BindExactly(ctx, s, env, o);
      case Return(_) => BindExactly(ctx, s, env, o);
      case DoCall(_) => CallStmtExactly(ctx, s, env, o);
      case Filter(_, _, _) => RecordStmtExactly(ctx, s, env, o);
      case MapF(_, _, _) => RecordStmtExactly(ctx, s, env, o);
      case Sort(_, _, _, _) => RecordStmtExactly(ctx, s, env, o);
      case Most(_, _, _, _, _) => MostExactly(ctx, s, env, o);
      case Format(_, _, _, _) => TextStmtExactly(ctx, s, env, o);
      case Abort(_, _) => TextStmtExactly(ctx, s, env, o);
      case Parallel(_) => ParallelExactly(ctx, s, env, o);
      case _ => ListStmtExactly(ctx, s, env, o);
    }
  }

  lemma {:induction false} BlockExactly(ctx: TaskContext, body: seq<Stmt>, env: Env, o: CheckOut)
    ensures Agrees(CheckBlock(ctx, body, env), o) <==> BlockOk(ctx, env, body, o)
    decreases body, 0
  {
    hide CheckStmt;
    hide StmtOk;
    if body != [] {
      forall h
        ensures Agrees(CheckStmt(ctx, body[0], env), h) <==> StmtOk(ctx, env, body[0], h)
      {
        StmtExactly(ctx, body[0], env, h);
      }
      var h := CheckStmt(ctx, body[0], env);
      forall t
        ensures Agrees(CheckBlock(ctx, body[1..], h.env), t) <==> BlockOk(ctx, h.env, body[1..], t)
      {
        BlockExactly(ctx, body[1..], h.env, t);
      }
    }
  }

  lemma {:induction false} StmtExactly(ctx: TaskContext, s: Stmt, env: Env, o: CheckOut)
    ensures Agrees(CheckStmt(ctx, s, env), o) <==> StmtOk(ctx, env, s, o)
    decreases s, 1
  {
    if s.instr.Foreach? {
      ForeachExactly(ctx, s, env, o);
    } else if s.instr.If? {
      IfExactly(ctx, s, env, o);
    } else if s.instr.Try? {
      TryExactly(ctx, s, env, o);
    } else {
      hide CheckStmt;
      hide FlatOk;
      FlatExactly(ctx, s, env, o);
    }
  }

  lemma {:induction false} ForeachExactly(ctx: TaskContext, s: Stmt, env: Env, o: CheckOut)
    requires s.instr.Foreach?
    ensures Agrees(CheckStmt(ctx, s, env), o) <==> StmtOk(ctx, env, s, o)
    decreases s, 0
  {
    hide CheckBlock;
    hide BlockOk;
    hide ElemType;
    var Foreach(src, v, body) := s.instr;
    ListExactly(env, src, s.line);
    if ListAt(env, src) {
      var inner := env[v := env[src].elem];
      forall b
        ensures Agrees(CheckBlock(ctx, body, inner), b) <==> BlockOk(ctx, inner, body, b)
      {
        BlockExactly(ctx, body, inner, b);
      }
    }
  }

  lemma {:induction false} TryExactly(ctx: TaskContext, s: Stmt, env: Env, o: CheckOut)
    requires s.instr.Try?
    ensures Agrees(CheckStmt(ctx, s, env), o) <==> StmtOk(ctx, env, s, o)
    decreases s, 0
  {
    hide CheckBlock;
    hide BlockOk;
    var Try(_, dst, body) := s.instr;
    forall b
      ensures Agrees(CheckBlock(ctx, body, env), b) <==> BlockOk(ctx, env, body, b)
    {
      BlockExactly(ctx, body, env, b);
    }
  }

  lemma {:induction false} IfExactly(ctx: TaskContext, s: Stmt, env: Env, o: CheckOut)
    requires s.instr.If?
    ensures Agrees(CheckStmt(ctx, s, env), o) <==> StmtOk(ctx, env, s, o)
    decreases s, 0
  {
    hide CheckBlock;
    hide BlockOk;
    hide CheckCond;
    hide CondClauseOk;
    var If(cond, thn, els) := s.instr;
    CondExactly(ctx, env, cond.clauses, s.line);
    forall b
      ensures Agrees(CheckBlock(ctx, thn, env), b) <==> BlockOk(ctx, env, thn, b)
    {
      BlockExactly(ctx, thn, env, b);
    }
    if els.Else? {
      forall b
        ensures Agrees(CheckBlock(ctx, els.body, env), b) <==> BlockOk(ctx, env, els.body, b)
      {
        BlockExactly(ctx, els.body, env, b);
      }
      MergeExactly(env, CheckBlock(ctx, thn, env), CheckBlock(ctx, els.body, env), o.env);
    }
  }

  lemma MergeExactly(env: Env, a: CheckOut, b: CheckOut, env1: Env)
    ensures var m := if a.done && b.done then env else if a.done then b.env
              else if b.done then a.env else Merged(a.env, b.env);
            m == env1 <==> Merges(env, a, b, env1)
  {
    hide Merged;
    AgreementExactly(a.env, b.env, env1);
  }

  lemma AgreementExactly(a: Env, b: Env, both: Env)
    ensures both == Merged(a, b) <==> Agreement(a, b, both)
  {
    if Agreement(a, b, both) {
      forall n: nat
        ensures (n in both <==> n in Merged(a, b)) && (n in both ==> both[n] == Merged(a, b)[n])
      {
      }
    }
  }

  /** A program checks clean exactly when the rules derive an outcome for it, and that is the checker's. */
  lemma CleanExactly(ctx: TaskContext, body: seq<Stmt>)
    ensures Clean(ctx, body, ctx.initial) <==> exists o :: BlockOk(ctx, ctx.initial, body, o)
    ensures forall o :: BlockOk(ctx, ctx.initial, body, o) ==> CheckProgram(ctx, body) == o
  {
    hide CheckBlock;
    hide BlockOk;
    forall o
      ensures Agrees(CheckBlock(ctx, body, ctx.initial), o) <==> BlockOk(ctx, ctx.initial, body, o)
    {
      BlockExactly(ctx, body, ctx.initial, o);
    }
    if Clean(ctx, body, ctx.initial) { assert BlockOk(ctx, ctx.initial, body, CheckBlock(ctx, body, ctx.initial)); }
  }
}
