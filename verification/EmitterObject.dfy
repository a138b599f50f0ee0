/** The emitter as a mutable object (core/compile.py). */
module EmitterObject {
  import opened Common
  import opened Ir
  import opened Semantics
  import Js = JsTarget
  import opened JsTarget
  import opened Compile
  import opened Closed
  import opened SortedSets

  /** One emitted line; compound statements span several. */
  datatype Text =
    | Plain(s: JsStmt)
    | OpenForOf(loopVar: nat, src: nat)
    | OpenIf(cond: seq<JsTok>)
    | CloseElse
    | OpenForCount(a: nat, bound: nat)
    | OpenTry
    | CloseCatch
    | Close
    | OpenMain
    | LetLine(regs: set<nat>)
    | SnapshotLine(regs: set<nat>)
    | InitialLine(n: nat)

  datatype Line = Line(depth: nat, text: Text)

  function Flatten(ss: seq<JsStmt>, d: nat): seq<Line>
    decreases ss
  {
    if ss == [] then [] else FlattenStmt(ss[0], d) + Flatten(ss[1..], d)
  }

  function FlattenStmt(s: JsStmt, d: nat): seq<Line>
    decreases s
  {
    match s
    case ForOf(v, src, b) => [Line(d, OpenForOf(v, src))] + Flatten(b, d + 1) + [Line(d, Close)]
    case ForCount(a, n, b) => [Line(d, OpenForCount(a, n))] + Flatten(b, d + 1) + [Line(d, Close)]
    case TryCatch(b, h) =>
      [Line(d, OpenTry)] + Flatten(b, d + 1) + [Line(d, CloseCatch)] + Flatten(h, d + 1) + [Line(d, Close)]
    case IfElse(c, t, e) =>
      [Line(d, OpenIf(c))] + Flatten(t, d + 1) +
      (match e case NoElse => [] case Else(b) => [Line(d, CloseElse)] + Flatten(b, d + 1)) + [Line(d, Close)]
    case _ => [Line(d, Plain(s))]
  }

  lemma {:induction false} FlattenAppend(a: seq<JsStmt>, b: seq<JsStmt>, d: nat)
    ensures Flatten(a + b, d) == Flatten(a, d) + Flatten(b, d)
    decreases a
  {
    hide FlattenStmt;
    if a == [] {
      assert a + b == b;
    } else {
      assert (a + b)[1..] == a[1..] + b;
      FlattenAppend(a[1..], b, d);
    }
  }

  lemma FlattenOne(s: JsStmt, d: nat)
    ensures Flatten([s], d) == FlattenStmt(s, d)
  {
    hide FlattenStmt;
    assert [s][1..] == [];
  }

  // ---------------------------------------------------------------- reading lines back

  predicate Ends(t: Text) {
    t.CloseElse? || t.CloseCatch? || t.Close?
  }

  function Drop(ls: seq<Line>): (r: seq<Line>)
    ensures |r| <= |ls|
  {
    if ls == [] then [] else ls[1..]
  }

  /** Statements up to the line that closes their block, and what follows. */
  function ReadBlock(ls: seq<Line>): (r: (seq<JsStmt>, seq<Line>))
    ensures |r.1| <= |ls|
    decreases |ls|, 1
  {
    if ls == [] || Ends(ls[0].text) then ([], ls)
    else
      var (s, rest) := ReadStmt(ls);
      var (ss, rest') := ReadBlock(rest);
      ([s] + ss, rest')
  }

  function ReadStmt(ls: seq<Line>): (r: (JsStmt, seq<Line>))
    requires ls != []
    ensures |r.1| < |ls|
    decreases |ls|, 0
  {
    match ls[0].text
    case Plain(s) => (s, ls[1..])
    case OpenForOf(v, src) =>
      var (b, rest) := ReadBlock(ls[1..]);
      (ForOf(v, src, b), Drop(rest))
    case OpenForCount(a, n) =>
      var (b, rest) := ReadBlock(ls[1..]);
      (ForCount(a, n, b), Drop(rest))
    case OpenTry =>
      var (b, rest) := ReadBlock(ls[1..]);
      var (h, rest') := ReadBlock(Drop(rest));
      (TryCatch(b, h), Drop(rest'))
    case OpenIf(c) =>
      var (t, rest) := ReadBlock(ls[1..]);
      if rest != [] && rest[0].text.CloseElse? then
        var (e, rest') := ReadBlock(rest[1..]);
        (IfElse(c, t, Js.Else(e)), Drop(rest'))
      else (IfElse(c, t, Js.NoElse), Drop(rest))
    case _ => (Break, ls[1..])
  }

  predicate AtEnd(rest: seq<Line>) {
    rest == [] || Ends(rest[0].text)
  }

  /** The lines determine the program: reading a flattened block gives the block and leaves the rest. */
  lemma {:induction false} ReadFlattened(ss: seq<JsStmt>, d: nat, rest: seq<Line>)
    requires AtEnd(rest)
    ensures ReadBlock(Flatten(ss, d) + rest) == (ss, rest)
    decreases ss, 1
  {
    hide FlattenStmt;
    hide ReadStmt;
    if ss == [] {
      assert Flatten(ss, d) + rest == rest;
    } else {
      var tail := Flatten(ss[1..], d) + rest;
      assert Flatten(ss, d) + rest == FlattenStmt(ss[0], d) + tail;
      ReadFlattenedStmt(ss[0], d, tail);
      ReadFlattened(ss[1..], d, rest);
      assert [ss[0]] + ss[1..] == ss;
    }
  }

  lemma {:induction false} ReadFlattenedStmt(s: JsStmt, d: nat, rest: seq<Line>)
    ensures var ls := FlattenStmt(s, d) + rest; ls != [] && !Ends(ls[0].text) && ReadStmt(ls) == (s, rest)
    decreases s, 1
  {
    hide Flatten;
    hide ReadBlock;
    var ls := FlattenStmt(s, d) + rest;
    var close := [Line(d, Close)] + rest;
    assert Drop(close) == rest;
    match s
    case ForOf(v, src, b) =>
      assert ls == [Line(d, OpenForOf(v, src))] + (Flatten(b, d + 1) + close);
      assert ls[1..] == Flatten(b, d + 1) + close;
      ReadFlattened(b, d + 1, close);
    case ForCount(a, n, b) =>
      assert ls == [Line(d, OpenForCount(a, n))] + (Flatten(b, d + 1) + close);
      assert ls[1..] == Flatten(b, d + 1) + close;
      ReadFlattened(b, d + 1, close);
    case TryCatch(b, h) =>
      var mid := [Line(d, CloseCatch)] + (Flatten(h, d + 1) + close);
      assert ls == [Line(d, OpenTry)] + (Flatten(b, d + 1) + mid);
      assert ls[1..] == Flatten(b, d + 1) + mid;
      ReadFlattened(b, d + 1, mid);
      assert Drop(mid) == Flatten(h, d + 1) + close;
      ReadFlattened(h, d + 1, close);
    case IfElse(c, t, e) => ReadFlattenedIf(s, d, rest);
    case _ =>
  }

  lemma {:induction false} ReadFlattenedIf(s: JsStmt, d: nat, rest: seq<Line>)
    requires s.IfElse?
    ensures var ls := FlattenStmt(s, d) + rest; ls != [] && !Ends(ls[0].text) && ReadStmt(ls) == (s, rest)
    decreases s, 0
  {
    hide Flatten;
    hide ReadBlock;
    var IfElse(c, t, e) := s;
    var ls := FlattenStmt(s, d) + rest;
    var close := [Line(d, Close)] + rest;
    match e
    case NoElse =>
      assert ls == [Line(d, OpenIf(c))] + (Flatten(t, d + 1) + close);
      assert ls[1..] == Flatten(t, d + 1) + close;
      ReadFlattened(t, d + 1, close);
    case Else(b) =>
      var mid := [Line(d, CloseElse)] + (Flatten(b, d + 1) + close);
      assert ls == [Line(d, OpenIf(c))] + (Flatten(t, d + 1) + mid);
      assert ls[1..] == Flatten(t, d + 1) + mid;
      ReadFlattened(t, d + 1, mid);
      assert mid[1..] == Flatten(b, d + 1) + close;
      ReadFlattened(b, d + 1, close);
  }

  // ---------------------------------------------------------------- the object

  class Emitter {
    var lines: seq<Line>
    var tryCounter: nat
    var parCounter: nat
    var assignedRegs: set<nat>

    constructor (init: set<nat>)
      ensures lines == [] && State() == EmitState(init, 0, 0)
    {
      lines := [];
      tryCounter := 0;
      parCounter := 0;
      assignedRegs := init;
    }

    function State(): EmitState
      reads this
    {
      EmitState(assignedRegs, tryCounter, parCounter)
    }

    method PutLine(depth: nat, text: Text)
      modifies this`lines
      ensures lines == old(lines) + [Line(depth, text)]
    {
      lines := lines + [Line(depth, text)];
    }

    method HeaderLines(regs: set<nat>, order: seq<nat>)
      modifies this`lines
      ensures lines == old(lines) + Header(regs, order)
    {
      PutLine(0, OpenMain);
      if regs != {} {
        PutLine(1, LetLine(regs));
        PutLine(1, SnapshotLine(regs));
      }
      ghost var top := lines;
      for i := 0 to |order|
        invariant lines == top + InitialLines(order[..i])
      {
        PutLine(1, InitialLine(order[i]));
        assert InitialLines(order[..i + 1]) == InitialLines(order[..i]) + [Line(1, InitialLine(order[i]))];
      }
      assert order[..|order|] == order;
    }

    /** `pred`: the flat token list of a clause list. */
    method Cond(p: Pred) returns (toks: seq<JsTok>)
      ensures toks == PredToks(p)
    {
      toks := [];
      for i := 0 to |p.clauses|
        invariant |toks| == if i == 0 then 0 else 2 * i - 1
        invariant forall j | 0 <= j < |toks| :: toks[j] == PredToks(p)[j]
      {
        if i > 0 { toks := toks + [OpTok(p.ops[i - 1])]; }
        toks := toks + [ClauseTok(p.clauses[i])];
      }
    }

    method Value(i: Instr) returns (e: JsExpr)
      requires IsSimple(i)
      ensures e == SimpleE(i)
    {
      if i.Filter? {
        var toks := Cond(i.pred);
        e := FilterE(Var(i.src), toks);
      } else {
        e := SimpleE(i);
      }
    }

    /** Emitting text appended the flattened code and advanced the state. */
    twostate predicate Emitted(code: seq<JsStmt>, depth: nat, es: EmitState)
      reads this
    {
      lines == old(lines) + Flatten(code, depth) && State() == es
    }

    /** `block`. */
    method Block(body: seq<Stmt>, depth: nat)
      modifies this
      ensures Emitted(EmitBlock(body, old(State())), depth, AfterBlock(body, old(State())))
      decreases body, 2
    {
      hide EmitStmt;
      hide After;
      hide Flatten;
      ghost var es0 := State();
      ghost var code: seq<JsStmt> := [];
      assert Flatten(code, depth) == [] by { EmptyFlat(depth); }
      for i := 0 to |body|
        invariant lines == old(lines) + Flatten(code, depth)
        invariant code + EmitBlock(body[i..], State()) == EmitBlock(body, es0)
        invariant AfterBlock(body[i..], State()) == AfterBlock(body, es0)
      {
        assert body[i..][0] == body[i] && body[i..][1..] == body[i + 1..];
        assert body[i] in body;
        ghost var es := State();
        ghost var code' := code + EmitStmt(body[i], es);
        Instruction(body[i], depth);
        FlattenAppend(code, EmitStmt(body[i], es), depth);
        assert code' + EmitBlock(body[i + 1..], State()) == code + EmitBlock(body[i..], es);
        code := code';
      }
      assert body[|body|..] == [];
      assert code + [] == code;
    }

    method Instruction(s: Stmt, depth: nat)
      modifies this
      ensures Emitted(EmitStmt(s, old(State())), depth, After(s, old(State())))
      decreases s, 2
    {
      hide EmitInstr;
      hide After;
      hide Flatten;
      ghost var es := State();
      if s.line != 0 { PutLine(depth, Plain(AtLine(s.line))); }
      assert lines == old(lines) + Flatten(LineMark(s.line), depth) by {
        EmptyFlat(depth);
        FlattenOne(AtLine(s.line), depth);
      }
      FlattenAppend(LineMark(s.line), EmitInstr(s, es), depth);
      if s.instr.Foreach? || s.instr.If? || s.instr.Try? {
        Compound(s, depth);
      } else {
        Simple(s, depth);
      }
    }

    method Simple(s: Stmt, depth: nat)
      requires !s.instr.Foreach? && !s.instr.If? && !s.instr.Try?
      modifies this
      ensures Emitted(EmitInstr(s, old(State())), depth, After(s, old(State())))
    {
      hide Flatten;
      ghost var es := State();
      if s.instr.Parallel? {
        Par(s.instr.calls, depth);
      } else {
        FlattenOne(EmitInstr(s, es)[0], depth);
        if IsSimple(s.instr) {
          var e := Value(s.instr);
          assignedRegs := assignedRegs + {s.instr.dst};
          PutLine(depth, Plain(Assign(s.instr.dst, e)));
        } else {
          Exit(s, depth);
        }
      }
    }

    method Exit(s: Stmt, depth: nat)
      requires s.instr.DoCall? || s.instr.Return? || s.instr.Stop? || s.instr.Abort? || s.instr.Pause?
      modifies this
      ensures lines == old(lines) + FlattenStmt(EmitInstr(s, old(State()))[0], depth) &&
              State() == After(s, old(State()))
    {
      match s.instr
      case DoCall(c) =>
        assert [c][1..] == [] && CallDsts([]) == {};
        assert CallDsts([c]) == if c.dst.Some? then {c.dst.value} else {};
        if c.dst.Some? { assignedRegs := assignedRegs + {c.dst.value}; }
        assert assignedRegs == old(assignedRegs) + CallDsts([c]);
        PutLine(depth, Plain(AwaitCall(c.dst, CallE(c))));
      case Return(op) => PutLine(depth, Plain(RetValue(OperandE(op))));
      case Stop => PutLine(depth, Plain(RetStop));
      case Abort(reason, refs) => PutLine(depth, Plain(RetAbort(reason, refs)));
      case Pause => PutLine(depth, Plain(RetPause(assignedRegs)));
    }

    /** PARALLEL: the array of calls, then the destinations from it. */
    method Par(calls: seq<CallI>, depth: nat)
      modifies this
      ensures Emitted([ConstAll(old(parCounter), CallsE(calls))] + AssignPars(calls, old(parCounter), 0), depth,
                      old(State()).(seen := old(assignedRegs) + CallDsts(calls), pars := old(parCounter) + 1))
    {
      hide Flatten;
      var v := parCounter;
      parCounter := parCounter + 1;
      var head := ConstAll(v, CallsE(calls));
      PutLine(depth, Plain(head));
      FlattenOne(head, depth);
      FlattenAppend([head], AssignPars(calls, v, 0), depth);
      for i := 0 to |calls|
        invariant lines + Flatten(AssignPars(calls, v, i), depth) ==
                  old(lines) + [Line(depth, Plain(head))] + Flatten(AssignPars(calls, v, 0), depth)
        invariant assignedRegs + CallDsts(calls[i..]) == old(assignedRegs) + CallDsts(calls)
        invariant parCounter == v + 1 && tryCounter == old(tryCounter)
      {
        assert calls[i..][0] == calls[i] && calls[i..][1..] == calls[i + 1..];
        if calls[i].dst.Some? {
          var line := AssignPar(calls[i].dst.value, v, i);
          assignedRegs := assignedRegs + {calls[i].dst.value};
          PutLine(depth, Plain(line));
          FlattenAppend([line], AssignPars(calls, v, i + 1), depth);
          FlattenOne(line, depth);
        } else {
          assert AssignPars(calls, v, i) == AssignPars(calls, v, i + 1);
        }
      }
      EmptyFlat(depth);
      assert calls[0..] == calls && calls[|calls|..] == [];
      assert lines + [] == lines;
    }

    method Compound(s: Stmt, depth: nat)
      requires s.instr.Foreach? || s.instr.If? || s.instr.Try?
      modifies this
      ensures Emitted(EmitInstr(s, old(State())), depth, After(s, old(State())))
      decreases s, 1
    {
      hide Flatten;
      hide EmitBlock;
      hide AfterBlock;
      match s.instr
      case Foreach(src, v, body) =>
        ghost var es := State();
        assignedRegs := assignedRegs + {v};
        PutLine(depth, OpenForOf(v, src));
        Block(body, depth + 1);
        PutLine(depth, Close);
        FlattenOne(ForOf(v, src, EmitBlock(body, es.(seen := es.seen + {v}))), depth);
      case If(_, _, _) => IfLines(s, depth);
      case Try(retry, dst, body) => TryLines(retry, dst, body, depth);
    }

    /** IF: the condition, its block, and the else block when there is one. */
    method IfLines(s: Stmt, depth: nat)
      requires s.instr.If?
      modifies this
      ensures Emitted(EmitInstr(s, old(State())), depth, After(s, old(State())))
      decreases s, 0
    {
      hide Flatten;
      hide EmitBlock;
      hide AfterBlock;
      hide PredToks;
      ghost var es := State();
      var toks := Cond(s.instr.cond);
      PutLine(depth, OpenIf(toks));
      Block(s.instr.thn, depth + 1);
      if s.instr.els.Else? {
        PutLine(depth, CloseElse);
        Block(s.instr.els.body, depth + 1);
      }
      PutLine(depth, Close);
      FlattenOne(EmitInstr(s, es)[0], depth);
    }

    /** TRY: `r = "OK"`, the counted loop, and inside it the guarded body. */
    method TryLines(retry: nat, dst: nat, body: seq<Stmt>, depth: nat)
      modifies this
      ensures var es := old(State());
              Emitted([AssignOk(dst), ForCount(es.tries, retry, [TryBlock(dst, EmitBlock(body, InTry(dst, es)))])],
                      depth,
                      AfterBlock(body, InTry(dst, es)))
      decreases body, 3
    {
      hide Flatten;
      hide EmitBlock;
      hide AfterBlock;
      ghost var es := State();
      var a := tryCounter;
      tryCounter := tryCounter + 1;
      assignedRegs := assignedRegs + {dst};
      PutLine(depth, Plain(AssignOk(dst)));
      PutLine(depth, OpenForCount(a, retry));
      PutLine(depth + 1, OpenTry);
      ghost var l0, l1 := old(lines), TryHead(a, retry, dst, depth);
      assert lines == l0 + l1;
      Block(body, depth + 2);
      ghost var l2 := Flatten(EmitBlock(body, InTry(dst, es)), depth + 2);
      ghost var l3 := lines;
      assert l3 == l0 + l1 + l2;
      PutLine(depth + 2, Plain(AssignOk(dst)));
      PutLine(depth + 2, Plain(Break));
      PutLine(depth + 1, CloseCatch);
      PutLine(depth + 2, Plain(RethrowOthers));
      PutLine(depth + 2, Plain(AssignCode(dst)));
      PutLine(depth + 1, Close);
      PutLine(depth, Close);
      assert lines == l3 + TryTail(dst, depth);
      AppendLines(l0, l1, l2, TryTail(dst, depth));
      TryFlat(a, retry, dst, EmitBlock(body, InTry(dst, es)), depth);
    }
  }

  lemma EmptyFlat(depth: nat)
    ensures Flatten([], depth) == []
  {
  }

  function TryHead(a: nat, retry: nat, dst: nat, d: nat): seq<Line> {
    [Line(d, Plain(AssignOk(dst))), Line(d, OpenForCount(a, retry)), Line(d + 1, OpenTry)]
  }

  function TryTail(dst: nat, d: nat): seq<Line> {
    [Line(d + 2, Plain(AssignOk(dst))), Line(d + 2, Plain(Break)), Line(d + 1, CloseCatch),
     Line(d + 2, Plain(RethrowOthers)), Line(d + 2, Plain(AssignCode(dst))), Line(d + 1, Close), Line(d, Close)]
  }

  lemma AppendLines(a: seq<Line>, b: seq<Line>, c: seq<Line>, d: seq<Line>)
    ensures a + b + c + d == a + (b + c + d)
  {
  }

  lemma TryFlat(a: nat, retry: nat, dst: nat, js: seq<JsStmt>, d: nat)
    ensures Flatten([AssignOk(dst), ForCount(a, retry, [TryBlock(dst, js)])], d) ==
            TryHead(a, retry, dst, d) + Flatten(js, d + 2) + TryTail(dst, d)
  {
    hide Flatten;
    var t := TryBlock(dst, js);
    var f := ForCount(a, retry, [t]);
    PairFlat(AssignOk(dst), f, d);
    FlattenOne(t, d + 1);
    FlattenAppend(js, [AssignOk(dst), Break], d + 2);
    PairFlat(AssignOk(dst), Break, d + 2);
    PairFlat(RethrowOthers, AssignCode(dst), d + 2);
  }

  lemma PairFlat(a: JsStmt, b: JsStmt, d: nat)
    ensures Flatten([a, b], d) == FlattenStmt(a, d) + FlattenStmt(b, d)
  {
    hide Flatten;
    hide FlattenStmt;
    assert [a, b] == [a] + [b];
    FlattenAppend([a], [b], d);
    FlattenOne(a, d);
    FlattenOne(b, d);
  }

  // ---------------------------------------------------------------- the whole text

  predicate Ascending(ns: seq<nat>) {
    forall i, j | 0 <= i < j < |ns| :: ns[i] < ns[j]
  }

  function InitialLines(ns: seq<nat>): seq<Line> {
    seq(|ns|, i requires 0 <= i < |ns| => Line(1, InitialLine(ns[i])))
  }

  function Header(declared: set<nat>, init: seq<nat>): seq<Line> {
    [Line(0, OpenMain)] +
    (if declared == {} then [] else [Line(1, LetLine(declared)), Line(1, SnapshotLine(declared))]) + InitialLines(init)
  }

  /** The set `_collect_regs` is passed and adds to. */
  class RegSet {
    var regs: set<nat>

    constructor (init: set<nat>)
      ensures regs == init
    {
      regs := init;
    }

    method AddOperand(op: Operand)
      modifies this
      ensures regs == old(regs) + OpUses(op)
    {
      if op.OReg? || op.ORegField? { regs := regs + {op.n}; }
    }

    method AddOperands(ops: seq<Operand>)
      modifies this
      ensures regs == old(regs) + OpsUses(ops)
    {
      for i := 0 to |ops|
        invariant regs + OpsUses(ops[i..]) == old(regs) + OpsUses(ops)
      {
        assert ops[i..][0] == ops[i] && ops[i..][1..] == ops[i + 1..];
        AddOperand(ops[i]);
      }
    }

    method AddClauses(cs: seq<Clause>)
      modifies this
      ensures regs == old(regs) + ClausesUses(cs)
    {
      for i := 0 to |cs|
        invariant regs + ClausesUses(cs[i..]) == old(regs) + ClausesUses(cs)
      {
        assert cs[i..][0] == cs[i] && cs[i..][1..] == cs[i + 1..];
        if cs[i].left.LOp? { AddOperand(cs[i].left.op); }
        if cs[i].right.ROp? { AddOperand(cs[i].right.op); }
      }
    }

    method AddCalls(calls: seq<CallI>)
      modifies this
      ensures regs == old(regs) + CallDsts(calls) + CallsUses(calls)
    {
      for i := 0 to |calls|
        invariant regs + CallDsts(calls[i..]) + CallsUses(calls[i..]) == old(regs) + CallDsts(calls) + CallsUses(calls)
      {
        assert calls[i..][0] == calls[i] && calls[i..][1..] == calls[i + 1..];
        if calls[i].dst.Some? { regs := regs + {calls[i].dst.value}; }
        AddOperands(calls[i].args);
      }
    }

    /** `_collect_regs`: each instruction's own registers, then the registers of the blocks it holds. */
    method Collect(body: seq<Stmt>)
      modifies this
      ensures regs == old(regs) + Collected(body)
      decreases body, 1
    {
      for i := 0 to |body|
        invariant regs + Collected(body[i..]) == old(regs) + Collected(body)
      {
        assert body[i..][0] == body[i] && body[i..][1..] == body[i + 1..];
        CollectStmt(body[i]);
      }
    }

    method CollectStmt(s: Stmt)
      modifies this
      ensures regs == old(regs) + StmtCollected(s)
      decreases s, 0
    {
      hide Collected;
      hide ClausesUses;
      match s.instr
      case Foreach(src, v, b) =>
        regs := regs + {v, src};
        Collect(b);
      case If(cond, thn, els) =>
        AddClauses(cond.clauses);
        Collect(thn);
        if els.Else? { Collect(els.body); }
      case Try(_, dst, b) =>
        regs := regs + {dst};
        Collect(b);
      case _ => CollectFlat(s);
    }

    method CollectFlat(s: Stmt)
      requires !s.instr.Foreach? && !s.instr.If? && !s.instr.Try?
      modifies this
      ensures regs == old(regs) + StmtCollected(s)
    {
      hide OpUses;
      hide OpsUses;
      hide ClausesUses;
      match s.instr
      case DoCall(c) =>
        assert [c][1..] == [] && CallDsts([]) == {};
        if c.dst.Some? { regs := regs + {c.dst.value}; }
        AddOperands(c.args);
      case Parallel(calls) => AddCalls(calls);
      case Return(op) => AddOperand(op);
      case Let(op, dst) =>
        regs := regs + {dst};
        AddOperand(op);
      case Filter(src, p, dst) =>
        regs := regs + {dst, src};
        AddClauses(p.clauses);
      case Select(src, idx, dst) =>
        regs := regs + {dst, src};
        AddOperand(idx);
      case Most(src, _, cands, dst, _) =>
        regs := regs + {dst, src};
        if cands.Some? { regs := regs + {cands.value}; }
      case Format(_, _, dst, _) => regs := regs + {dst};
      case Stop =>
      case Pause =>
      case Abort(_, _) =>
      case Get(src, _, dst) => regs := regs + {dst, src};
      case MapF(src, _, dst) => regs := regs + {dst, src};
      case Count(src, dst) => regs := regs + {dst, src};
      case Sort(src, _, _, dst) => regs := regs + {dst, src};
      case First(src, dst) => regs := regs + {dst, src};
    }
  }

  /** `emit`: the opening line; if any register is declared, the `let` line and the snapshot of the same registers; one
      line per initial register in ascending order; the flattened program of `CompileProgram`; and the closing brace. */
  method EmitText(body: seq<Stmt>, init: set<nat>) returns (lines: seq<Line>, order: seq<nat>)
    ensures Ascending(order) && (forall n :: n in order <==> n in init)
    ensures var p := CompileProgram(body, init);
            var views := if p.declared == {} then [] else [Line(1, LetLine(p.declared)),
                                                           Line(1, SnapshotLine(p.declared))];
            var seeds := seq(|order|, i requires 0 <= i < |order| => Line(1, InitialLine(order[i])));
            lines == [Line(0, OpenMain)] + views + seeds + Flatten(p.body, 1) + [Line(0, Close)]
  {
    hide EmitBlock;
    hide Flatten;
    hide Collected;
    hide Ascending;
    var em := new Emitter(init);
    var collector := new RegSet(init);
    collector.Collect(body);
    var regs := collector.regs;
    order := SortedRegs(init);
    em.HeaderLines(regs, order);
    ghost var es := em.State();
    em.Block(body, 1);
    var tail := if EndsProgram(body) then [] else [RetStop];
    if !EndsProgram(body) { em.PutLine(1, Plain(RetStop)); }
    FlattenAppend(EmitBlock(body, es), tail, 1);
    EmptyFlat(1);
    FlattenOne(RetStop, 1);
    em.PutLine(0, Close);
    lines := em.lines;
  }

  method SortedRegs(regs: set<nat>) returns (order: seq<nat>)
    ensures Ascending(order) && (forall n :: n in order <==> n in regs)
  {
    order := Sorted(regs);
  }

  /** From the emitted text a reader recovers exactly the program whose runs `CompiledRunMatches` describes. */
  lemma TextDeterminesProgram(body: seq<Stmt>, init: set<nat>)
    ensures var p := CompileProgram(body, init);
            ReadBlock(Flatten(p.body, 1) + [Line(0, Close)]) == (p.body, [Line(0, Close)])
  {
    ReadFlattened(CompileProgram(body, init).body, 1, [Line(0, Close)]);
  }
}
