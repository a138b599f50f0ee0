/** Registers a text names. */
module Registers {
  import opened Common
  import opened Ir
  import opened Semantics
  import opened Compile
  import opened Closed
  import opened Binding

  predicate OpNames(op: Operand, n: nat) {
    op == OReg(n) || (op.ORegField? && op.n == n)
  }

  predicate OpsName(ops: seq<Operand>, n: nat) {
    exists i | 0 <= i < |ops| :: OpNames(ops[i], n)
  }

  /** On either side of some clause. */
  predicate PredNames(cs: seq<Clause>, n: nat) {
    exists i | 0 <= i < |cs| ::
      (cs[i].left.LOp? && OpNames(cs[i].left.op, n)) || (cs[i].right.ROp? && OpNames(cs[i].right.op, n))
  }

  predicate CallNames(c: CallI, n: nat) {
    c.dst == Some(n) || OpsName(c.args, n)
  }

  /** Some instruction of the block names the register; FORMAT's operands count if `formats`. */
  ghost predicate Names(body: seq<Stmt>, n: nat, formats: bool)
    decreases body
  {
    exists i | 0 <= i < |body| :: StmtNames(body[i], n, formats)
  }

  ghost predicate StmtNames(s: Stmt, n: nat, formats: bool)
    decreases s
  {
    match s.instr
    case Let(op, d) => n == d || OpNames(op, n)
    case Get(src, _, d) => n in {src, d}
    case DoCall(c) => CallNames(c, n)
    case Format(_, ops, d, _) => n == d || (formats && OpsName(ops, n))
    case Filter(src, p, d) => n in {src, d} || PredNames(p.clauses, n)
    case MapF(src, _, d) => n in {src, d}
    case Count(src, d) => n in {src, d}
    case Most(src, _, c, d, _) => n in {src, d} || c == Some(n)
    case Sort(src, _, _, d) => n in {src, d}
    case Select(src, i, d) => n in {src, d} || OpNames(i, n)
    case First(src, d) => n in {src, d}
    case Foreach(src, v, b) => n in {src, v} || Names(b, n, formats)
    case If(c, t, e) =>
      PredNames(c.clauses, n) || Names(t, n, formats) ||
      (match e case NoElse => false case Else(b) => Names(b, n, formats))
    case Parallel(calls) => exists i | 0 <= i < |calls| :: CallNames(calls[i], n)
    case Try(_, d, b) => n == d || Names(b, n, formats)
    case Return(op) => OpNames(op, n)
    case _ => false
  }

  lemma {:induction false} OpsExactly(ops: seq<Operand>, n: nat)
    ensures n in OpsUses(ops) <==> OpsName(ops, n)
    decreases ops
  {
    if ops != [] {
      OpsExactly(ops[1..], n);
      assert ops == [ops[0]] + ops[1..];
    }
  }

  lemma {:induction false} PredExactly(cs: seq<Clause>, n: nat)
    ensures n in ClausesUses(cs) <==> PredNames(cs, n)
    decreases cs
  {
    if cs != [] {
      PredExactly(cs[1..], n);
      assert cs == [cs[0]] + cs[1..];
    }
  }

  lemma {:induction false} CallsExactly(calls: seq<CallI>, n: nat)
    ensures n in CallsUses(calls) <==> exists i | 0 <= i < |calls| :: OpsName(calls[i].args, n)
    ensures n in CallDsts(calls) <==> exists i | 0 <= i < |calls| :: calls[i].dst == Some(n)
    decreases calls
  {
    hide OpsName;
    if calls != [] {
      OpsExactly(calls[0].args, n);
      CallsExactly(calls[1..], n);
      assert calls == [calls[0]] + calls[1..];
    }
  }

  lemma {:induction false} BlockExactly(body: seq<Stmt>, n: nat)
    ensures n in Uses(body) <==> Names(body, n, true)
    ensures n in Collected(body) <==> Names(body, n, false)
    decreases body
  {
    hide StmtUses;
    hide StmtCollected;
    if body != [] {
      StmtExactly(body[0], n);
      BlockExactly(body[1..], n);
      hide StmtNames;
      assert body == [body[0]] + body[1..];
    }
  }

  lemma {:induction false} StmtExactly(s: Stmt, n: nat)
    ensures n in StmtUses(s) <==> StmtNames(s, n, true)
    ensures n in StmtCollected(s) <==> StmtNames(s, n, false)
    decreases s
  {
    hide Uses;
    hide Collected;
    hide Names;
    hide OpsName;
    hide PredNames;
    match s.instr
    case DoCall(c) => CallsExactly([c], n); OpsExactly(c.args, n);
    case Format(_, ops, _, _) => OpsExactly(ops, n);
    case Filter(_, p, _) => PredExactly(p.clauses, n);
    case Foreach(_, _, b) => BlockExactly(b, n);
    case If(c, t, e) =>
      PredExactly(c.clauses, n);
      BlockExactly(t, n);
      if e.Else? { BlockExactly(e.body, n); }
    case Parallel(calls) => CallsExactly(calls, n);
    case Try(_, _, b) => BlockExactly(b, n);
    case _ =>
  }

  /** The emitted `let` line declares exactly the initial registers and those the text names, FORMAT's operands
      apart. */
  lemma DeclaredExactly(body: seq<Stmt>, init: set<nat>, n: nat)
    ensures n in CompileProgram(body, init).declared <==> n in init || Names(body, n, false)
  {
    hide EmitBlock;
    BlockExactly(body, n);
  }

  /** The instruction itself, its body aside, reads the register. */
  predicate Reads(i: Instr, n: nat) {
    match i
    case Let(op, _) => OpNames(op, n)
    case DoCall(c) => OpsName(c.args, n)
    case Format(_, ops, _, _) => OpsName(ops, n)
    case Filter(src, p, _) => n == src || PredNames(p.clauses, n)
    case Most(src, _, c, _, _) => n == src || c == Some(n)
    case Select(src, idx, _) => n == src || OpNames(idx, n)
    case If(c, _, _) => PredNames(c.clauses, n)
    case Parallel(calls) => exists k | 0 <= k < |calls| :: OpsName(calls[k].args, n)
    case Return(op) => OpNames(op, n)
    case Try(_, _, _) => false
    case Stop => false
    case Pause => false
    case Abort(_, _) => false
    case _ => n == i.src
  }

  lemma ReadsExactly(i: Instr, n: nat)
    ensures n in HeadReads(i) <==> Reads(i, n)
  {
    hide OpsName;
    hide PredNames;
    match i
    case DoCall(c) => OpsExactly(c.args, n);
    case Format(_, ops, _, _) => OpsExactly(ops, n);
    case Filter(_, p, _) => PredExactly(p.clauses, n);
    case If(c, _, _) => PredExactly(c.clauses, n);
    case Parallel(calls) => CallsExactly(calls, n);
    case _ =>
  }
}
