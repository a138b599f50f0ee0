/** The Agent Core AST and its context of tools, fields and constants (core/ir.py). */
module Ir {
  import opened Common

  /** Entity names are non-empty. */
  type Entity = s: string | s != "" witness "e"

  datatype Type =
    | TInt | TFloat | TStr | TBool | TTime | TStatus | TNull
    | TId(entity: Entity)
    | TObj(entity: Entity)
    | TList(elem: Type)

  datatype Operand =
    | OReg(n: nat)
    | ORegField(n: nat, field: string)
    | OConst(sym: string)
    | ONow
    | ONull
    | OInt(v: nat)

  datatype Cmp = EQ | LT | GT | CONTAINS | IN | EMPTY

  datatype Connective = AND | OR

  /** FILTER clauses name a field of the element on the left; IF clauses hold an operand. */
  datatype Left = LField(field: string) | LOp(op: Operand)

  /** `RNone` is the missing right side of the unary EMPTY. */
  datatype Right = RElem(field: string) | ROp(op: Operand) | RNone

  datatype Clause = Clause(neg: bool, left: Left, cmp: Cmp, right: Right)

  /** Only EMPTY lacks a right side. */
  predicate ClauseComplete(c: Clause) {
    c.cmp.EMPTY? <==> c.right.RNone?
  }

  predicate AllComplete(cs: seq<Clause>) {
    forall i | 0 <= i < |cs| :: ClauseComplete(cs[i])
  }

  /** A flat clause list; the parser always leaves one connective fewer than clauses. */
  datatype FlatPred = FlatPred(clauses: seq<Clause>, ops: seq<Connective>)

  type Pred = p: FlatPred | |p.clauses| == |p.ops| + 1 && AllComplete(p.clauses)
    witness FlatPred([Clause(false, LField(""), EMPTY, RNone)], [])

  datatype CallI = CallI(tool: string, args: seq<Operand>, dst: Option<nat>, line: nat)

  datatype Instr =
    | Let(op: Operand, dst: nat)
    | Get(src: nat, field: string, dst: nat)
    | DoCall(call: CallI)
    | Format(template: string, ops: seq<Operand>, dst: nat, kinds: seq<string>)
    | Filter(src: nat, pred: Pred, dst: nat)
    | MapF(src: nat, field: string, dst: nat)
    | Count(src: nat, dst: nat)
    | Most(src: nat, field: string, cands: Option<nat>, dst: nat, least: bool)
    | Sort(src: nat, field: string, desc: bool, dst: nat)
    | Select(src: nat, idx: Operand, dst: nat)
    | First(src: nat, dst: nat)
    | Foreach(src: nat, loopVar: nat, body: seq<Stmt>)
    | If(cond: Pred, thn: seq<Stmt>, els: ElseArm)
    | Parallel(calls: seq<CallI>)
    | Try(retry: nat, dst: nat, body: seq<Stmt>)
    | Return(op: Operand)
    | Stop
    | Pause
    | Abort(reason: string, refs: seq<string>)

  datatype ElseArm = NoElse | Else(body: seq<Stmt>)

  /** An instruction with its 1-based source line; 0 means no line is known. */
  datatype Stmt = At(line: nat, instr: Instr)

  datatype Effect = Mutates | Irreversible | External

  datatype Param = Param(sym: string, ty: Type, required: bool)

  datatype ToolDecl = ToolDecl(params: seq<Param>, result: Option<Type>, effects: set<Effect>)

  datatype FieldDecl = FieldDecl(entity: Option<string>, name: string, ty: Type)

  datatype ConstDecl = ConstDecl(ty: Type, text: string)

  /** `initial` holds the registers a continuation segment finds pre-bound. */
  datatype TaskContext = TaskContext(
    tools: map<string, ToolDecl>,
    fields: map<string, FieldDecl>,
    constants: map<string, ConstDecl>,
    initial: map<nat, Type>)
}
