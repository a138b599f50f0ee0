/** The line and block parser of core/parser.py: instruction heads, indentation blocks, ELSE folding, and the round
    trips. */
module Parser {
  import opened Common
  import opened Decimal
  import opened Ir
  import opened Tokens

  // ---------------------------------------------------------------- instruction heads

  /** What one line says, before its indented body is attached. */
  datatype Head =
    | Plain(i: Instr)
    | ForeachHead(src: nat, loopVar: nat)
    | IfHead(cond: Pred)
    | ElseHead
    | ParallelHead
    | TryHead(retry: nat, dst: nat)

  datatype Arrow = Arrow(rest: seq<string>, dst: nat)

  /** `_arrow_dst`. */
  function ArrowDst(toks: seq<string>): Option<Arrow> {
    var n := |toks|;
    if n < 2 || toks[n - 2] != "->" then None
    else match ParseReg(toks[n - 1]) case None => None case Some(d) => Some(Arrow(toks[..n - 2], d))
  }

  const REASONS: seq<string> := ["NOT_FOUND", "AMBIGUOUS", "UNSUPPORTED", "NEEDS_INFO"]
  const MAX_REFS := 2

  predicate IsRef(tok: string) {
    Symbol("TFCSNBDI", tok)
  }

  function Cond(toks: seq<string>, fieldLeft: bool): Option<Pred> {
    ParsedPredOk(toks, fieldLeft);
    match ParseClauses(toks, fieldLeft) case None => None case Some(p) => Some(p)
  }

  /** Instructions that end in `-> rN`, given what stands before the arrow. */
  function ParseBinding(op: string, rest: seq<string>, dst: nat): Option<Head> {
    if op == "LET" then
      if |rest| != 1 || ParseOperand(rest[0]).None? then None else Some(Plain(Let(ParseOperand(rest[0]).value, dst)))
    else if op == "GET" then
      if |rest| != 1 || ParseOperand(rest[0]).None? || !ParseOperand(rest[0]).value.ORegField? then None
      else Some(Plain(Get(ParseOperand(rest[0]).value.n, ParseOperand(rest[0]).value.field, dst)))
    else if op == "FORMAT" then
      if rest == [] || !IsConstant(rest[0]) || ParseOperands(rest[1..]).None? then None
      else Some(Plain(Format(rest[0], ParseOperands(rest[1..]).value, dst, [])))
    else if op == "FILTER" then
      if |rest| < 4 || ParseReg(rest[0]).None? || Cond(rest[1..], true).None? then None
      else Some(Plain(Filter(ParseReg(rest[0]).value, Cond(rest[1..], true).value, dst)))
    else if op == "MAP" then
      if |rest| != 2 || ParseReg(rest[0]).None? || !IsField(rest[1]) then None
      else Some(Plain(MapF(ParseReg(rest[0]).value, rest[1], dst)))
    else if op == "COUNT" then
      if |rest| != 1 || ParseReg(rest[0]).None? then None else Some(Plain(Count(ParseReg(rest[0]).value, dst)))
    else if op == "MOST" || op == "LEAST" then
      if !(2 <= |rest| <= 3) || ParseReg(rest[0]).None? || !IsField(rest[1]) ||
          (|rest| == 3 && ParseReg(rest[2]).None?) then None
      else
        var cands := if |rest| == 3 then ParseReg(rest[2]) else None;
        Some(Plain(Most(ParseReg(rest[0]).value, rest[1], cands, dst, op == "LEAST")))
    else if op == "SORT" then
      if |rest| != 3 || ParseReg(rest[0]).None? || !IsField(rest[1]) ||
          (rest[2] != "ASC" && rest[2] != "DESC") then None
      else Some(Plain(Sort(ParseReg(rest[0]).value, rest[1], rest[2] == "DESC", dst)))
    else if op == "SELECT" then
      if |rest| != 2 || ParseReg(rest[0]).None? || ParseOperand(rest[1]).None? then None
      else Some(Plain(Select(ParseReg(rest[0]).value, ParseOperand(rest[1]).value, dst)))
    else if op == "FIRST" then
      if |rest| != 1 || ParseReg(rest[0]).None? then None else Some(Plain(First(ParseReg(rest[0]).value, dst)))
    else if op == "FOREACH" then
      if |rest| != 1 || ParseReg(rest[0]).None? then None else Some(ForeachHead(ParseReg(rest[0]).value, dst))
    else None
  }

  const BINDERS: seq<string> :=
    ["LET", "GET", "FORMAT", "FILTER", "MAP", "COUNT", "MOST", "LEAST", "SORT", "SELECT", "FIRST", "FOREACH"]

  function ParseCall(rest: seq<string>, line: nat): Option<Head> {
    var a := if "->" in rest then ArrowDst(rest) else Some(Arrow(rest, 0));
    if a.None? then None
    else
      var words := a.value.rest;
      if words == [] || !IsTool(words[0]) || ParseOperands(words[1..]).None? then None
      else
        var to := if "->" in rest then Some(a.value.dst) else None;
        Some(Plain(DoCall(CallI(words[0], ParseOperands(words[1..]).value, to, line))))
  }

  function ParseTry(rest: seq<string>): Option<Head> {
    if rest != [] && rest[0] == "RETRY" then
      if |rest| < 2 || rest[1] == "" || !AllDigits(rest[1]) then None
      else match ArrowDst(rest[2..])
        case None => None
        case Some(a) => if a.rest != [] then None else Some(TryHead(Read(rest[1]), a.dst))
    else
      match ArrowDst(rest)
      case None => None
      case Some(a) => if a.rest != [] then None else Some(TryHead(0, a.dst))
  }

  /** `_parse_instr`. */
  function ParseInstr(toks: seq<string>, line: nat): Option<Head>
    requires toks != []
  {
    var op, rest := toks[0], toks[1..];
    if op in BINDERS then
      match ArrowDst(rest) case None => None case Some(a) => ParseBinding(op, a.rest, a.dst)
    else if op == "CALL" then ParseCall(rest, line)
    else if op == "IF" then
      if rest == [] then None else (match Cond(rest, false) case None => None case Some(p) => Some(IfHead(p)))
    else if op == "ELSE" then (if rest != [] then None else Some(ElseHead))
    else if op == "PARALLEL" then (if rest != [] then None else Some(ParallelHead))
    else if op == "TRY" then ParseTry(rest)
    else if op == "RETURN" then
      if |rest| != 1 || ParseOperand(rest[0]).None? then None else Some(Plain(Return(ParseOperand(rest[0]).value)))
    else if op == "STOP" then (if rest != [] then None else Some(Plain(Stop)))
    else if op == "PAUSE" then (if rest != [] then None else Some(Plain(Instr.Pause)))
    else if op == "ABORT" then
      if rest == [] || rest[0] !in REASONS || |rest| - 1 > MAX_REFS ||
          (exists i | 1 <= i < |rest| :: !IsRef(rest[i])) then None
      else Some(Plain(Abort(rest[0], rest[1..])))
    else None
  }

  // ---------------------------------------------------------------- printing heads

  function Arrowed(words: seq<string>, dst: nat): seq<string> {
    words + ["->", RegText(dst)]
  }

  /** The words of a line. */
  function HeadWords(h: Head): seq<string>
    requires h.Plain? ==> Flat(h.i)
  {
    match h
    case ForeachHead(src, v) => ["FOREACH"] + Arrowed([RegText(src)], v)
    case IfHead(p) => ["IF"] + PredWords(p.clauses, p.ops)
    case ElseHead => ["ELSE"]
    case ParallelHead => ["PARALLEL"]
    case TryHead(retry, d) => ["TRY"] + Arrowed(if retry == 0 then [] else ["RETRY", Show(retry)], d)
    case Plain(i) => InstrWords(i)
  }

  /** Instructions without a body. */
  predicate Flat(i: Instr) {
    !i.Foreach? && !i.If? && !i.Parallel? && !i.Try?
  }

  function InstrWords(i: Instr): seq<string>
    requires Flat(i)
  {
    match i
    case Let(op, d) => ["LET"] + Arrowed([OperandText(op)], d)
    case Get(src, f, d) => ["GET"] + Arrowed([OperandText(ORegField(src, f))], d)
    case DoCall(c) =>
      var words := [c.tool] + OperandTexts(c.args);
      ["CALL"] + (if c.dst.Some? then Arrowed(words, c.dst.value) else words)
    case Format(t, ops, d, _) => ["FORMAT"] + Arrowed([t] + OperandTexts(ops), d)
    case Filter(src, p, d) => ["FILTER"] + Arrowed([RegText(src)] + PredWords(p.clauses, p.ops), d)
    case MapF(src, f, d) => ["MAP"] + Arrowed([RegText(src), f], d)
    case Count(src, d) => ["COUNT"] + Arrowed([RegText(src)], d)
    case Most(src, f, cands, d, least) =>
      [if least then "LEAST" else "MOST"] +
      Arrowed([RegText(src), f] + (if cands.Some? then [RegText(cands.value)] else []), d)
    case Sort(src, f, desc, d) => ["SORT"] + Arrowed([RegText(src), f, if desc then "DESC" else "ASC"], d)
    case Select(src, idx, d) => ["SELECT"] + Arrowed([RegText(src), OperandText(idx)], d)
    case First(src, d) => ["FIRST"] + Arrowed([RegText(src)], d)
    case Return(op) => ["RETURN", OperandText(op)]
    case Stop => ["STOP"]
    case Pause => ["PAUSE"]
    case Abort(reason, refs) => ["ABORT", reason] + refs
  }

  /** Heads the parser can build on line `line`. */
  predicate HeadOk(h: Head, line: nat) {
    match h
    case ForeachHead(src, v) => src < NUM_REGISTERS && v < NUM_REGISTERS
    case IfHead(p) => PredOk(p, false)
    case ElseHead => true
    case ParallelHead => true
    case TryHead(_, d) => d < NUM_REGISTERS
    case Plain(i) => Flat(i) && InstrOk(i, line)
  }

  predicate InstrOk(i: Instr, line: nat)
    requires Flat(i)
  {
    match i
    case Let(op, d) => OperandOk(op) && d < NUM_REGISTERS
    case Get(src, f, d) => src < NUM_REGISTERS && IsField(f) && d < NUM_REGISTERS
    case DoCall(c) =>
      IsTool(c.tool) && OperandsOk(c.args) && (c.dst.Some? ==> c.dst.value < NUM_REGISTERS) && c.line == line
    case Format(t, ops, d, kinds) => IsConstant(t) && OperandsOk(ops) && d < NUM_REGISTERS && kinds == []
    case Filter(src, p, d) => src < NUM_REGISTERS && PredOk(p, true) && d < NUM_REGISTERS
    case MapF(src, f, d) => src < NUM_REGISTERS && IsField(f) && d < NUM_REGISTERS
    case Count(src, d) => src < NUM_REGISTERS && d < NUM_REGISTERS
    case Most(src, f, cands, d, _) =>
      src < NUM_REGISTERS && IsField(f) && (cands.Some? ==> cands.value < NUM_REGISTERS) && d < NUM_REGISTERS
    case Sort(src, f, _, d) => src < NUM_REGISTERS && IsField(f) && d < NUM_REGISTERS
    case Select(src, idx, d) => src < NUM_REGISTERS && OperandOk(idx) && d < NUM_REGISTERS
    case First(src, d) => src < NUM_REGISTERS && d < NUM_REGISTERS
    case Return(op) => OperandOk(op)
    case Stop => true
    case Pause => true
    case Abort(reason, refs) =>
      reason in REASONS && |refs| <= MAX_REFS && forall k | 0 <= k < |refs| :: IsRef(refs[k])
  }

  lemma ArrowRoundTrip(words: seq<string>, dst: nat)
    requires dst < NUM_REGISTERS
    ensures ArrowDst(Arrowed(words, dst)) == Some(Arrow(words, dst))
  {
    hide ParseReg;
    hide RegText;
    RegRoundTrip(dst);
    assert Arrowed(words, dst)[..|words|] == words;
  }

  lemma BinderRoundTrip(op: string, words: seq<string>, dst: nat, line: nat)
    requires op in BINDERS && dst < NUM_REGISTERS
    ensures ParseInstr([op] + Arrowed(words, dst), line) == ParseBinding(op, words, dst)
  {
    hide ParseBinding;
    hide ArrowDst;
    hide Arrowed;
    ArrowRoundTrip(words, dst);
    assert ([op] + Arrowed(words, dst))[1..] == Arrowed(words, dst);
  }

  lemma CondRoundTrip(p: Pred, fieldLeft: bool)
    requires PredOk(p, fieldLeft)
    ensures Cond(PredWords(p.clauses, p.ops), fieldLeft) == Some(p)
  {
    hide PredWords;
    hide ParseClauses;
    PredRoundTrip(p.clauses, p.ops, fieldLeft);
  }

  lemma {:induction false} PredWordsLength(clauses: seq<Clause>, ops: seq<Connective>)
    requires PredOk(FlatPred(clauses, ops), true)
    ensures |PredWords(clauses, ops)| >= 3
  {
    hide ClauseOk;
    assert ClauseOk(clauses[0], true);
    FilterClauseLength(clauses[0]);
    hide ClauseWords;
  }

  lemma FilterClauseLength(c: Clause)
    requires ClauseOk(c, true)
    ensures |ClauseWords(c)| >= 3
  {
  }

  /** The instructions that bind through an arrow, printed and parsed back. */
  lemma BindingRoundTrip(i: Instr, line: nat)
    requires Flat(i) && InstrOk(i, line) && !i.DoCall? && !i.Return? && !i.Stop? && !i.Pause? && !i.Abort?
    ensures ParseInstr(InstrWords(i), line) == Some(Plain(i))
  {
    hide ParseInstr;
    hide Arrowed;
    hide ParseReg;
    hide RegText;
    hide ParseOperand;
    hide OperandText;
    hide ParseOperands;
    hide OperandTexts;
    hide IsField;
    hide IsConstant;
    hide PredWords;
    hide Cond;
    RegRoundTrip(i.dst);
    match i
    case Let(op, d) =>
      OperandRoundTrip(op);
      BinderRoundTrip("LET", [OperandText(op)], d, line);
    case Get(src, f, d) =>
      OperandRoundTrip(ORegField(src, f));
      BinderRoundTrip("GET", [OperandText(ORegField(src, f))], d, line);
    case Format(t, ops, d, _) =>
      OperandsRoundTrip(ops);
      assert ([t] + OperandTexts(ops))[1..] == OperandTexts(ops);
      BinderRoundTrip("FORMAT", [t] + OperandTexts(ops), d, line);
    case Filter(src, p, d) =>
      RegRoundTrip(src);
      CondRoundTrip(p, true);
      PredWordsLength(p.clauses, p.ops);
      var words := [RegText(src)] + PredWords(p.clauses, p.ops);
      assert words[1..] == PredWords(p.clauses, p.ops);
      BinderRoundTrip("FILTER", words, d, line);
    case MapF(src, f, d) =>
      RegRoundTrip(src);
      BinderRoundTrip("MAP", [RegText(src), f], d, line);
    case Count(src, d) =>
      RegRoundTrip(src);
      BinderRoundTrip("COUNT", [RegText(src)], d, line);
    case Most(src, f, cands, d, least) =>
      RegRoundTrip(src);
      if cands.Some? { RegRoundTrip(cands.value); }
      var rest := [RegText(src), f] + (if cands.Some? then [RegText(cands.value)] else []);
      BinderRoundTrip(if least then "LEAST" else "MOST", rest, d, line);
    case Sort(src, f, desc, d) =>
      RegRoundTrip(src);
      BinderRoundTrip("SORT", [RegText(src), f, if desc then "DESC" else "ASC"], d, line);
    case Select(src, idx, d) =>
      RegRoundTrip(src);
      OperandRoundTrip(idx);
      BinderRoundTrip("SELECT", [RegText(src), OperandText(idx)], d, line);
    case First(src, d) =>
      RegRoundTrip(src);
      BinderRoundTrip("FIRST", [RegText(src)], d, line);
  }

  lemma CallHead(rest: seq<string>, line: nat)
    ensures ParseInstr(["CALL"] + rest, line) == ParseCall(rest, line)
  {
    hide ParseCall;
    hide ArrowDst;
    assert (["CALL"] + rest)[1..] == rest;
  }

  lemma CallWordsNoArrow(c: CallI)
    requires IsTool(c.tool) && OperandsOk(c.args)
    ensures "->" !in [c.tool] + OperandTexts(c.args)
  {
    hide IsTool;
    hide OperandText;
    hide OperandOk;
    ToolNotArrow(c.tool);
    forall i | 0 <= i < |c.args|
      ensures OperandTexts(c.args)[i] != "->"
    {
      OperandNotWord(c.args[i]);
    }
  }

  lemma CallRoundTrip(c: CallI, line: nat)
    requires InstrOk(DoCall(c), line)
    ensures ParseInstr(InstrWords(DoCall(c)), line) == Some(Plain(DoCall(c)))
  {
    hide ParseInstr;
    hide ArrowDst;
    hide ParseOperands;
    hide IsTool;
    hide OperandTexts;
    hide OperandsOk;
    var words := [c.tool] + OperandTexts(c.args);
    OperandsRoundTrip(c.args);
    CallWordsNoArrow(c);
    assert words[1..] == OperandTexts(c.args);
    var rest := if c.dst.Some? then Arrowed(words, c.dst.value) else words;
    CallHead(rest, line);
    if c.dst.Some? {
      ArrowRoundTrip(words, c.dst.value);
      assert rest[|words|] == "->";
    }
  }

  lemma ToolNotArrow(tool: string)
    requires IsTool(tool)
    ensures tool != "->"
  {
  }

  lemma TryRoundTrip(retry: nat, d: nat, line: nat)
    requires d < NUM_REGISTERS
    ensures ParseInstr(HeadWords(TryHead(retry, d)), line) == Some(TryHead(retry, d))
  {
    hide ArrowDst;
    hide RegText;
    hide Show;
    hide Read;
    ReadShow(retry);
    ArrowRoundTrip([], d);
    var rest := HeadWords(TryHead(retry, d))[1..];
    if retry == 0 {
      assert rest == Arrowed([], d);
      assert rest[0] == "->";
    } else {
      assert rest == ["RETRY", Show(retry)] + Arrowed([], d);
      assert rest[2..] == Arrowed([], d);
    }
  }

  lemma IfRoundTrip(p: Pred, line: nat)
    requires PredOk(p, false)
    ensures ParseInstr(HeadWords(IfHead(p)), line) == Some(IfHead(p))
  {
    hide PredWords;
    hide Cond;
    CondRoundTrip(p, false);
    WordsExist(p.clauses, p.ops);
    assert HeadWords(IfHead(p))[1..] == PredWords(p.clauses, p.ops);
  }

  /** A printed head parses back to itself. */
  lemma HeadRoundTrip(h: Head, line: nat)
    requires HeadOk(h, line)
    ensures ParseInstr(HeadWords(h), line) == Some(h)
  {
    match h
    case ForeachHead(src, v) =>
      RegRoundTrip(src);
      BinderRoundTrip("FOREACH", [RegText(src)], v, line);
      hide ParseInstr;
    case IfHead(p) => IfRoundTrip(p, line);
    case ElseHead =>
    case ParallelHead =>
    case TryHead(retry, d) => TryRoundTrip(retry, d, line);
    case Plain(i) => PlainRoundTrip(i, line);
  }

  lemma PlainRoundTrip(i: Instr, line: nat)
    requires Flat(i) && InstrOk(i, line)
    ensures ParseInstr(InstrWords(i), line) == Some(Plain(i))
  {
    hide ArrowDst;
    hide ParseBinding;
    match i
    case DoCall(c) => CallRoundTrip(c, line);
    case Return(op) => OperandRoundTrip(op);
    case Stop =>
    case Pause =>
    case Abort(reason, refs) => AbortRoundTrip(reason, refs, line);
    case _ => BindingRoundTrip(i, line);
  }

  lemma AbortRoundTrip(reason: string, refs: seq<string>, line: nat)
    requires InstrOk(Abort(reason, refs), line)
    ensures ParseInstr(InstrWords(Abort(reason, refs)), line) == Some(Plain(Abort(reason, refs)))
  {
    hide IsRef;
    var rest := [reason] + refs;
    assert InstrWords(Abort(reason, refs))[1..] == rest;
    assert rest[1..] == refs;
  }

  // ---------------------------------------------------------------- parsed heads are well formed

  lemma ArrowBelow(toks: seq<string>)
    ensures var a := ArrowDst(toks); a.Some? ==> a.value.dst < NUM_REGISTERS
  {
  }

  lemma ParsedBindingOk(op: string, rest: seq<string>, dst: nat, line: nat)
    requires dst < NUM_REGISTERS
    ensures var h := ParseBinding(op, rest, dst); h.Some? ==> HeadOk(h.value, line)
  {
    hide Read;
    hide AllDigits;
    hide ParseOperand;
    hide ParseOperands;
    hide ParseClauses;
    hide IsConstant;
    hide IsField;
    hide OperandOk;
    hide OperandsOk;
    hide PredOk;
    if rest != [] {
      ParsedOperandOk(rest[0]);
      ParsedRegBelow(rest[0]);
      ParsedOperandsOk(rest[1..]);
      ParsedPredOk(rest[1..], true);
      FieldOperandOk(rest[0]);
    }
    if |rest| >= 2 { ParsedOperandOk(rest[1]); }
    if |rest| >= 3 { ParsedRegBelow(rest[2]); }
    hide ParseReg;
  }

  lemma FieldOperandOk(tok: string)
    ensures var op := ParseOperand(tok);
            op.Some? && op.value.ORegField? ==> op.value.n < NUM_REGISTERS && IsField(op.value.field)
  {
    hide Read;
    ParsedOperandOk(tok);
  }

  lemma ParsedHeadOk(toks: seq<string>, line: nat)
    requires toks != []
    ensures var h := ParseInstr(toks, line); h.Some? ==> HeadOk(h.value, line)
  {
    hide Read;
    hide AllDigits;
    hide ParseOperand;
    hide ParseOperands;
    hide ParseClauses;
    hide ParseBinding;
    hide ArrowDst;
    hide IsRef;
    hide IsTool;
    hide OperandOk;
    hide OperandsOk;
    hide PredOk;
    var op, rest := toks[0], toks[1..];
    ArrowBelow(rest);
    if op in BINDERS {
      if ArrowDst(rest).Some? { ParsedBindingOk(op, ArrowDst(rest).value.rest, ArrowDst(rest).value.dst, line); }
    } else if op == "CALL" {
      var a := if "->" in rest then ArrowDst(rest) else Some(Arrow(rest, 0));
      if a.Some? && a.value.rest != [] { ParsedOperandsOk(a.value.rest[1..]); }
    } else if op == "TRY" {
      if |rest| >= 2 { ArrowBelow(rest[2..]); }
    } else if op == "IF" {
      ParsedPredOk(rest, false);
    } else if op == "RETURN" {
      if rest != [] { ParsedOperandOk(rest[0]); }
    }
  }

  // ---------------------------------------------------------------- blocks

  /** A meaningful line: number, indentation level, words. */
  datatype Line = Line(no: nat, level: nat, toks: seq<string>)

  type Lines = ls: seq<Line> | forall i | 0 <= i < |ls| :: ls[i].toks != []

  predicate OpensBlock(h: Head) {
    !h.Plain?
  }

  predicate AllCalls(child: seq<Stmt>) {
    forall i | 0 <= i < |child| :: child[i].instr.DoCall?
  }

  function CallsOf(child: seq<Stmt>): seq<CallI>
    requires AllCalls(child)
  {
    seq(|child|, i requires 0 <= i < |child| => child[i].instr.call)
  }

  /** The instruction a block head makes with its body. */
  function WithBody(h: Head, child: seq<Stmt>): Option<Instr>
    requires OpensBlock(h) && !h.ElseHead?
  {
    match h
    case ForeachHead(src, v) => Some(Foreach(src, v, child))
    case IfHead(p) => Some(If(p, child, NoElse))
    case TryHead(retry, d) => Some(Try(retry, d, child))
    case ParallelHead => if AllCalls(child) then Some(Parallel(CallsOf(child))) else None
  }

  /** ELSE folds into the IF just before it. */
  function FoldElse(body: seq<Stmt>, child: seq<Stmt>): Option<seq<Stmt>> {
    var n := |body|;
    if n > 0 && body[n - 1].instr.If? && body[n - 1].instr.els.NoElse? then
      Some(body[..n - 1] + [At(body[n - 1].line, body[n - 1].instr.(els := Else(child)))])
    else None
  }

  /** `_parse_block` from line `pos`, with `body` already built. */
  function ParseBlock(lines: Lines, pos: nat, level: nat, body: seq<Stmt>): (r: Option<(seq<Stmt>, nat)>)
    requires pos <= |lines|
    ensures r.Some? ==> pos <= r.value.1 <= |lines|
    decreases |lines| - pos
  {
    if pos == |lines| || lines[pos].level < level then Some((body, pos))
    else if lines[pos].level > level then None
    else
      match ParseInstr(lines[pos].toks, lines[pos].no)
      case None => None
      case Some(h) =>
        if !OpensBlock(h) then ParseBlock(lines, pos + 1, level, body + [At(lines[pos].no, h.i)])
        else
          match ParseBlock(lines, pos + 1, level + 1, [])
          case None => None
          case Some((child, next)) =>
            if child == [] then None
            else if h.ElseHead? then
              match FoldElse(body, child)
              case None => None
              case Some(folded) => ParseBlock(lines, next, level, folded)
            else
              match WithBody(h, child)
              case None => None
              case Some(i) => ParseBlock(lines, next, level, body + [At(lines[pos].no, i)])
  }

  /** `parse`, from the meaningful lines on. */
  function ParseLines(lines: Lines): Option<seq<Stmt>> {
    if lines == [] then None
    else
      match ParseBlock(lines, 0, 0, [])
      case None => None
      case Some((body, pos)) => if pos != |lines| then None else Some(body)
  }

  method ParseBlockLoop(lines: Lines, start: nat, level: nat) returns (r: Option<(seq<Stmt>, nat)>)
    requires start <= |lines|
    ensures r == ParseBlock(lines, start, level, [])
    decreases |lines| - start
  {
    hide ParseInstr;
    hide WithBody;
    hide FoldElse;
    var body: seq<Stmt>, pos := [], start;
    while pos < |lines|
      invariant start <= pos <= |lines|
      invariant ParseBlock(lines, start, level, []) == ParseBlock(lines, pos, level, body)
      decreases |lines| - pos
    {
      var ln := lines[pos];
      if ln.level < level {
        break;
      }
      if ln.level > level {
        return None;
      }
      var h := ParseInstr(ln.toks, ln.no);
      if h.None? {
        return None;
      }
      pos := pos + 1;
      if OpensBlock(h.value) {
        var inner := ParseBlockLoop(lines, pos, level + 1);
        if inner.None? || inner.value.0 == [] {
          return None;
        }
        var child := inner.value.0;
        pos := inner.value.1;
        if h.value.ElseHead? {
          var folded := FoldElse(body, child);
          if folded.None? {
            return None;
          }
          body := folded.value;
        } else {
          var i := WithBody(h.value, child);
          if i.None? {
            return None;
          }
          body := body + [At(ln.no, i.value)];
        }
      } else {
        body := body + [At(ln.no, h.value.i)];
      }
    }
    r := Some((body, pos));
  }

  // ---------------------------------------------------------------- flattening

  /** A line of a flattened tree. The tree does not keep the line an ELSE stood on. */
  datatype Row = Row(no: nat, level: nat, head: Head)

  function Rows(body: seq<Stmt>, level: nat): seq<Row>
    decreases body
  {
    if body == [] then [] else StmtRows(body[0], level) + Rows(body[1..], level)
  }

  function StmtRows(s: Stmt, level: nat): seq<Row>
    decreases s
  {
    match s.instr
    case Foreach(src, v, b) => [Row(s.line, level, ForeachHead(src, v))] + Rows(b, level + 1)
    case If(p, t, e) =>
      [Row(s.line, level, IfHead(p))] + Rows(t, level + 1) +
      (match e case NoElse => [] case Else(b) => [Row(0, level, ElseHead)] + Rows(b, level + 1))
    case Parallel(calls) => [Row(s.line, level, ParallelHead)] + CallRows(calls, level + 1)
    case Try(retry, d, b) => [Row(s.line, level, TryHead(retry, d))] + Rows(b, level + 1)
    case i => [Row(s.line, level, Plain(i))]
  }

  function CallRows(calls: seq<CallI>, level: nat): (rows: seq<Row>)
    ensures |rows| == |calls|
  {
    if calls == [] then [] else [Row(calls[0].line, level, Plain(DoCall(calls[0])))] + CallRows(calls[1..], level)
  }

  /** Line `i` says row `r`. */
  predicate Says(ln: Line, r: Row)
    requires ln.toks != []
  {
    && ln.level == r.level && ParseInstr(ln.toks, ln.no) == Some(r.head)
    && (r.head.ElseHead? || ln.no == r.no)
  }

  /** The lines from `pos` on say the rows. */
  predicate Spell(lines: Lines, pos: nat, rows: seq<Row>) {
    pos + |rows| <= |lines| && forall i {:trigger rows[i]} | 0 <= i < |rows| :: Says(lines[pos + i], rows[i])
  }

  lemma SpellJoin(lines: Lines, pos: nat, a: seq<Row>, b: seq<Row>)
    ensures Spell(lines, pos, a + b) <==> Spell(lines, pos, a) && Spell(lines, pos + |a|, b)
  {
    hide Says;
    var c := a + b;
    if Spell(lines, pos, c) {
      forall i | 0 <= i < |a|
        ensures Says(lines[pos + i], a[i])
      {
        assert c[i] == a[i];
      }
      forall i | 0 <= i < |b|
        ensures Says(lines[pos + |a| + i], b[i])
      {
        assert c[|a| + i] == b[i];
      }
    }
    if Spell(lines, pos, a) && Spell(lines, pos + |a|, b) {
      forall i | 0 <= i < |c|
        ensures Says(lines[pos + i], c[i])
      {
        if i < |a| { assert c[i] == a[i]; } else { assert c[i] == b[i - |a|]; }
      }
    }
  }

  // ---------------------------------------------------------------- well-formed trees

  predicate TreeOk(body: seq<Stmt>)
    decreases body
  {
    body == [] || (StmtOk(body[0]) && TreeOk(body[1..]))
  }

  predicate StmtOk(s: Stmt)
    decreases s
  {
    match s.instr
    case Foreach(src, v, b) => HeadOk(ForeachHead(src, v), s.line) && b != [] && TreeOk(b)
    case If(p, t, e) => HeadOk(IfHead(p), s.line) && t != [] && TreeOk(t) &&
        (e.Else? ==> e.body != [] && TreeOk(e.body))
    case Parallel(calls) => calls != [] && forall k | 0 <= k < |calls| :: InstrOk(DoCall(calls[k]), calls[k].line)
    case Try(retry, d, b) => HeadOk(TryHead(retry, d), s.line) && b != [] && TreeOk(b)
    case i => InstrOk(i, s.line)
  }

  lemma {:induction false} TreeSnoc(body: seq<Stmt>, s: Stmt)
    ensures TreeOk(body + [s]) <==> TreeOk(body) && StmtOk(s)
    decreases body
  {
    hide StmtOk;
    if body == [] {
      assert [] + [s] == [s] && [s][1..] == [];
    } else {
      assert (body + [s])[1..] == body[1..] + [s];
      TreeSnoc(body[1..], s);
    }
  }

  lemma {:induction false} RowsSnoc(body: seq<Stmt>, s: Stmt, level: nat)
    ensures Rows(body + [s], level) == Rows(body, level) + StmtRows(s, level)
    decreases body
  {
    hide StmtRows;
    if body == [] {
      assert [] + [s] == [s] && [s][1..] == [];
      assert Rows([s], level) == StmtRows(s, level) + Rows([], level);
    } else {
      assert (body + [s])[1..] == body[1..] + [s] && (body + [s])[0] == body[0];
      RowsSnoc(body[1..], s, level);
      assert StmtRows(body[0], level) + (Rows(body[1..], level) + StmtRows(s, level)) ==
             (StmtRows(body[0], level) + Rows(body[1..], level)) + StmtRows(s, level);
    }
  }

  // ---------------------------------------------------------------- parse, then flatten

  /** The block stops at the end of the text or at a shallower line. */
  predicate StopsAt(lines: Lines, pos: nat, level: nat)
    requires pos <= |lines|
  {
    pos == |lines| || lines[pos].level < level
  }

  lemma {:induction false} CallsRows(child: seq<Stmt>, level: nat)
    requires AllCalls(child) && TreeOk(child)
    ensures CallRows(CallsOf(child), level) == Rows(child, level)
    ensures forall k | 0 <= k < |child| :: InstrOk(DoCall(CallsOf(child)[k]), CallsOf(child)[k].line)
    decreases child
  {
    hide InstrOk;
    if child != [] {
      assert child[0].instr.call.line == child[0].line by { CallLine(child[0]); }
      CallsRows(child[1..], level);
      assert CallsOf(child)[1..] == CallsOf(child[1..]);
      forall k | 0 <= k < |child|
        ensures InstrOk(DoCall(CallsOf(child)[k]), CallsOf(child)[k].line)
      {
        if k > 0 { assert CallsOf(child[1..])[k - 1] == CallsOf(child)[k]; }
      }
    }
  }

  lemma CallLine(s: Stmt)
    requires s.instr.DoCall? && StmtOk(s)
    ensures s.instr.call.line == s.line
  {
  }

  lemma WithBodyRows(h: Head, no: nat, level: nat, child: seq<Stmt>)
    requires OpensBlock(h) && !h.ElseHead? && HeadOk(h, no) && child != [] && TreeOk(child) && WithBody(h, child).Some?
    ensures var s := At(no, WithBody(h, child).value);
            StmtOk(s) && StmtRows(s, level) == [Row(no, level, h)] + Rows(child, level + 1)
  {
    hide PredOk;
    if h.ParallelHead? { CallsRows(child, level + 1); }
  }

  lemma FoldRows(body: seq<Stmt>, child: seq<Stmt>, level: nat)
    requires TreeOk(body) && child != [] && TreeOk(child) && FoldElse(body, child).Some?
    ensures var folded := FoldElse(body, child).value;
            TreeOk(folded) && Rows(folded, level) == Rows(body, level) +
                ([Row(0, level, ElseHead)] + Rows(child, level + 1))
  {
    hide PredOk;
    var n := |body| - 1;
    var last := body[n];
    var with := At(last.line, last.instr.(els := Else(child)));
    assert body == body[..n] + [last];
    TreeSnoc(body[..n], last);
    TreeSnoc(body[..n], with);
    RowsSnoc(body[..n], last, level);
    RowsSnoc(body[..n], with, level);
    hide TreeOk;
    assert StmtRows(with, level) == StmtRows(last, level) + ([Row(0, level, ElseHead)] + Rows(child, level + 1));
    hide StmtRows;
    hide Rows;
    var r := Rows(body[..n], level);
    assert r + (StmtRows(last, level) + ([Row(0, level, ElseHead)] + Rows(child, level + 1))) ==
           (r + StmtRows(last, level)) + ([Row(0, level, ElseHead)] + Rows(child, level + 1));
  }

  /** Flattening a parsed block gives back its lines, ELSE refolded; the block ends where it must. */
  lemma {:induction false} ParsedRows(lines: Lines, from: nat, pos: nat, level: nat, body: seq<Stmt>)
    requires from <= pos <= |lines| && TreeOk(body)
    requires Spell(lines, from, Rows(body, level)) && from + |Rows(body, level)| == pos
    ensures var r := ParseBlock(lines, pos, level, body);
            r.Some? ==> var (out, end) := r.value;
              TreeOk(out) && Spell(lines, from, Rows(out, level)) && from + |Rows(out, level)| == end &&
                  StopsAt(lines, end, level)
    decreases |lines| - pos
  {
    hide ParseInstr;
    hide HeadOk;
    hide WithBody;
    hide FoldElse;
    hide Rows;
    hide StmtRows;
    hide TreeOk;
    hide StmtOk;
    hide Spell;
    if pos < |lines| && lines[pos].level == level && ParseInstr(lines[pos].toks, lines[pos].no).Some? {
      var no := lines[pos].no;
      var h := ParseInstr(lines[pos].toks, no).value;
      ParsedHeadOk(lines[pos].toks, no);
      SpellOne(lines, pos, Row(if h.ElseHead? then 0 else no, level, h));
      if !OpensBlock(h) {
        PlainStmt(h, no, level);
        NextStmt(lines, from, pos, level, body, At(no, h.i));
        ParsedRows(lines, from, pos + 1, level, body + [At(no, h.i)]);
      } else {
        EmptyRows(lines, pos + 1, level + 1);
        ParsedRows(lines, pos + 1, pos + 1, level + 1, []);
        var inner := ParseBlock(lines, pos + 1, level + 1, []);
        if inner.Some? && inner.value.0 != [] {
          var (child, next) := inner.value;
          SpellJoin(lines, pos, [Row(if h.ElseHead? then 0 else no, level, h)], Rows(child, level + 1));
          if h.ElseHead? {
            if FoldElse(body, child).Some? {
              FoldRows(body, child, level);
              SpellJoin(lines, from, Rows(body, level), [Row(0, level, h)] + Rows(child, level + 1));
              ParsedRows(lines, from, next, level, FoldElse(body, child).value);
            }
          } else if WithBody(h, child).Some? {
            WithBodyRows(h, no, level, child);
            NextStmt(lines, from, pos, level, body, At(no, WithBody(h, child).value));
            ParsedRows(lines, from, next, level, body + [At(no, WithBody(h, child).value)]);
          }
        }
      }
    }
  }

  lemma SpellOne(lines: Lines, pos: nat, r: Row)
    requires pos < |lines|
    ensures Says(lines[pos], r) ==> Spell(lines, pos, [r])
  {
    hide Says;
    assert [r][0] == r;
  }

  lemma PlainStmt(h: Head, no: nat, level: nat)
    requires h.Plain? && HeadOk(h, no)
    ensures StmtOk(At(no, h.i)) && StmtRows(At(no, h.i), level) == [Row(no, level, h)]
  {
    hide InstrOk;
  }

  lemma EmptyRows(lines: Lines, pos: nat, level: nat)
    requires pos <= |lines|
    ensures TreeOk([]) && Rows([], level) == [] && Spell(lines, pos, Rows([], level))
  {
  }

  lemma NextStmt(lines: Lines, from: nat, pos: nat, level: nat, body: seq<Stmt>, s: Stmt)
    requires TreeOk(body) && StmtOk(s) && Spell(lines, from, Rows(body, level)) && from + |Rows(body, level)| == pos
    requires Spell(lines, pos, StmtRows(s, level))
    ensures TreeOk(body + [s]) && Spell(lines, from, Rows(body + [s], level))
    ensures from + |Rows(body + [s], level)| == pos + |StmtRows(s, level)|
  {
    hide TreeOk;
    hide StmtOk;
    hide Spell;
    hide Rows;
    hide StmtRows;
    TreeSnoc(body, s);
    RowsSnoc(body, s, level);
    SpellJoin(lines, from, Rows(body, level), StmtRows(s, level));
  }

  // ---------------------------------------------------------------- flatten, then parse

  /** Lines that say a well-formed block's rows parse to that block, wherever a shallower line or the end follows. */
  lemma {:induction false} RowsParse(lines: Lines, pos: nat, level: nat, acc: seq<Stmt>, body: seq<Stmt>)
    requires TreeOk(body) && Spell(lines, pos, Rows(body, level))
    requires StopsAt(lines, pos + |Rows(body, level)|, level)
    ensures ParseBlock(lines, pos, level, acc) == Some((acc + body, pos + |Rows(body, level)|))
    decreases body, 1
  {
    hide ParseInstr;
    hide StmtRows;
    hide StmtOk;
    hide Spell;
    if body == [] {
      assert acc + body == acc;
    } else {
      var s, rest := body[0], body[1..];
      SpellJoin(lines, pos, StmtRows(s, level), Rows(rest, level));
      hide Rows;
      var next := pos + |StmtRows(s, level)|;
      AtMostLevel(lines, next, level, rest);
      StmtParse(lines, pos, level, acc, s);
      RowsParse(lines, next, level, acc + [s], rest);
      assert acc + [s] + rest == acc + body;
    }
  }

  /** What follows a statement of the block is no deeper than the block, and no ELSE. */
  predicate Clear(lines: Lines, pos: nat, level: nat)
    requires pos <= |lines|
  {
    pos == |lines| ||
    (lines[pos].level <= level &&
     (lines[pos].level == level ==> ParseInstr(lines[pos].toks, lines[pos].no) != Some(ElseHead)))
  }

  lemma AtMostLevel(lines: Lines, pos: nat, level: nat, rest: seq<Stmt>)
    requires TreeOk(rest) && Spell(lines, pos, Rows(rest, level)) && StopsAt(lines, pos + |Rows(rest, level)|, level)
    ensures Clear(lines, pos, level)
  {
    hide ParseInstr;
    hide StmtOk;
    if rest != [] {
      FirstRow(rest[0], level);
      var r := Rows(rest, level);
      assert r[0] == StmtRows(rest[0], level)[0];
      assert Says(lines[pos + 0], r[0]);
    }
  }

  lemma FirstRow(s: Stmt, level: nat)
    ensures var r := StmtRows(s, level); r != [] && r[0].level == level && !r[0].head.ElseHead?
  {
  }

  /** One statement's rows are consumed and the statement appended. */
  lemma {:induction false} StmtParse(lines: Lines, pos: nat, level: nat, acc: seq<Stmt>, s: Stmt)
    requires StmtOk(s) && Spell(lines, pos, StmtRows(s, level)) && Clear(lines, pos + |StmtRows(s, level)|, level)
    ensures ParseBlock(lines, pos, level, acc) == ParseBlock(lines, pos + |StmtRows(s, level)|, level, acc + [s])
    decreases s, 1
  {
    hide ParseInstr;
    hide HeadOk;
    hide InstrOk;
    FirstRow(s, level);
    var rows := StmtRows(s, level);
    assert Says(lines[pos + 0], rows[0]);
    hide Spell;
    match s.instr
    case Foreach(src, v, b) =>
      BodyParse(lines, pos, level, rows[0], b);
    case Try(retry, d, b) =>
      BodyParse(lines, pos, level, rows[0], b);
    case Parallel(calls) =>
      CallsBody(lines, pos, level, rows[0], calls);
    case If(p, t, e) =>
      IfParse(lines, pos, level, acc, s);
    case i =>
  }

  /** A head's rows followed by its body's rows. */
  lemma {:induction false} BodyParse(lines: Lines, pos: nat, level: nat, head: Row, b: seq<Stmt>)
    requires b != [] && TreeOk(b) && Spell(lines, pos, [head] + Rows(b, level + 1))
    requires pos + 1 + |Rows(b, level + 1)| <= |lines|
    requires Clear(lines, pos + 1 + |Rows(b, level + 1)|, level) ||
             StopsAt(lines, pos + 1 + |Rows(b, level + 1)|, level + 1)
    ensures ParseBlock(lines, pos + 1, level + 1, []) == Some((b, pos + 1 + |Rows(b, level + 1)|))
    decreases b, 2
  {
    hide ParseInstr;
    hide TreeOk;
    hide Rows;
    hide Spell;
    SpellJoin(lines, pos, [head], Rows(b, level + 1));
    RowsParse(lines, pos + 1, level + 1, [], b);
    assert [] + b == b;
  }

  function AsStmts(calls: seq<CallI>): seq<Stmt> {
    seq(|calls|, i requires 0 <= i < |calls| => At(calls[i].line, DoCall(calls[i])))
  }

  lemma {:induction false} AsStmtsRows(calls: seq<CallI>, level: nat)
    requires forall k | 0 <= k < |calls| :: InstrOk(DoCall(calls[k]), calls[k].line)
    ensures Rows(AsStmts(calls), level) == CallRows(calls, level) && TreeOk(AsStmts(calls))
    decreases calls
  {
    hide InstrOk;
    if calls != [] {
      AsStmtsRows(calls[1..], level);
      assert AsStmts(calls)[1..] == AsStmts(calls[1..]);
    }
  }

  lemma {:induction false} CallsBody(lines: Lines, pos: nat, level: nat, head: Row, calls: seq<CallI>)
    requires calls != [] && (forall k | 0 <= k < |calls| :: InstrOk(DoCall(calls[k]), calls[k].line))
    requires Spell(lines, pos, [head] + CallRows(calls, level + 1)) && Clear(lines, pos + 1 + |calls|, level)
    ensures ParseBlock(lines, pos + 1, level + 1, []) == Some((AsStmts(calls), pos + 1 + |calls|))
    ensures AllCalls(AsStmts(calls)) && CallsOf(AsStmts(calls)) == calls
  {
    hide ParseInstr;
    hide InstrOk;
    hide Spell;
    AsStmtsRows(calls, level + 1);
    hide Rows;
    hide TreeOk;
    SpellJoin(lines, pos, [head], CallRows(calls, level + 1));
    CallsParse(lines, pos + 1, level + 1, [], calls);
    assert [] + AsStmts(calls) == AsStmts(calls);
  }

  /** A run of CALL lines. */
  lemma {:induction false} CallsParse(lines: Lines, pos: nat, level: nat, acc: seq<Stmt>, calls: seq<CallI>)
    requires Spell(lines, pos, CallRows(calls, level)) && StopsAt(lines, pos + |calls|, level)
    ensures ParseBlock(lines, pos, level, acc) == Some((acc + AsStmts(calls), pos + |calls|))
    decreases calls
  {
    hide ParseInstr;
    if calls == [] {
      assert acc + AsStmts(calls) == acc;
    } else {
      var r := CallRows(calls, level);
      assert Says(lines[pos + 0], r[0]);
      SpellJoin(lines, pos, [r[0]], CallRows(calls[1..], level));
      hide Spell;
      var s := At(calls[0].line, DoCall(calls[0]));
      CallsParse(lines, pos + 1, level, acc + [s], calls[1..]);
      assert acc + [s] + AsStmts(calls[1..]) == acc + AsStmts(calls);
    }
  }

  lemma {:induction false} IfParse(lines: Lines, pos: nat, level: nat, acc: seq<Stmt>, s: Stmt)
    requires s.instr.If? && StmtOk(s) && Spell(lines, pos, StmtRows(s, level)) &&
             Clear(lines, pos + |StmtRows(s, level)|, level)
    requires pos < |lines| && Says(lines[pos], Row(s.line, level, IfHead(s.instr.cond)))
    ensures ParseBlock(lines, pos, level, acc) == ParseBlock(lines, pos + |StmtRows(s, level)|, level, acc + [s])
    decreases s, 0
  {
    hide ParseInstr;
    hide HeadOk;
    var p, t, e := s.instr.cond, s.instr.thn, s.instr.els;
    var head := [Row(s.line, level, IfHead(p))] + Rows(t, level + 1);
    var mid := pos + 1 + |Rows(t, level + 1)|;
    var plain := At(s.line, If(p, t, NoElse));
    match e
    case NoElse =>
      assert StmtRows(s, level) == head + [];
      assert head + [] == head;
      BodyParse(lines, pos, level, Row(s.line, level, IfHead(p)), t);
    case Else(b) =>
      var tail := [Row(0, level, ElseHead)] + Rows(b, level + 1);
      assert StmtRows(s, level) == head + tail;
      SpellJoin(lines, pos, head, tail);
      assert tail[0] == Row(0, level, ElseHead);
      assert Says(lines[mid + 0], tail[0]);
      hide Spell;
      BodyParse(lines, pos, level, Row(s.line, level, IfHead(p)), t);
      BodyParse(lines, mid, level, Row(0, level, ElseHead), b);
      hide Rows;
      assert ParseBlock(lines, pos, level, acc) == ParseBlock(lines, mid, level, acc + [plain]);
      assert (acc + [plain])[..|acc|] == acc;
      assert FoldElse(acc + [plain], b) == Some(acc + [s]);
  }

  // ---------------------------------------------------------------- whole programs

  lemma ParsedExact(lines: Lines, body: seq<Stmt>)
    requires ParseLines(lines) == Some(body)
    ensures body != [] && TreeOk(body) && |lines| == |Rows(body, 0)| && Spell(lines, 0, Rows(body, 0))
  {
    hide ParseBlock;
    hide Rows;
    hide TreeOk;
    hide Spell;
    EmptyRows(lines, 0, 0);
    ParsedRows(lines, 0, 0, 0, []);
  }

  lemma SpelledExact(lines: Lines, body: seq<Stmt>)
    requires body != [] && TreeOk(body) && |lines| == |Rows(body, 0)| && Spell(lines, 0, Rows(body, 0))
    ensures ParseLines(lines) == Some(body)
  {
    hide ParseBlock;
    hide Rows;
    hide TreeOk;
    hide Spell;
    RowsParse(lines, 0, 0, [], body);
    assert [] + body == body;
    SomeRows(body);
  }

  /** A program parses to `body` exactly when its lines say the rows of the well-formed, non-empty tree `body`. */
  lemma ParseExact(lines: Lines, body: seq<Stmt>)
    ensures ParseLines(lines) == Some(body) <==>
            body != [] && TreeOk(body) && |lines| == |Rows(body, 0)| && Spell(lines, 0, Rows(body, 0))
  {
    hide *;
    if ParseLines(lines) == Some(body) { ParsedExact(lines, body); }
    if body != [] && TreeOk(body) && |lines| == |Rows(body, 0)| && Spell(lines, 0, Rows(body, 0)) {
      SpelledExact(lines, body);
    }
  }

  lemma SomeRows(body: seq<Stmt>)
    requires body != []
    ensures Rows(body, 0) != []
  {
    FirstRow(body[0], 0);
  }

  // ---------------------------------------------------------------- printing a tree

  predicate RowOk(r: Row) {
    HeadOk(r.head, r.no)
  }

  predicate RowsOk(rows: seq<Row>) {
    forall i | 0 <= i < |rows| :: RowOk(rows[i])
  }

  lemma {:induction false} TreeRowsOk(body: seq<Stmt>, level: nat)
    requires TreeOk(body)
    ensures RowsOk(Rows(body, level))
    decreases body
  {
    hide RowOk;
    if body != [] {
      StmtRowsOk(body[0], level);
      TreeRowsOk(body[1..], level);
    }
  }

  lemma {:induction false} StmtRowsOk(s: Stmt, level: nat)
    requires StmtOk(s)
    ensures RowsOk(StmtRows(s, level))
    decreases s
  {
    hide InstrOk;
    hide PredOk;
    match s.instr
    case Foreach(_, _, b) => TreeRowsOk(b, level + 1);
    case If(_, t, e) =>
      TreeRowsOk(t, level + 1);
      if e.Else? { TreeRowsOk(e.body, level + 1); }
    case Parallel(calls) => CallRowsOk(calls, level + 1);
    case Try(_, _, b) => TreeRowsOk(b, level + 1);
    case _ =>
  }

  lemma {:induction false} CallRowsOk(calls: seq<CallI>, level: nat)
    requires forall k | 0 <= k < |calls| :: InstrOk(DoCall(calls[k]), calls[k].line)
    ensures RowsOk(CallRows(calls, level))
    decreases calls
  {
    hide InstrOk;
    if calls != [] { CallRowsOk(calls[1..], level); }
  }

  /** The tree as lines, in canonical spelling. */
  function Printed(rows: seq<Row>): Lines
    requires RowsOk(rows)
  {
    seq(|rows|, i requires 0 <= i < |rows| =>
      assert RowOk(rows[i]);
      Line(rows[i].no, rows[i].level, HeadWords(rows[i].head)))
  }

  lemma PrintedSpells(rows: seq<Row>)
    requires RowsOk(rows)
    ensures Spell(Printed(rows), 0, rows)
  {
    hide ParseInstr;
    hide HeadWords;
    forall i | 0 <= i < |rows|
      ensures Says(Printed(rows)[0 + i], rows[i])
    {
      assert RowOk(rows[i]);
      HeadRoundTrip(rows[i].head, rows[i].no);
    }
  }

  /** Printing a well-formed tree to lines and parsing them gives the tree back. */
  lemma PrintThenParse(body: seq<Stmt>)
    requires body != [] && TreeOk(body)
    ensures RowsOk(Rows(body, 0)) && ParseLines(Printed(Rows(body, 0))) == Some(body)
  {
    hide RowOk;
    hide TreeOk;
    hide Rows;
    hide Spell;
    TreeRowsOk(body, 0);
    PrintedSpells(Rows(body, 0));
    SpelledExact(Printed(Rows(body, 0)), body);
  }
}
