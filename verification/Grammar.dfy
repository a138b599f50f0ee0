/** The grammar of a line. */
module Grammar {
  import opened Common
  import opened Decimal
  import opened Ir
  import opened Tokens
  import opened Parser

  // ---------------------------------------------------------------- numerals and symbols

  function Zeros(k: nat): string {
    seq(k, i => '0')
  }

  /** A numeral, leading zeros allowed. */
  ghost predicate NumeralOf(tok: string, v: nat) {
    exists k: nat :: tok == Zeros(k) + Show(v)
  }

  /** A register is `r` and a numeral of one digit or two. */
  ghost predicate RegisterOf(tok: string, n: nat) {
    n < 16 && 2 <= |tok| <= 3 && tok[0] == 'r' && NumeralOf(tok[1..], n)
  }

  predicate SymbolOf(kinds: set<char>, tok: string) {
    |tok| > 1 && tok[0] in kinds && forall i | 1 <= i < |tok| :: '0' <= tok[i] <= '9'
  }

  const FIELDS: set<char> := {'F'}
  const CONSTANTS: set<char> := {'C', 'S', 'N', 'B', 'D', 'I'}
  const TOOLS: set<char> := {'T'}

  lemma {:induction false} ReadZeros(k: nat, v: nat)
    ensures AllDigits(Zeros(k) + Show(v)) && Read(Zeros(k) + Show(v)) == v
    decreases v, k
  {
    var s := Zeros(k) + Show(v);
    if v < 10 {
      assert Show(v) == [DigitChar(v)];
      assert s[..|s| - 1] == Zeros(k);
      ReadAllZeros(k);
    } else {
      ReadZeros(k, v / 10);
      assert s[..|s| - 1] == Zeros(k) + Show(v / 10);
    }
  }

  lemma {:induction false} ReadAllZeros(k: nat)
    ensures Read(Zeros(k)) == 0
  {
    if k > 0 {
      assert Zeros(k)[..k - 1] == Zeros(k - 1);
      ReadAllZeros(k - 1);
    }
  }

  lemma {:induction false} NumeralSplit(tok: string) returns (k: nat)
    requires tok != "" && AllDigits(tok)
    ensures tok == Zeros(k) + Show(Read(tok))
    decreases tok
  {
    if tok[0] == '0' && |tok| > 1 {
      k := NumeralSplit(tok[1..]);
      k := k + 1;
      ReadDropsZero(tok);
      assert tok == "0" + tok[1..];
      assert Zeros(k) == "0" + Zeros(k - 1);
    } else {
      k := 0;
      ShowRead(tok);
      assert Zeros(0) + Show(Read(tok)) == Show(Read(tok));
    }
  }

  lemma {:induction false} ReadDropsZero(tok: string)
    requires tok != "" && AllDigits(tok) && tok[0] == '0'
    ensures Read(tok[1..]) == Read(tok)
    decreases tok
  {
    if |tok| > 1 {
      var m := |tok| - 1;
      ReadDropsZero(tok[..m]);
      assert tok[..m][1..] == tok[1..][..m - 1];
    }
  }

  lemma NumeralExactly(tok: string, v: nat)
    ensures tok != "" && AllDigits(tok) && Read(tok) == v <==> NumeralOf(tok, v)
  {
    if tok != "" && AllDigits(tok) { var k := NumeralSplit(tok); }
    forall k: nat | tok == Zeros(k) + Show(v)
      ensures tok != "" && AllDigits(tok) && Read(tok) == v
    {
      ReadZeros(k, v);
    }
  }

  lemma RegisterExactly(tok: string, n: nat)
    ensures ParseReg(tok) == Some(n) <==> RegisterOf(tok, n)
  {
    hide Read;
    hide NumeralOf;
    if tok != "" { NumeralExactly(tok[1..], n); }
  }

  lemma SymbolsExactly(tok: string)
    ensures IsField(tok) <==> SymbolOf(FIELDS, tok)
    ensures IsConstant(tok) <==> SymbolOf(CONSTANTS, tok)
    ensures IsTool(tok) <==> SymbolOf(TOOLS, tok)
    ensures IsRef(tok) <==> SymbolOf(TOOLS + FIELDS + CONSTANTS, tok)
  {
    assert forall c :: c in "F" <==> c in ['F'];
    assert forall c :: c in "T" <==> c in ['T'];
    assert forall c :: c in "CSNBDI" <==> c in ['C', 'S', 'N', 'B', 'D', 'I'];
    assert forall c :: c in "TFCSNBDI" <==> c in ['T', 'F', 'C', 'S', 'N', 'B', 'D', 'I'];
    if |tok| > 1 {
      assert forall i | 1 <= i < |tok| :: tok[i] == tok[1..][i - 1];
      assert forall i | 0 <= i < |tok[1..]| :: tok[1..][i] == tok[i + 1];
    }
  }

  // ---------------------------------------------------------------- operands

  ghost predicate OperandOf(tok: string, op: Operand) {
    match op
    case OReg(n) => RegisterOf(tok, n)
    case ORegField(n, f) => SymbolOf(FIELDS, f) && exists r :: RegisterOf(r, n) && tok == r + "." + f
    case OConst(sym) => tok == sym && SymbolOf(CONSTANTS, sym)
    case ONow => tok == "NOW"
    case ONull => tok == "NULL"
    case OInt(v) => NumeralOf(tok, v)
  }

  lemma RegisterShape(tok: string, n: nat)
    requires RegisterOf(tok, n)
    ensures |tok| > 1 && tok[0] == 'r' && forall i | 1 <= i < |tok| :: '0' <= tok[i] <= '9'
  {
    NumeralExactly(tok[1..], n);
    assert forall i | 1 <= i < |tok| :: tok[i] == tok[1..][i - 1];
  }

  lemma FieldRead(tok: string, n: nat, f: string)
    requires ParseOperand(tok) == Some(ORegField(n, f))
    ensures OperandOf(tok, ORegField(n, f))
  {
    hide Read;
    hide ParseReg;
    hide RegisterOf;
    hide Show;
    var d := Dot(tok);
    SymbolsExactly(f);
    RegisterExactly(tok[..d], n);
    assert tok == tok[..d] + "." + tok[d + 1..];
  }

  lemma FieldWritten(tok: string, r: string, n: nat, f: string)
    requires RegisterOf(r, n) && SymbolOf(FIELDS, f) && tok == r + "." + f
    ensures ParseOperand(tok) == Some(ORegField(n, f))
  {
    hide Read;
    hide Show;
    hide ParseReg;
    RegisterShape(r, n);
    hide RegisterOf;
    SymbolsExactly(f);
    DotAt(r, f);
    RegisterExactly(r, n);
    assert tok[..|r|] == r && tok[|r| + 1..] == f;
  }

  lemma FieldReadExactly(tok: string, n: nat, f: string)
    ensures ParseOperand(tok) == Some(ORegField(n, f)) <==> OperandOf(tok, ORegField(n, f))
  {
    hide ParseOperand;
    hide RegisterOf;
    if ParseOperand(tok) == Some(ORegField(n, f)) { FieldRead(tok, n, f); }
    forall r | RegisterOf(r, n) && SymbolOf(FIELDS, f) && tok == r + "." + f
      ensures ParseOperand(tok) == Some(ORegField(n, f))
    {
      FieldWritten(tok, r, n, f);
    }
  }

  /** Words of one character set have no dot, so they are read as a whole. */
  lemma WholeExactly(tok: string, op: Operand)
    requires !op.ORegField?
    ensures ParseOperand(tok) == Some(op) <==> OperandOf(tok, op)
  {
    hide Read;
    hide ParseReg;
    hide RegisterOf;
    hide Show;
    hide NumeralOf;
    SymbolsExactly(tok);
    forall m: nat
      ensures ParseReg(tok) == Some(m) <==> RegisterOf(tok, m)
    {
      RegisterExactly(tok, m);
    }
    forall v: nat
      ensures (tok != "" && AllDigits(tok) && Read(tok) == v) <==> NumeralOf(tok, v)
    {
      NumeralExactly(tok, v);
    }
    if ParseReg(tok).Some? {
      RegisterShape(tok, ParseReg(tok).value);
      NoDot(tok);
    } else if IsConstant(tok) || AllDigits(tok) || tok == "NOW" || tok == "NULL" {
      NoDot(tok);
    }
  }

  /** The operand parser reads exactly the operands written so. */
  lemma OperandExactly(tok: string, op: Operand)
    ensures ParseOperand(tok) == Some(op) <==> OperandOf(tok, op)
  {
    hide ParseOperand;
    hide OperandOf;
    if op.ORegField? { FieldReadExactly(tok, op.n, op.field); } else { WholeExactly(tok, op); }
  }

  ghost predicate OperandsOf(words: seq<string>, ops: seq<Operand>) {
    |words| == |ops| && forall i | 0 <= i < |ops| :: OperandOf(words[i], ops[i])
  }

  lemma {:induction false} OperandsExactly(words: seq<string>, ops: seq<Operand>)
    ensures ParseOperands(words) == Some(ops) <==> OperandsOf(words, ops)
    decreases words
  {
    hide ParseOperand;
    hide OperandOf;
    if words != [] {
      if ops != [] {
        OperandExactly(words[0], ops[0]);
        OperandsExactly(words[1..], ops[1..]);
        assert ops == [ops[0]] + ops[1..];
        if OperandsOf(words, ops) {
          assert forall i | 0 <= i < |ops[1..]| :: OperandOf(words[1..][i], ops[1..][i]);
        }
        if ParseOperands(words) == Some(ops) {
          assert ParseOperands(words[1..]) == Some(ops[1..]);
          forall i | 0 <= i < |ops|
            ensures OperandOf(words[i], ops[i])
          {
            if i > 0 { assert words[i] == words[1..][i - 1] && ops[i] == ops[1..][i - 1]; }
          }
        }
      }
    }
  }

  // ---------------------------------------------------------------- predicates

  predicate CmpOf(tok: string, c: Cmp) {
    match c
    case EQ => tok == "EQ"
    case LT => tok == "LT"
    case GT => tok == "GT"
    case CONTAINS => tok == "CONTAINS"
    case IN => tok == "IN"
    case EMPTY => false
  }

  predicate ConnectiveOf(tok: string, c: Connective) {
    match c
    case AND => tok == "AND"
    case OR => tok == "OR"
  }

  ghost predicate LeftOf(tok: string, l: Left, fieldLeft: bool) {
    match l
    case LField(f) => fieldLeft && tok == f && SymbolOf(FIELDS, f)
    case LOp(op) => !fieldLeft && OperandOf(tok, op)
  }

  ghost predicate RightOf(tok: string, r: Right, fieldLeft: bool) {
    match r
    case RElem(f) => fieldLeft && tok == f && SymbolOf(FIELDS, f)
    case ROp(op) => OperandOf(tok, op)
    case RNone => false
  }

  /** A clause without its NOT. */
  ghost predicate TestOf(words: seq<string>, c: Clause, fieldLeft: bool) {
    if c.cmp.EMPTY? then
      && !fieldLeft && |words| == 2 && words[0] == "EMPTY"
      && c.left.LOp? && c.left.op.OReg? && RegisterOf(words[1], c.left.op.n) && c.right.RNone?
    else
      && |words| == 3 && LeftOf(words[0], c.left, fieldLeft) && CmpOf(words[1], c.cmp)
      && RightOf(words[2], c.right, fieldLeft)
  }

  ghost predicate ClauseOf(words: seq<string>, c: Clause, fieldLeft: bool) {
    if c.neg then words != [] && words[0] == "NOT" && TestOf(words[1..], c, fieldLeft) else TestOf(words, c, fieldLeft)
  }

  /** Clauses with a connective between any two. */
  ghost predicate PredOf(words: seq<string>, clauses: seq<Clause>, ops: seq<Connective>, fieldLeft: bool)
    decreases ops
  {
    && |clauses| == |ops| + 1
    && if ops == [] then ClauseOf(words, clauses[0], fieldLeft)
       else exists k: nat | k < |words| ::
         ClauseOf(words[..k], clauses[0], fieldLeft) && ConnectiveOf(words[k], ops[0]) &&
         PredOf(words[k + 1..], clauses[1..], ops[1..], fieldLeft)
  }

  /** No operand and no field is written like a word of the predicate syntax or like the arrow. */
  lemma OperandIsNoWord(tok: string, op: Operand)
    requires OperandOf(tok, op)
    ensures tok != "NOT" && tok != "EMPTY" && tok != "->" && !SymbolOf(FIELDS, tok) && !SymbolOf(TOOLS, tok)
  {
    hide Show;
    match op
    case OReg(n) => RegisterShape(tok, n);
    case ORegField(n, f) =>
      var r :| RegisterOf(r, n) && tok == r + "." + f;
      RegisterShape(r, n);
      assert tok[0] == r[0];
    case OInt(v) =>
      NumeralExactly(tok, v);
      assert IsDigit(tok[0]);
    case OConst(sym) => assert '0' <= tok[1] <= '9';
    case _ =>
  }

  lemma LeftExactly(tok: string, l: Left, fieldLeft: bool)
    ensures ParseLeft(tok, fieldLeft) == Some(l) <==> LeftOf(tok, l, fieldLeft)
  {
    hide ParseOperand;
    hide OperandOf;
    hide SymbolOf;
    SymbolsExactly(tok);
    if l.LOp? { OperandExactly(tok, l.op); }
  }

  lemma RightExactly(tok: string, r: Right, fieldLeft: bool)
    ensures ParseRight(tok, fieldLeft) == Some(r) <==> RightOf(tok, r, fieldLeft)
  {
    hide ParseOperand;
    hide OperandOf;
    hide SymbolOf;
    hide IsField;
    SymbolsExactly(tok);
    if r.ROp? {
      OperandExactly(tok, r.op);
      if OperandOf(tok, r.op) { OperandIsNoWord(tok, r.op); }
    }
  }

  lemma CmpExactly(tok: string, c: Cmp)
    ensures ParseCmp(tok) == Some(c) <==> CmpOf(tok, c)
  {
  }

  /** The clause parser behind an optional NOT. */
  function ParseTest(ts: seq<string>, fieldLeft: bool, neg: bool): Option<Cut<Clause>> {
    if ts == [] then None
    else if !fieldLeft && ts[0] == "EMPTY" then
      if |ts| < 2 || ParseReg(ts[1]).None? then None
      else Some(Cut(Clause(neg, LOp(OReg(ParseReg(ts[1]).value)), EMPTY, RNone), ts[2..]))
    else if |ts| < 3 || ParseLeft(ts[0], fieldLeft).None? || ParseCmp(ts[1]).None? ||
        ParseRight(ts[2], fieldLeft).None? then None
    else Some(Cut(Clause(neg, ParseLeft(ts[0], fieldLeft).value, ParseCmp(ts[1]).value,
                         ParseRight(ts[2], fieldLeft).value), ts[3..]))
  }

  lemma SameSuffix(ts: seq<string>, i: nat, j: nat)
    requires i <= |ts| && j <= |ts|
    ensures ts[i..] == ts[j..] <==> i == j
  {
    assert |ts[i..]| == |ts| - i && |ts[j..]| == |ts| - j;
  }

  lemma EmptyExactly(ts: seq<string>, c: Clause, j: nat)
    requires j <= |ts| && ts != [] && ts[0] == "EMPTY"
    ensures ParseTest(ts, false, c.neg) == Some(Cut(c, ts[j..])) <==> TestOf(ts[..j], c, false)
  {
    hide ParseReg;
    hide RegisterOf;
    hide RightOf;
    hide CmpOf;
    hide OperandOf;
    var words := ts[..j];
    if |ts| >= 2 && c.left.LOp? && c.left.op.OReg? { RegisterExactly(ts[1], c.left.op.n); }
    if c.cmp.EMPTY? {
      if |ts| >= 2 { SameSuffix(ts, 2, j); }
      if j == 2 { assert words[0] == ts[0] && words[1] == ts[1]; }
    } else if TestOf(words, c, false) {
      assert words[0] == ts[0];
      OperandIsNoWord(ts[0], c.left.op);
    }
  }

  lemma CompareExactly(ts: seq<string>, fieldLeft: bool, c: Clause, j: nat)
    requires j <= |ts| && (ts == [] || fieldLeft || ts[0] != "EMPTY")
    ensures ParseTest(ts, fieldLeft, c.neg) == Some(Cut(c, ts[j..])) <==> TestOf(ts[..j], c, fieldLeft)
  {
    hide ParseLeft;
    hide ParseRight;
    hide ParseCmp;
    hide LeftOf;
    hide RightOf;
    hide RegisterOf;
    if |ts| >= 3 {
      SameSuffix(ts, 3, j);
      LeftExactly(ts[0], c.left, fieldLeft);
      CmpExactly(ts[1], c.cmp);
      RightExactly(ts[2], c.right, fieldLeft);
      if j == 3 { assert ts[..3][0] == ts[0] && ts[..3][1] == ts[1] && ts[..3][2] == ts[2]; }
    }
  }

  lemma TestExactly(ts: seq<string>, fieldLeft: bool, c: Clause, j: nat)
    requires j <= |ts|
    ensures ParseTest(ts, fieldLeft, c.neg) == Some(Cut(c, ts[j..])) <==> TestOf(ts[..j], c, fieldLeft)
  {
    hide ParseTest;
    hide TestOf;
    if ts != [] && !fieldLeft && ts[0] == "EMPTY" { EmptyExactly(ts, c, j); } else {
      CompareExactly(ts, fieldLeft, c, j);
    }
  }

  lemma TestIsNoNot(words: seq<string>, c: Clause, fieldLeft: bool)
    requires TestOf(words, c, fieldLeft)
    ensures words != [] && words[0] != "NOT"
  {
    hide OperandOf;
    if !c.cmp.EMPTY? && c.left.LOp? { OperandIsNoWord(words[0], c.left.op); }
  }

  /** The clause parser takes exactly the words of a clause and leaves the rest. */
  lemma ClauseExactly(toks: seq<string>, fieldLeft: bool, c: Clause, k: nat)
    requires k <= |toks|
    ensures ParseClause(toks, fieldLeft) == Some(Cut(c, toks[k..])) <==> ClauseOf(toks[..k], c, fieldLeft)
  {
    hide ParseLeft;
    hide ParseRight;
    hide ParseCmp;
    hide ParseReg;
    hide TestOf;
    hide ClauseComplete;
    var neg := toks != [] && toks[0] == "NOT";
    var ts := if neg then toks[1..] else toks;
    assert ParseClause(toks, fieldLeft) == ParseTest(ts, fieldLeft, neg);
    hide ParseClause;
    hide ParseTest;
    if c.neg != neg {
      NegKept(ts, fieldLeft, neg);
      if !c.neg && ClauseOf(toks[..k], c, fieldLeft) { TestIsNoNot(toks[..k], c, fieldLeft); }
    } else if !neg {
      TestExactly(toks, fieldLeft, c, k);
    } else if k == 0 {
      RestShorter(ts, fieldLeft, neg);
    } else {
      TestExactly(ts, fieldLeft, c, k - 1);
      assert ts[k - 1..] == toks[k..];
      assert ts[..k - 1] == toks[..k][1..];
    }
  }

  lemma NegKept(ts: seq<string>, fieldLeft: bool, neg: bool)
    ensures var p := ParseTest(ts, fieldLeft, neg); p.Some? ==> p.value.value.neg == neg
  {
  }

  lemma RestShorter(ts: seq<string>, fieldLeft: bool, neg: bool)
    ensures var p := ParseTest(ts, fieldLeft, neg); p.Some? ==> |p.value.rest| < |ts|
  {
  }

  /** Where the clause the parser takes ends. */
  lemma ClauseEnds(toks: seq<string>, fieldLeft: bool) returns (k: nat)
    requires ParseClause(toks, fieldLeft).Some?
    ensures k <= |toks| && ParseClause(toks, fieldLeft).value.rest == toks[k..]
  {
    hide ParseLeft;
    hide ParseRight;
    hide ParseCmp;
    hide ParseReg;
    var rest := ParseClause(toks, fieldLeft).value.rest;
    k := |toks| - |rest|;
  }

  lemma ConnectiveExactly(tok: string, c: Connective)
    ensures ParseConnective(tok) == Some(c) <==> ConnectiveOf(tok, c)
  {
  }

  lemma {:induction false} PredRead(toks: seq<string>, p: FlatPred, fieldLeft: bool)
    requires ParseClauses(toks, fieldLeft) == Some(p)
    ensures PredOf(toks, p.clauses, p.ops, fieldLeft)
    decreases |toks|
  {
    hide ParseClause;
    hide ClauseOf;
    hide ParseConnective;
    hide ConnectiveOf;
    ParsedClause(toks, fieldLeft);
    var k := ClauseEnds(toks, fieldLeft);
    var c, rest := ParseClause(toks, fieldLeft).value.value, toks[k..];
    ClauseExactly(toks, fieldLeft, c, k);
    if rest == [] {
      assert toks[..k] == toks;
    } else {
      ConnectiveExactly(rest[0], p.ops[0]);
      var q := ParseClauses(rest[1..], fieldLeft).value;
      PredRead(rest[1..], q, fieldLeft);
      assert rest[1..] == toks[k + 1..] && rest[0] == toks[k];
      assert p.clauses[1..] == q.clauses && p.ops[1..] == q.ops;
    }
  }

  lemma PredJoin(toks: seq<string>, k: nat, clauses: seq<Clause>, ops: seq<Connective>, fieldLeft: bool)
    requires k < |toks| && |clauses| == |ops| + 1 && ops != []
    requires ClauseOf(toks[..k], clauses[0], fieldLeft) && ConnectiveOf(toks[k], ops[0])
    requires ParseClauses(toks[k + 1..], fieldLeft) == Some(FlatPred(clauses[1..], ops[1..]))
    ensures ParseClauses(toks, fieldLeft) == Some(FlatPred(clauses, ops))
  {
    hide ParseClause;
    hide ClauseOf;
    hide ParseConnective;
    hide ConnectiveOf;
    ParsedClause(toks, fieldLeft);
    ClauseExactly(toks, fieldLeft, clauses[0], k);
    ConnectiveExactly(toks[k], ops[0]);
    assert toks[k..][1..] == toks[k + 1..];
    assert clauses == [clauses[0]] + clauses[1..] && ops == [ops[0]] + ops[1..];
  }

  lemma {:induction false} PredWritten(toks: seq<string>, clauses: seq<Clause>, ops: seq<Connective>, fieldLeft: bool)
    requires PredOf(toks, clauses, ops, fieldLeft)
    ensures ParseClauses(toks, fieldLeft) == Some(FlatPred(clauses, ops))
    decreases ops
  {
    hide ParseClause;
    hide ClauseOf;
    hide ConnectiveOf;
    if ops == [] {
      ParsedClause(toks, fieldLeft);
      assert toks[..|toks|] == toks;
      ClauseExactly(toks, fieldLeft, clauses[0], |toks|);
      assert clauses == [clauses[0]];
    } else {
      hide ParseClauses;
      var k: nat :| k < |toks| && ClauseOf(toks[..k], clauses[0], fieldLeft) && ConnectiveOf(toks[k], ops[0]) &&
        PredOf(toks[k + 1..], clauses[1..], ops[1..], fieldLeft);
      PredWritten(toks[k + 1..], clauses[1..], ops[1..], fieldLeft);
      PredJoin(toks, k, clauses, ops, fieldLeft);
    }
  }

  /** The predicate parser reads exactly the predicates written so, in FILTER and in IF mode. */
  lemma PredExactly(toks: seq<string>, p: FlatPred, fieldLeft: bool)
    ensures ParseClauses(toks, fieldLeft) == Some(p) <==> PredOf(toks, p.clauses, p.ops, fieldLeft)
  {
    hide ParseClauses;
    hide PredOf;
    if ParseClauses(toks, fieldLeft) == Some(p) { PredRead(toks, p, fieldLeft); }
    if PredOf(toks, p.clauses, p.ops, fieldLeft) { PredWritten(toks, p.clauses, p.ops, fieldLeft); }
  }

  // ---------------------------------------------------------------- lines

  /** What stands between the instruction's word and its arrow. */
  ghost predicate RestOf(op: string, rest: seq<string>, d: nat, i: Instr) {
    match i
    case Let(o, dst) => op == "LET" && dst == d && |rest| == 1 && OperandOf(rest[0], o)
    case Get(src, f, dst) => op == "GET" && dst == d && |rest| == 1 && OperandOf(rest[0], ORegField(src, f))
    case Format(t, ops, dst, kinds) =>
      op == "FORMAT" && dst == d && rest != [] && rest[0] == t && SymbolOf(CONSTANTS, t) &&
          OperandsOf(rest[1..], ops) &&
      kinds == []
    case Filter(src, p, dst) =>
      op == "FILTER" && dst == d && rest != [] && RegisterOf(rest[0], src) && PredOf(rest[1..], p.clauses, p.ops, true)
    case MapF(src, f, dst) =>
      op == "MAP" && dst == d && |rest| == 2 && RegisterOf(rest[0], src) && rest[1] == f && SymbolOf(FIELDS, f)
    case Count(src, dst) => op == "COUNT" && dst == d && |rest| == 1 && RegisterOf(rest[0], src)
    case Most(src, f, cands, dst, least) =>
      op == (if least then "LEAST" else "MOST") && dst == d && |rest| == (if cands.Some? then 3 else 2) &&
      RegisterOf(rest[0], src) && rest[1] == f && SymbolOf(FIELDS, f) &&
          (cands.Some? ==> RegisterOf(rest[2], cands.value))
    case Sort(src, f, desc, dst) =>
      op == "SORT" && dst == d && |rest| == 3 && RegisterOf(rest[0], src) && rest[1] == f && SymbolOf(FIELDS, f) &&
      rest[2] == if desc then "DESC" else "ASC"
    case Select(src, idx, dst) =>
      op == "SELECT" && dst == d && |rest| == 2 && RegisterOf(rest[0], src) && OperandOf(rest[1], idx)
    case First(src, dst) => op == "FIRST" && dst == d && |rest| == 1 && RegisterOf(rest[0], src)
    case _ => false
  }

  /** `... -> rd`. */
  ghost predicate ArrowTo(words: seq<string>, d: nat) {
    |words| >= 3 && words[|words| - 2] == "->" && RegisterOf(words[|words| - 1], d)
  }

  function Middle(words: seq<string>): seq<string>
    requires |words| >= 3
  {
    words[1..|words| - 2]
  }

  ghost predicate BindingOf(words: seq<string>, i: Instr) {
    exists d: nat :: ArrowTo(words, d) && RestOf(words[0], Middle(words), d, i)
  }

  /** A CALL with or without an arrow. */
  ghost predicate CallOf(words: seq<string>, c: CallI) {
    && |words| > 1 && words[0] == "CALL"
    && if c.dst.Some? then ArrowTo(words, c.dst.value) && CallWords(Middle(words), c) else CallWords(words[1..], c)
  }

  ghost predicate CallWords(words: seq<string>, c: CallI) {
    words != [] && words[0] == c.tool && SymbolOf(TOOLS, c.tool) && OperandsOf(words[1..], c.args)
  }

  ghost predicate PlainOf(words: seq<string>, i: Instr, line: nat) {
    match i
    case DoCall(c) => CallOf(words, c) && c.line == line
    case Return(op) => |words| == 2 && words[0] == "RETURN" && OperandOf(words[1], op)
    case Stop => words == ["STOP"]
    case Pause => words == ["PAUSE"]
    case Abort(reason, refs) =>
      words == ["ABORT", reason] + refs && reason in {"NOT_FOUND", "AMBIGUOUS", "UNSUPPORTED", "NEEDS_INFO"} &&
      |refs| <= 2 && forall k | 0 <= k < |refs| :: SymbolOf(TOOLS + FIELDS + CONSTANTS, refs[k])
    case _ => BindingOf(words, i)
  }

  /** The words say the head. */
  ghost predicate HeadOf(words: seq<string>, h: Head, line: nat) {
    match h
    case Plain(i) => PlainOf(words, i, line)
    case ForeachHead(src, v) => ArrowTo(words, v) && |words| == 4 && words[0] == "FOREACH" && RegisterOf(words[1], src)
    case IfHead(p) => |words| > 1 && words[0] == "IF" && PredOf(words[1..], p.clauses, p.ops, false)
    case ElseHead => words == ["ELSE"]
    case ParallelHead => words == ["PARALLEL"]
    case TryHead(retry, d) =>
      && ArrowTo(words, d) && words[0] == "TRY"
      && (if |words| == 3 then retry == 0 else |words| == 5 && words[1] == "RETRY" && NumeralOf(words[2], retry))
  }

  lemma ArrowExactly(toks: seq<string>, d: nat)
    ensures var n := |toks|;
            ArrowDst(toks).Some? && ArrowDst(toks).value.dst == d <==>
            n >= 2 && toks[n - 2] == "->" && RegisterOf(toks[n - 1], d)
    ensures ArrowDst(toks).Some? ==> ArrowDst(toks).value.rest == toks[..|toks| - 2]
  {
    hide ParseReg;
    hide RegisterOf;
    if |toks| >= 2 { RegisterExactly(toks[|toks| - 1], d); }
  }

  /** The facts about the words of one binding, in one place. */
  ghost predicate WordsRead(rest: seq<string>) {
    && (forall i, n: nat {:trigger RegisterOf(rest[i], n)} | 0 <= i < |rest| ::
          ParseReg(rest[i]) == Some(n) <==> RegisterOf(rest[i], n))
    && (forall i, op {:trigger OperandOf(rest[i], op)} | 0 <= i < |rest| ::
          ParseOperand(rest[i]) == Some(op) <==> OperandOf(rest[i], op))
    && (forall i | 0 <= i < |rest| :: IsField(rest[i]) <==> SymbolOf(FIELDS, rest[i]))
    && (forall i | 0 <= i < |rest| :: IsConstant(rest[i]) <==> SymbolOf(CONSTANTS, rest[i]))
  }

  lemma ReadsWords(rest: seq<string>)
    ensures WordsRead(rest)
  {
    hide ParseReg;
    hide RegisterOf;
    hide ParseOperand;
    hide OperandOf;
    hide IsField;
    hide IsConstant;
    hide SymbolOf;
    forall i, n: nat | 0 <= i < |rest|
      ensures ParseReg(rest[i]) == Some(n) <==> RegisterOf(rest[i], n)
    {
      RegisterExactly(rest[i], n);
    }
    forall i, op | 0 <= i < |rest|
      ensures ParseOperand(rest[i]) == Some(op) <==> OperandOf(rest[i], op)
    {
      OperandExactly(rest[i], op);
    }
    forall i | 0 <= i < |rest|
      ensures IsField(rest[i]) <==> SymbolOf(FIELDS, rest[i])
      ensures IsConstant(rest[i]) <==> SymbolOf(CONSTANTS, rest[i])
    {
      SymbolsExactly(rest[i]);
    }
  }

  /** Bindings over registers, fields and operands only. */
  lemma ShortBinding(op: string, rest: seq<string>, d: nat, i: Instr)
    requires op in {"LET", "GET", "MAP", "COUNT", "SORT", "SELECT", "FIRST"} && WordsRead(rest)
    ensures ParseBinding(op, rest, d) == Some(Plain(i)) <==> RestOf(op, rest, d, i)
  {
    hide ParseReg;
    hide RegisterOf;
    hide ParseOperand;
    hide OperandOf;
    hide IsField;
    hide IsConstant;
    hide SymbolOf;
    hide ParseOperands;
    hide Cond;
  }

  lemma MostBinding(op: string, rest: seq<string>, d: nat, i: Instr)
    requires op in {"MOST", "LEAST"} && WordsRead(rest)
    ensures ParseBinding(op, rest, d) == Some(Plain(i)) <==> RestOf(op, rest, d, i)
  {
    hide ParseReg;
    hide RegisterOf;
    hide ParseOperand;
    hide OperandOf;
    hide IsField;
    hide IsConstant;
    hide SymbolOf;
    hide ParseOperands;
    hide Cond;
  }

  lemma FormatBinding(rest: seq<string>, d: nat, i: Instr)
    requires WordsRead(rest)
    ensures ParseBinding("FORMAT", rest, d) == Some(Plain(i)) <==> RestOf("FORMAT", rest, d, i)
  {
    hide ParseReg;
    hide RegisterOf;
    hide ParseOperand;
    hide OperandOf;
    hide IsField;
    hide IsConstant;
    hide SymbolOf;
    hide ParseOperands;
    hide OperandsOf;
    hide Cond;
    if rest != [] && i.Format? { OperandsExactly(rest[1..], i.ops); }
  }

  lemma PredLength(words: seq<string>, clauses: seq<Clause>, ops: seq<Connective>)
    requires PredOf(words, clauses, ops, true)
    ensures |words| >= 3
  {
    hide OperandOf;
    if ops != [] {
      var k: nat :| k < |words| && ClauseOf(words[..k], clauses[0], true) && ConnectiveOf(words[k], ops[0]) &&
        PredOf(words[k + 1..], clauses[1..], ops[1..], true);
      assert |words[..k]| >= 3;
    }
  }

  lemma CondExactly(words: seq<string>, p: Pred, fieldLeft: bool)
    ensures Cond(words, fieldLeft) == Some(p) <==> PredOf(words, p.clauses, p.ops, fieldLeft)
  {
    hide PredOf;
    hide ParseClauses;
    PredExactly(words, p, fieldLeft);
    ParsedPredOk(words, fieldLeft);
  }

  lemma FilterBinding(rest: seq<string>, d: nat, i: Instr)
    requires WordsRead(rest)
    ensures ParseBinding("FILTER", rest, d) == Some(Plain(i)) <==> RestOf("FILTER", rest, d, i)
  {
    hide ParseReg;
    hide RegisterOf;
    hide ParseOperand;
    hide OperandOf;
    hide IsField;
    hide IsConstant;
    hide SymbolOf;
    hide ParseOperands;
    hide Cond;
    hide PredOf;
    if rest != [] && i.Filter? {
      CondExactly(rest[1..], i.pred, true);
      if PredOf(rest[1..], i.pred.clauses, i.pred.ops, true) { PredLength(rest[1..], i.pred.clauses, i.pred.ops); }
    }
  }

  /** Between its word and its arrow a binding is read exactly so. */
  lemma BindingExactly(op: string, rest: seq<string>, d: nat, i: Instr)
    ensures ParseBinding(op, rest, d) == Some(Plain(i)) <==> RestOf(op, rest, d, i)
  {
    ReadsWords(rest);
    hide WordsRead;
    if op in {"LET", "GET", "MAP", "COUNT", "SORT", "SELECT", "FIRST"} {
      hide ParseBinding;
      hide RestOf;
      ShortBinding(op, rest, d, i);
    } else if op in {"MOST", "LEAST"} {
      hide ParseBinding;
      hide RestOf;
      MostBinding(op, rest, d, i);
    } else if op == "FORMAT" {
      hide ParseBinding;
      hide RestOf;
      FormatBinding(rest, d, i);
    } else if op == "FILTER" {
      hide ParseBinding;
      hide RestOf;
      FilterBinding(rest, d, i);
    } else {
      hide RegisterOf;
      hide OperandOf;
      hide SymbolOf;
      hide PredOf;
    }
  }

  lemma PlainBinding(op: string, rest: seq<string>, d: nat)
    ensures op != "FOREACH" ==> (var h := ParseBinding(op, rest, d); h.Some? ==> h.value.Plain?)
    ensures ParseBinding("FOREACH", rest, d) ==
            if |rest| == 1 && ParseReg(rest[0]).Some? then Some(ForeachHead(ParseReg(rest[0]).value, d)) else None
  {
    hide ParseReg;
    hide ParseOperand;
    hide ParseOperands;
    hide Cond;
    hide IsField;
    hide IsConstant;
  }

  /** A line that starts with a binder's word. */
  lemma BinderStep(words: seq<string>, line: nat)
    requires words != [] && words[0] in BINDERS
    ensures var p := ParseInstr(words, line);
            if |words| >= 3 && ArrowDst(words[1..]).Some?
            then p == ParseBinding(words[0], Middle(words), ArrowDst(words[1..]).value.dst)
            else p == None
  {
    hide ParseBinding;
    hide ParseReg;
    if |words| >= 3 { assert words[1..][..|words| - 3] == Middle(words); }
  }

  lemma ArrowOf(words: seq<string>, d: nat)
    requires |words| >= 1
    ensures ArrowTo(words, d) <==> |words| >= 3 && ArrowDst(words[1..]).Some? && ArrowDst(words[1..]).value.dst == d
  {
    hide RegisterOf;
    ArrowExactly(words[1..], d);
    if |words| >= 3 {
      assert words[1..][|words| - 3] == words[|words| - 2] && words[1..][|words| - 2] == words[|words| - 1];
    }
  }

  lemma BinderExactly(words: seq<string>, i: Instr, line: nat)
    requires words != [] && words[0] in BINDERS && words[0] != "FOREACH"
    ensures ParseInstr(words, line) == Some(Plain(i)) <==> BindingOf(words, i)
  {
    BinderStep(words, line);
    hide ParseInstr;
    hide ParseBinding;
    hide RestOf;
    hide ArrowDst;
    hide ArrowTo;
    if |words| >= 3 && ArrowDst(words[1..]).Some? {
      var d := ArrowDst(words[1..]).value.dst;
      ArrowOf(words, d);
      BindingExactly(words[0], Middle(words), d, i);
    }
    forall d: nat | ArrowTo(words, d) && RestOf(words[0], Middle(words), d, i)
      ensures ParseInstr(words, line) == Some(Plain(i))
    {
      ArrowOf(words, d);
      BindingExactly(words[0], Middle(words), d, i);
    }
  }

  lemma ForeachExactly(words: seq<string>, src: nat, v: nat, line: nat)
    requires words != [] && words[0] == "FOREACH"
    ensures ParseInstr(words, line) == Some(ForeachHead(src, v)) <==> HeadOf(words, ForeachHead(src, v), line)
  {
    BinderStep(words, line);
    hide ParseInstr;
    hide ParseBinding;
    hide ArrowDst;
    hide ArrowTo;
    hide ParseReg;
    hide RegisterOf;
    ArrowOf(words, v);
    if |words| >= 3 && ArrowDst(words[1..]).Some? {
      PlainBinding("FOREACH", Middle(words), ArrowDst(words[1..]).value.dst);
      if |words| == 4 {
        assert Middle(words)[0] == words[1];
        RegisterExactly(words[1], src);
      }
    }
  }

  lemma CallExactly(words: seq<string>, c: CallI, line: nat)
    requires words != [] && words[0] == "CALL"
    ensures ParseInstr(words, line) == Some(Plain(DoCall(c))) <==> CallOf(words, c) && c.line == line
  {
    var rest := words[1..];
    assert ParseInstr(words, line) == ParseCall(rest, line) by {
      hide ParseCall;
      hide ArrowDst;
      assert words[0] !in BINDERS;
    }
    hide ParseInstr;
    hide ParseReg;
    hide RegisterOf;
    hide ParseOperands;
    hide OperandsOf;
    hide IsTool;
    hide SymbolOf;
    var n := |words|;
    if "->" in rest {
      if c.dst.Some? {
        ArrowOf(words, c.dst.value);
        ArrowExactly(rest, c.dst.value);
        if ArrowTo(words, c.dst.value) {
          assert rest[..|rest| - 2] == Middle(words);
          WordsOfCall(Middle(words), c);
        } else if ArrowDst(rest).Some? {
          assert |words| >= 3;
        }
      } else {
        if CallWords(rest, c) { NoArrowInCall(rest, c); }
      }
    } else {
      if n >= 3 { assert rest[n - 3] == words[n - 2]; }
      WordsOfCall(rest, c);
    }
  }

  lemma WordsOfCall(words: seq<string>, c: CallI)
    ensures (words != [] && IsTool(words[0]) && words[0] == c.tool && ParseOperands(words[1..]) == Some(c.args)) <==>
            CallWords(words, c)
  {
    hide ParseOperands;
    hide OperandsOf;
    hide IsTool;
    hide SymbolOf;
    if words != [] {
      SymbolsExactly(words[0]);
      OperandsExactly(words[1..], c.args);
    }
  }

  lemma NoArrowInCall(words: seq<string>, c: CallI)
    requires CallWords(words, c)
    ensures "->" !in words
  {
    hide OperandOf;
    forall i | 0 <= i < |words|
      ensures words[i] != "->"
    {
      if i > 0 {
        assert words[1..][i - 1] == words[i];
        OperandIsNoWord(words[i], c.args[i - 1]);
      }
    }
  }

  lemma IfExactly(words: seq<string>, p: Pred, line: nat)
    requires words != [] && words[0] == "IF"
    ensures ParseInstr(words, line) == Some(IfHead(p)) <==> HeadOf(words, IfHead(p), line)
  {
    hide Cond;
    hide PredOf;
    hide ArrowDst;
    CondExactly(words[1..], p, false);
  }

  lemma RetryArrow(rest: seq<string>, d: nat)
    requires |rest| >= 2
    ensures var a := ArrowDst(rest[2..]);
            (a.Some? && a.value.dst == d && a.value.rest == []) <==>
            |rest| == 4 && rest[2] == "->" && RegisterOf(rest[3], d)
  {
    hide RegisterOf;
    ArrowExactly(rest[2..], d);
  }

  lemma RetryExactly(rest: seq<string>, retry: nat, d: nat)
    requires rest != [] && rest[0] == "RETRY"
    ensures ParseTry(rest) == Some(TryHead(retry, d)) <==>
            |rest| == 4 && NumeralOf(rest[1], retry) && rest[2] == "->" && RegisterOf(rest[3], d)
  {
    hide ArrowDst;
    hide Read;
    hide NumeralOf;
    hide RegisterOf;
    if |rest| >= 2 {
      NumeralExactly(rest[1], retry);
      RetryArrow(rest, d);
    }
  }

  lemma OnceExactly(rest: seq<string>, retry: nat, d: nat)
    requires rest == [] || rest[0] != "RETRY"
    ensures ParseTry(rest) == Some(TryHead(retry, d)) <==>
            |rest| == 2 && rest[0] == "->" && RegisterOf(rest[1], d) && retry == 0
  {
    ArrowExactly(rest, d);
    hide ArrowDst;
    hide RegisterOf;
  }

  lemma TryExactly(words: seq<string>, retry: nat, d: nat, line: nat)
    requires words != [] && words[0] == "TRY"
    ensures ParseInstr(words, line) == Some(TryHead(retry, d)) <==> HeadOf(words, TryHead(retry, d), line)
  {
    assert ParseInstr(words, line) == ParseTry(words[1..]) by { hide ParseTry; hide ArrowDst; }
    hide ParseInstr;
    hide ParseTry;
    hide NumeralOf;
    hide RegisterOf;
    if |words| > 1 && words[1] == "RETRY" { RetryExactly(words[1..], retry, d); } else {
      OnceExactly(words[1..], retry, d);
    }
  }

  /** The word an instruction's line starts with. */
  predicate Opens(op: string, h: Head) {
    match h
    case ForeachHead(_, _) => op == "FOREACH"
    case IfHead(_) => op == "IF"
    case ElseHead => op == "ELSE"
    case ParallelHead => op == "PARALLEL"
    case TryHead(_, _) => op == "TRY"
    case Plain(DoCall(_)) => op == "CALL"
    case Plain(Return(_)) => op == "RETURN"
    case Plain(Stop) => op == "STOP"
    case Plain(Pause) => op == "PAUSE"
    case Plain(Abort(_, _)) => op == "ABORT"
    case Plain(i) => op in BINDERS && op != "FOREACH"
  }

  /** A line of one word. */
  lemma WordExactly(words: seq<string>, h: Head, line: nat)
    requires words != [] && words[0] in {"ELSE", "PARALLEL", "STOP", "PAUSE"} && Opens(words[0], h)
    ensures ParseInstr(words, line) == Some(h) <==> HeadOf(words, h, line)
  {
    hide ParseOperand;
    hide OperandOf;
    hide ArrowDst;
    hide Cond;
    if |words| == 1 { assert words == [words[0]]; }
  }

  lemma ReturnExactly(words: seq<string>, op: Operand, line: nat)
    requires words != [] && words[0] == "RETURN"
    ensures ParseInstr(words, line) == Some(Plain(Return(op))) <==> HeadOf(words, Plain(Return(op)), line)
  {
    hide ParseOperand;
    hide OperandOf;
    hide ArrowDst;
    hide Cond;
    if |words| == 2 { OperandExactly(words[1], op); }
  }

  lemma AbortExactly(words: seq<string>, reason: string, refs: seq<string>, line: nat)
    requires words != [] && words[0] == "ABORT"
    ensures ParseInstr(words, line) == Some(Plain(Abort(reason, refs))) <==>
            HeadOf(words, Plain(Abort(reason, refs)), line)
  {
    hide IsRef;
    hide SymbolOf;
    hide ArrowDst;
    hide Cond;
    forall k | 0 <= k < |words|
      ensures IsRef(words[k]) <==> SymbolOf(TOOLS + FIELDS + CONSTANTS, words[k])
    {
      SymbolsExactly(words[k]);
    }
    if |words| > 1 { assert words == ["ABORT", words[1]] + words[2..]; }
    assert words[1..] != [] ==> words[1..][1..] == words[2..];
    if words == ["ABORT", reason] + refs {
      assert words[2..] == refs && words[1] == reason;
      assert forall k | 0 <= k < |refs| :: refs[k] == words[k + 2];
      assert forall i | 1 <= i < |words[1..]| :: words[1..][i] == words[i + 1] == refs[i - 1];
    }
  }

  // ---------------------------------------------------------------- all lines

  lemma ParsedOpens(words: seq<string>, line: nat)
    requires words != []
    ensures var h := ParseInstr(words, line); h.Some? ==> Opens(words[0], h.value)
  {
    var op := words[0];
    if op in BINDERS {
      BinderStep(words, line);
      hide ParseInstr;
      hide ArrowDst;
      if |words| >= 3 && ArrowDst(words[1..]).Some? {
        BinderOpens(op, Middle(words), ArrowDst(words[1..]).value.dst);
      }
    } else {
      hide ParseOperand;
      hide ParseOperands;
      hide ArrowDst;
      hide Cond;
      hide IsRef;
      hide IsTool;
    }
  }

  lemma BinderOpens(op: string, rest: seq<string>, d: nat)
    requires op in BINDERS
    ensures var h := ParseBinding(op, rest, d); h.Some? ==> Opens(op, h.value)
  {
    hide ParseReg;
    hide ParseOperand;
    hide ParseOperands;
    hide Cond;
    hide IsField;
    hide IsConstant;
  }

  lemma SaidOpens(words: seq<string>, h: Head, line: nat)
    requires words != [] && HeadOf(words, h, line)
    ensures Opens(words[0], h)
  {
    hide RegisterOf;
    hide OperandOf;
    hide SymbolOf;
    hide PredOf;
    hide OperandsOf;
    hide CallWords;
  }

  lemma OpenedExactly(words: seq<string>, h: Head, line: nat)
    requires words != [] && Opens(words[0], h)
    ensures ParseInstr(words, line) == Some(h) <==> HeadOf(words, h, line)
  {
    match h
    case ForeachHead(src, v) => ForeachExactly(words, src, v, line);
    case IfHead(p) => IfExactly(words, p, line);
    case TryHead(retry, d) => TryExactly(words, retry, d, line);
    case Plain(DoCall(c)) => CallExactly(words, c, line);
    case Plain(Abort(reason, refs)) => AbortExactly(words, reason, refs, line);
    case Plain(Return(op)) => ReturnExactly(words, op, line);
    case Plain(Stop) => WordExactly(words, h, line);
    case Plain(Pause) => WordExactly(words, h, line);
    case Plain(i) => BinderExactly(words, i, line);
    case _ => WordExactly(words, h, line);
  }

  /** The line parser accepts exactly the lines of the grammar, each as what it says. */
  lemma HeadExactly(words: seq<string>, h: Head, line: nat)
    requires words != []
    ensures ParseInstr(words, line) == Some(h) <==> HeadOf(words, h, line)
  {
    hide ParseInstr;
    hide HeadOf;
    hide Opens;
    if Opens(words[0], h) {
      OpenedExactly(words, h, line);
    } else {
      ParsedOpens(words, line);
      if HeadOf(words, h, line) { SaidOpens(words, h, line); }
    }
  }

  /** The line says the row, by the grammar. */
  ghost predicate Writes(ln: Line, r: Row) {
    ln.level == r.level && HeadOf(ln.toks, r.head, ln.no) && (r.head.ElseHead? || ln.no == r.no)
  }

  /** A text parses to `body` exactly when its lines write the rows of the well-formed, non-empty tree `body`. */
  lemma ProgramExactly(lines: Lines, body: seq<Stmt>)
    ensures ParseLines(lines) == Some(body) <==>
            body != [] && TreeOk(body) && |lines| == |Rows(body, 0)| &&
            forall i | 0 <= i < |lines| :: Writes(lines[i], Rows(body, 0)[i])
  {
    hide ParseLines;
    hide TreeOk;
    hide Rows;
    hide HeadOf;
    hide ParseInstr;
    var rows := Rows(body, 0);
    ParseExact(lines, body);
    if |lines| == |rows| {
      forall i | 0 <= i < |lines|
        ensures Says(lines[i], rows[i]) <==> Writes(lines[i], rows[i])
      {
        HeadExactly(lines[i].toks, rows[i].head, lines[i].no);
      }
      if Spell(lines, 0, rows) {
        assert forall i | 0 <= i < |rows| :: rows[i] == rows[i] && Says(lines[0 + i], rows[i]);
      }
    }
  }
}
